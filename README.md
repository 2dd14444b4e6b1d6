# Quantum error-correcting codes, modelled in Dafny

This project models the circuit builders of a small Qiskit library of quantum
error-correcting codes:

- the three-qubit bit-flip code;
- the three-qubit phase-flip code;
- Shor's nine-qubit code;
- the seven-qubit Steane code;
- the stand-alone copy of the bit-flip encoder kept beside the package.

Each builder creates a `QuantumCircuit` and appends gates one at a time. The
correction routines append measurements and `if_test` blocks to a caller's
circuit. The model keeps that shape:

- `Circuits.QuantumCircuit` is a class with a fixed width, a list of classical
  register sizes and a mutable operation list.
- Its methods mirror the builder calls the library makes: `cx`, `h`, `x`, `z`,
  `compose(…, qubits=…, inplace=True)`, `measure`, `if_test` and `inverse`.
- Each builder is a method. It is proved to produce exactly a gate list, which
  is given as a function.

The properties are proved about those gate lists in two exact, discrete
semantics. Neither uses complex amplitudes:

- **Basis-state semantics** (`BasisStates`). This is for circuits made only of
  X and CX gates: a basis state is a `seq<bool>`. `measure` copies a qubit into
  a classical bit. `if_test((reg, v))` applies its gate when the register,
  read with bit 0 least significant, holds `v`.
- **Pauli-frame semantics** (`PauliFrame`, `ErrorFrames`). This is for circuits
  with H. An error is a signed Pauli operator with x and z bits per qubit, and a
  gate conjugates it:
  - H swaps the qubit's x and z bits.
  - CX(c, t) adds x[c] into x[t] and z[t] into z[c].
  - The sign follows the Aaronson–Gottesman rules.

  A Z-basis measurement flips exactly when the frame has an x bit on the
  measured qubit. A conditioned Pauli gate multiplies the frame when its
  register test fires.

Qubit i is bit i of every sequence. Qiskit prints outcome strings with the
highest index on the left; the model states the Steane docstring's words with
qubit 0 first, as the docstring writes them.

Two facts about the gate lists shape the model:

- The Steane encoder at `qecc/seven_qubit_steane_code.py:14-33` has fourteen
  gates: three H and eleven CX. The model has all fourteen, in that order.
- The phase-flip and Shor decoders are not the encoder's gates in reverse
  order: they place the H layer and the CX layers differently. The model keeps
  the source's order. It proves that each decoder acts on every Pauli operator
  exactly as the reversed encoder does, and that decoding after encoding is the
  identity.

## Model

| member | source | states |
|---|---|---|
| Circuits.QuantumCircuit.constructor | qecc/three_qubit_bit_flip.py:8 | `QuantumCircuit(n)` is an empty circuit of n qubits with no classical registers |
| Circuits.QuantumCircuit.Cx | qecc/three_qubit_bit_flip.py:9-10 | `cx(c, t)` appends CX(c, t) after the operations already there; control and target are distinct qubits of the circuit |
| Circuits.QuantumCircuit.H | qecc/three_qubit_phase_flip.py:15-17 | `h(q)` appends H(q) |
| Circuits.QuantumCircuit.X | qecc/three_qubit_bit_flip.py:29 | `x(q)` appends X(q) |
| Circuits.QuantumCircuit.Z | qecc/seven_qubit_steane_code.py:86 | `z(q)` appends Z(q) |
| Circuits.QuantumCircuit.Compose | qecc/nine_qubit_shors_code.py:14-17 | `compose(other, qubits=m)` succeeds exactly when other has no classical registers and m names one distinct qubit of the circuit per qubit of other. It then appends other's operations with qubit k moved to m[k]; otherwise nothing changes |
| Circuits.QuantumCircuit.Measure | qecc/seven_qubit_steane_code.py:67-68 | `measure(qs, reg)` appends one measurement of qs[k] into bit k of reg, for each k in order |
| Circuits.QuantumCircuit.IfTest | qecc/three_qubit_bit_flip.py:28-29 | `with if_test((reg, v)): g` appends g conditioned on register reg holding v |
| Circuits.QuantumCircuit.Inverse | qecc/seven_qubit_steane_code.py:38 | `inverse()` of a gate-only circuit is a new circuit of the same shape with the operations reversed |
| Gates.ReverseReverse | qecc/seven_qubit_steane_code.py:38 | reversing twice gives back the list |
| Gates.ReverseAppend | qecc/seven_qubit_steane_code.py:38 | the reverse of a + b is reverse(b) + reverse(a) |
| Gates.ReverseLift | qecc/seven_qubit_steane_code.py:38 | reversing the operations of a gate list is the operation list of the reversed gate list |
| Gates.RemapFits | qecc/nine_qubit_shors_code.py:14-17 | a gate list on k qubits, moved by an injective in-range map, is a valid gate list of the larger circuit |
| Gates.RemapLift | qecc/nine_qubit_shors_code.py:14-17 | remapping the operations of a gate list is the operation list of the remapped gates |
| Gates.RemapIdentity | qecc/nine_qubit_shors_code.py:14-17 | composing onto qubits 0..n-1 in order changes no gate |
| Gates.RegValueShift | qecc/seven_qubit_steane_code.py:70-83 | a register read with bit 0 least significant: k leading zero bits multiply the value by 2^k |
| Gates.RegValuePad | qecc/seven_qubit_steane_code.py:70-83 | trailing zero bits do not change a register's value |
| Gates.ParityOneHot | qecc/seven_qubit_steane_code.py:45-50 | the parity of a one-hot word over an index set is whether the set holds the hot index |
| PauliFrame.ConjAppend | qecc/three_qubit_phase_flip.py:12-17 | running a + b conjugates by a and then by b |
| PauliFrame.ConjGateInvolution | qecc/seven_qubit_steane_code.py:38 | each of H, X, Z and CX is its own inverse: conjugating twice restores every signed Pauli |
| PauliFrame.ReverseUndoes | qecc/seven_qubit_steane_code.py:38 | the reversed gate list undoes the gate list on every signed Pauli, which justifies `inverse()` as reversal |
| PauliFrame.ConjGateCommute | qecc/nine_qubit_shors_code.py:21-27 | two gates that commute (as `Commute` decides) may be swapped without changing any conjugation |
| PauliFrame.ReverseCommuting | qecc/nine_qubit_shors_code.py:23-25 | a list of pairwise commuting gates acts like its own reverse |
| PauliFrame.ConjRemap | qecc/nine_qubit_shors_code.py:14-17 | conjugating by a composed sub-circuit acts on the chosen qubits as the sub-circuit acts on its own qubits |
| PauliFrame.HLayerConj | qecc/three_qubit_phase_flip.py:15-17 | an H on each qubit of a list swaps x and z there and nowhere else |
| PauliFrame.FanOutConj | qecc/three_qubit_bit_flip.py:9-10 | CXs from one control onto distinct targets copy the control's x onto the targets and gather the targets' z onto the control |
| PauliFrame.FanInConj | qecc/seven_qubit_steane_code.py:45-50 | CXs from distinct controls onto one target add the controls' x parity into the target and copy the target's z onto each control |
| BasisStates.RunBitsIsFrameX | qecc/three_qubit_bit_flip.py:18-22 | on CX-only circuits the basis-state run is the x part of the Pauli-frame run |
| BasisStates.RunMeasureAll | qecc/three_qubit_bit_flip.py:27 | measuring qs into reg writes qubit qs[k] into bit k of reg and changes nothing else |
| BasisStates.RunConditionedAll | qecc/three_qubit_bit_flip.py:28-33 | a table of if_tests with values 1..n applies the gate of the register's value, or nothing when the value is 0 or above n |
| ErrorFrames.FrameRunLift | qecc/seven_qubit_steane_code.py:41-62 | on an error frame a gate-only circuit conjugates the Pauli and keeps the registers |
| ErrorFrames.FrameRunMeasureAll | qecc/seven_qubit_steane_code.py:67-68 | a measurement records the frame's x bit of the measured qubit |
| ErrorFrames.FrameRunConditioned | qecc/seven_qubit_steane_code.py:70-98 | a conditioned Pauli table multiplies the frame by the gate its register's value selects, or by nothing |
| ErrorFrames.FrameRunConditionedTwo | qecc/seven_qubit_steane_code.py:70-98 | the X table on register 0 and the Z table on register 1 flip x bit j exactly when register 0 holds j + 1, and z bit j exactly when register 1 holds j + 1 |
| ThreeQubitBitFlip.GetEncodingDecodingCircuit | qecc/three_qubit_bit_flip.py:4-11 | builds a 3-qubit circuit of CX(0,1) then CX(0,2) |
| ThreeQubitBitFlip.GetSyndromeExtractionCircuit | qecc/three_qubit_bit_flip.py:14-23 | builds a 5-qubit circuit of CX(0,3), CX(1,4), CX(2,3), CX(2,4) |
| ThreeQubitBitFlip.ApplySyndromeCorrection | qecc/three_qubit_bit_flip.py:26-33 | appends the measurement of qubits 3 and 4 into the two-bit register, then X(0), X(1), X(2) under values 1, 2, 3 |
| ThreeQubitBitFlip.EncodingOnBasis | qecc/three_qubit_bit_flip.py:8-10 | the encoder keeps qubit 0 and flips qubits 1 and 2 exactly when qubit 0 is set; other qubits are untouched |
| ThreeQubitBitFlip.EncoderIsFanOut | qecc/three_qubit_bit_flip.py:9-10 | the encoder is the fan-out of qubit 0 onto 1 and 2 |
| ThreeQubitBitFlip.EncodesLogicalBit | qecc/three_qubit_bit_flip.py:5-7 | b00 becomes bbb: 000 stays 000 and 100 becomes 111 |
| ThreeQubitBitFlip.EncodingSelfInverse | qecc/three_qubit_bit_flip.py:4-11 | the encoder is its own decoder on every signed 3-qubit Pauli |
| ThreeQubitBitFlip.EncodingTwiceOnBasis | qecc/three_qubit_bit_flip.py:8-10 | running the encoder twice restores every basis state |
| ThreeQubitBitFlip.SyndromeOnBasis | qecc/three_qubit_bit_flip.py:18-22 | q3 gains q0 xor q2 and q4 gains q1 xor q2; every other qubit is unchanged |
| ThreeQubitBitFlip.SyndromeOnBasisAt | qecc/nine_qubit_shors_code.py:32-34 | the syndrome circuit composed onto five distinct qubits m does the same on m |
| ThreeQubitBitFlip.SyndromeBits | qecc/three_qubit_bit_flip.py:15-16 | the expected register for an error on qubit k reads k + 1 |
| ThreeQubitBitFlip.NoErrorSyndrome | qecc/three_qubit_bit_flip.py:18-22 | on 000 or 111 with clean ancillas the syndrome is 00 and nothing changes |
| ThreeQubitBitFlip.SingleErrorSyndrome | qecc/three_qubit_bit_flip.py:15-22 | an X on data qubit k of a codeword leaves the data as it is and sets the ancillas to the register value k + 1 (01, 10, 11) |
| ThreeQubitBitFlip.MeasureSyndrome | qecc/three_qubit_bit_flip.py:27 | the measurement writes q3 to clbit 0 and q4 to clbit 1 and changes nothing else |
| ThreeQubitBitFlip.ConditionedFix | qecc/three_qubit_bit_flip.py:28-33 | register value v in 1..3 applies X to qubit v - 1; value 0 applies nothing |
| ThreeQubitBitFlip.CorrectionTable | qecc/three_qubit_bit_flip.py:26-33 | the whole correction stores the ancillas in the register and flips exactly qubit v - 1 for the value v read |
| ThreeQubitBitFlip.ErrorThenSyndrome | qecc/three_qubit_bit_flip.py:4-23 | encoding b, flipping data qubit k and extracting leaves the flipped codeword and syndrome k + 1 |
| ThreeQubitBitFlip.CorrectsSingleBitFlip | qecc/three_qubit_bit_flip.py:4-33 | encode, any single X, extract and correct gives back bbb on the data, and the register keeps the syndrome |
| ThreeQubitBitFlip.NoErrorNoCorrection | qecc/three_qubit_bit_flip.py:26-33 | with no error the register reads 0 and the codeword is left as it is |
| ThreeQubitPhaseFlip.GetEncodingCircuit | qecc/three_qubit_phase_flip.py:8-18 | builds CX(0,1), CX(0,2), H(0), H(1), H(2) on 3 qubits |
| ThreeQubitPhaseFlip.GetDecodingCircuit | qecc/three_qubit_phase_flip.py:21-28 | builds H(0), H(1), H(2), CX(0,1), CX(0,2) on 3 qubits |
| ThreeQubitPhaseFlip.GetSyndromeExtractionCircuit | qecc/three_qubit_phase_flip.py:31-44 | builds the eight gates of the H-sandwiched syndrome circuit on 5 qubits |
| ThreeQubitPhaseFlip.EncoderIsBitFlipThenH | qecc/three_qubit_phase_flip.py:12-17 | the encoder acts as the bit-flip encoder followed by H on qubits 0, 1, 2 |
| ThreeQubitPhaseFlip.DecoderBlocks | qecc/three_qubit_phase_flip.py:22-27 | the decoder is the H layer followed by the fan-out of qubit 0 |
| ThreeQubitPhaseFlip.DecoderActsAsReversedEncoder | qecc/three_qubit_phase_flip.py:21-28 | the decoder acts on every Pauli as the reversed encoder does |
| ThreeQubitPhaseFlip.DecodeUndoesEncode | qecc/three_qubit_phase_flip.py:8-28 | decoding after encoding restores every signed 3-qubit Pauli |
| ThreeQubitPhaseFlip.EncoderConj | qecc/three_qubit_phase_flip.py:12-17 | on an X-type or Z-type error the encoder spreads an x on qubit 0 to z on qubits 0-2 and maps the z part to x, keeping the sign |
| ThreeQubitPhaseFlip.EncodesZeroAsPlusStates | qecc/three_qubit_phase_flip.py:9-10 | the stabilizers Z0, Z1, Z2 of 000 become X0, X0X1, X0X2, the stabilizers of +++ |
| ThreeQubitPhaseFlip.LogicalXBecomesZZZ | qecc/three_qubit_phase_flip.py:9-10 | the logical X becomes Z0Z1Z2, which exchanges +++ and --- |
| ThreeQubitPhaseFlip.SyndromeStages | qecc/three_qubit_phase_flip.py:35-43 | the syndrome circuit acts as H on the ancillas, a fan-out from each ancilla, then H on the ancillas |
| ThreeQubitPhaseFlip.SyndromeConj | qecc/three_qubit_phase_flip.py:35-43 | an error with no x on the ancillas, and with z on the ancillas or on the data but not both, keeps its sign and its z bits; ancilla 3 gains the z parity of qubits 0 and 2 as x, ancilla 4 that of qubits 1 and 2, and an ancilla's z spreads x onto the data qubits it checks |
| ThreeQubitPhaseFlip.SyndromeOfPhaseFlip | qecc/three_qubit_phase_flip.py:32-43 | a Z on data qubit k stays there and puts x on the ancillas the syndrome k + 1 names |
| ThreeQubitPhaseFlip.SyndromeIgnoresBitFlip | qecc/three_qubit_phase_flip.py:35-43 | a bit flip on a data qubit passes the syndrome circuit unchanged |
| ThreeQubitPhaseFlip.PhaseFlipSyndromeValue | qecc/three_qubit_phase_flip.py:32-33 | after a Z on data qubit k, measuring qubits 3 and 4 reads the register value k + 1 |
| ThreeQubitPhaseFlip.AncillasReadZeroWithoutError | qecc/three_qubit_phase_flip.py:8-44 | with no error each ancilla reads 0: encoding and extraction map a stabilizer of the fresh input onto Z of the ancilla |
| ThreeQubitPhaseFlip.SyndromeCircuitShape | qecc/three_qubit_phase_flip.py:36-43 | data qubits are only CX targets, ancillas only CX controls, and each ancilla has one H before its CXs and one after |
| NineQubitShorsCode.SyndromeBlock | qecc/nine_qubit_shors_code.py:32-34 | each block's qubit map is injective and within the 15 qubits |
| NineQubitShorsCode.BlockMapsFit | qecc/nine_qubit_shors_code.py:14-17 | every qubit map of the encoder and decoder is injective and within the 9 qubits |
| NineQubitShorsCode.GetEncodingCircuit | qecc/nine_qubit_shors_code.py:7-18 | builds the phase-flip encoder on (0,3,6), then the bit-flip encoder on (0,1,2), (3,4,5), (6,7,8) |
| NineQubitShorsCode.GetDecodingCircuit | qecc/nine_qubit_shors_code.py:21-27 | builds the three bit-flip decoders, then the phase-flip decoder on (0,3,6) |
| NineQubitShorsCode.GetBitFlipSyndromeExtractionCircuit | qecc/nine_qubit_shors_code.py:30-35 | builds three copies of the bit-flip syndrome circuit on (0,1,2,9,10), (3,4,5,11,12), (6,7,8,13,14) |
| NineQubitShorsCode.EncodingLifted | qecc/nine_qubit_shors_code.py:13-17 | the four composes append exactly the remapped encoder gates |
| NineQubitShorsCode.DecodingLifted | qecc/nine_qubit_shors_code.py:22-26 | the four composes append exactly the remapped decoder gates |
| NineQubitShorsCode.SyndromeLifted | qecc/nine_qubit_shors_code.py:31-34 | the three composes append exactly the remapped syndrome gates |
| NineQubitShorsCode.PhaseLayers | qecc/nine_qubit_shors_code.py:14 | the phase-flip encoder on (0,3,6) is the fan-out of 0 onto 3 and 6 followed by H on 0, 3, 6; the decoder is the reverse order |
| NineQubitShorsCode.BitFlipLayerCommutes | qecc/nine_qubit_shors_code.py:15-17 | the six CXs of the three bit-flip encoders commute pairwise |
| NineQubitShorsCode.CodecBlocks | qecc/nine_qubit_shors_code.py:13-26 | encoder and decoder are made of the same three layers in different orders, and the decoder is not the encoder reversed |
| NineQubitShorsCode.DecoderActsAsReversedEncoder | qecc/nine_qubit_shors_code.py:21-27 | the decoder is not the reversed encoder as a list, yet acts on every Pauli as the reversed encoder does |
| NineQubitShorsCode.DecodeUndoesEncode | qecc/nine_qubit_shors_code.py:7-27 | decoding after encoding restores every signed 9-qubit Pauli |
| NineQubitShorsCode.BitFlipLayerOnZ | qecc/nine_qubit_shors_code.py:15-17 | the bit-flip layer turns Z on qubit 3b + j (j = 1, 2) into Z on 3b and 3b + j |
| NineQubitShorsCode.PhaseLayerKeepsZ | qecc/nine_qubit_shors_code.py:14 | the phase-flip encoder on (0,3,6) leaves Z on any other qubit alone |
| NineQubitShorsCode.EncodedBlocksAgree | qecc/nine_qubit_shors_code.py:8-17 | the encoder maps a stabilizer of the fresh input onto Z(3b)Z(3b+j), so every basis outcome of an encoded state has each block agreeing internally |
| NineQubitShorsCode.EncodesZeroAsPlusBlocks | qecc/nine_qubit_shors_code.py:8-17 | the encoder carries Z on 0, 3 and 6, which fix the fresh input, to XXX on block 0, blocks 0 and 1, and blocks 0 and 2, all with sign +: encoded 0 is fixed by the XXX of every block, so each block is 000 + 111 |
| NineQubitShorsCode.LeadersZToBlocksX | qecc/nine_qubit_shors_code.py:13-17 | Z's on the leaders 0, 3, 6 become + X on whole blocks: block 0 when z0 + z3 + z6 is odd, block 1 when z3, block 2 when z6 |
| NineQubitShorsCode.LogicalXBecomesZOnLeaders | qecc/nine_qubit_shors_code.py:8-17 | the logical X on the input becomes + Z0 Z3 Z6, which anticommutes with every block's XXX: encoded 1 has each block 000 - 111 |
| NineQubitShorsCode.EncodeThenSyndromeOnZ | qecc/nine_qubit_shors_code.py:7-35 | encoding and the bit-flip syndrome circuit on a product of Z's that avoids the leaders: leaders pick up their block's parity, then each ancilla's Z flows back onto the data qubits it is joined to |
| NineQubitShorsCode.BitFlipAncillasReadZeroWithoutError | qecc/nine_qubit_shors_code.py:7-35 | without an error every ancilla 9-14 reads 0: Z on the ancilla after the run comes from a + product of Z's on qubits that start in 0 |
| NineQubitShorsCode.BlockSyndromeOnBasis | qecc/nine_qubit_shors_code.py:32-34 | each copy adds its block's two parities into its own ancilla pair and changes nothing else |
| NineQubitShorsCode.BlockStepsCompose | qecc/nine_qubit_shors_code.py:32-34 | the three copies act on disjoint qubits, so their effects add up |
| NineQubitShorsCode.SyndromeOnBasis | qecc/nine_qubit_shors_code.py:30-35 | the data is unchanged and ancillas 9 + 2b and 10 + 2b gain the parities of block b |
| NineQubitShorsCode.NoErrorSyndrome | qecc/nine_qubit_shors_code.py:32-34 | when every block agrees and the ancillas are 0, all six syndrome bits stay 0 |
| NineQubitShorsCode.SyndromeRegister | qecc/nine_qubit_shors_code.py:30-35 | the expected six-bit register for an error on data qubit i |
| NineQubitShorsCode.SyndromeRegisterValue | tests/test_nine_qubit_shors_code.py:179-191 | that register reads ((i mod 3) + 1) * 4^(i div 3) |
| NineQubitShorsCode.SyndromeRegisterPair | qecc/nine_qubit_shors_code.py:32-34 | the ancilla pair of block b holds the three-qubit syndrome when the error is in block b and 00 otherwise |
| NineQubitShorsCode.XErrorSyndrome | qecc/nine_qubit_shors_code.py:30-35 | an X on data qubit i stays where it is and sets the ancillas to its register |
| NineQubitShorsCode.BitFlipSyndromeValue | tests/test_nine_qubit_shors_code.py:179-191 | after an X on data qubit i, measuring ancillas 9..14 (ancilla 9 + k on clbit k) reads ((i mod 3) + 1) * 4^(i div 3) |
| NineQubitShorsCode.SyndromeIdentifiesQubit | tests/test_nine_qubit_shors_code.py:191 | the nine single-error syndromes are nonzero and pairwise distinct |
| SevenQubitSteaneCode.GetEncodingCircuit | qecc/seven_qubit_steane_code.py:8-34 | builds the encoder's fourteen gates in the source's order on 7 qubits |
| SevenQubitSteaneCode.EncodingOps | qecc/seven_qubit_steane_code.py:16-33 | the fourteen appends make exactly the encoder's operation list |
| SevenQubitSteaneCode.GetDecodingCircuit | qecc/seven_qubit_steane_code.py:37-38 | the decoder is the inverse of a fresh encoder: its gates reversed |
| SevenQubitSteaneCode.GetSyndromeExtractionCircuit | qecc/seven_qubit_steane_code.py:41-62 | builds a 13-qubit circuit from the six loops and two H layers |
| SevenQubitSteaneCode.AppendSyndromeLoops | qecc/seven_qubit_steane_code.py:44-61 | the loop bodies append the three fan-ins, the H layer, the three fan-outs and the H layer |
| SevenQubitSteaneCode.CxOntoAncilla | qecc/seven_qubit_steane_code.py:45-50 | one bit-flip loop appends a CX from each listed data qubit onto the ancilla |
| SevenQubitSteaneCode.CxFromAncilla | qecc/seven_qubit_steane_code.py:54-59 | one phase-flip loop appends a CX from the ancilla onto each listed data qubit |
| SevenQubitSteaneCode.HOnEach | qecc/seven_qubit_steane_code.py:52-53 | one H loop appends an H on each phase-flip ancilla |
| SevenQubitSteaneCode.SyndromeLoops | qecc/seven_qubit_steane_code.py:44-61 | the syndrome gate list is the bit-flip loops, the H layer, the phase-flip loops and the H layer |
| SevenQubitSteaneCode.EncoderShape | qecc/seven_qubit_steane_code.py:14-33 | the encoder is exactly fourteen gates: H on 4, 5, 6 first, then eleven CXs |
| SevenQubitSteaneCode.EncoderBlocks | qecc/seven_qubit_steane_code.py:15-33 | the encoder is the H layer, then fan-outs from 0, 6, 5 and 4 |
| SevenQubitSteaneCode.CXNetworkOnBasis | qecc/seven_qubit_steane_code.py:19-33 | the eleven CXs map each basis state to its network image |
| SevenQubitSteaneCode.EncodesBasis | qecc/seven_qubit_steane_code.py:9-33 | the H layer touches only the fresh qubits 4-6; the CX network maps b000x4x5x6 to the codeword of b with those three bits |
| SevenQubitSteaneCode.Word | qecc/seven_qubit_steane_code.py:11-12 | a docstring word read with qubit 0 first |
| SevenQubitSteaneCode.DocstringWordsAreCodewords | qecc/seven_qubit_steane_code.py:11-12 | each of the eight words listed for b is the codeword of b for its own bits 4-6 |
| SevenQubitSteaneCode.CodewordsAreListed | qecc/seven_qubit_steane_code.py:9-12 | every codeword of b is among the eight listed words, so the support of encoded b is exactly the docstring's set |
| SevenQubitSteaneCode.DecodeUndoesEncode | qecc/seven_qubit_steane_code.py:37-38 | decoding after encoding restores every signed 7-qubit Pauli |
| SevenQubitSteaneCode.EncodeUndoesDecode | qecc/seven_qubit_steane_code.py:37-38 | encoding after decoding restores every signed 7-qubit Pauli |
| SevenQubitSteaneCode.Checks | qecc/seven_qubit_steane_code.py:45-59 | each of the three index sets has four distinct data qubits |
| SevenQubitSteaneCode.ChecksAreBinary | qecc/seven_qubit_steane_code.py:45-59 | data qubit i is in set k exactly when bit k of i + 1 is set |
| SevenQubitSteaneCode.BitFlipLoopsConj | qecc/seven_qubit_steane_code.py:45-50 | on an error with no Z on ancillas 7-9, the bit-flip loops add the x parity of set k onto ancilla 7 + k and change nothing else |
| SevenQubitSteaneCode.PhaseFlipLoopsConj | qecc/seven_qubit_steane_code.py:54-59 | on an error with no X on ancillas 10-12, the phase-flip loops add the z parity of set k onto ancilla 10 + k and change nothing else |
| SevenQubitSteaneCode.AncillaH | qecc/seven_qubit_steane_code.py:52-53 | the H layer swaps x and z on ancillas 10-12 and keeps the sign when none carries both |
| SevenQubitSteaneCode.SyndromeConj | qecc/seven_qubit_steane_code.py:41-62 | an error on the data alone leaves the data as it is, puts its x parities on ancillas 7-9 and its z parities on ancillas 10-12 (as x) |
| SevenQubitSteaneCode.CheckBitsExplicit | qecc/seven_qubit_steane_code.py:45-50 | the three check bits written out over the four qubits of each set |
| SevenQubitSteaneCode.SyndromeNamesError | qecc/seven_qubit_steane_code.py:45-59 | for a data error on at most one qubit the three check bits read j + 1 exactly when qubit j is in error, and 0 when none is |
| SevenQubitSteaneCode.XGates | qecc/seven_qubit_steane_code.py:70-83 | the bit-flip table's gates: X on qubit j at position j |
| SevenQubitSteaneCode.ZGates | qecc/seven_qubit_steane_code.py:85-98 | the phase-flip table's gates: Z on qubit j at position j |
| SevenQubitSteaneCode.ApplyCorrection | qecc/seven_qubit_steane_code.py:65-98 | appends the measurements of ancillas 7-9 and 10-12 into the two registers and the two seven-entry tables |
| SevenQubitSteaneCode.IfTestEach | qecc/seven_qubit_steane_code.py:70-83 | seven if_test blocks place gate j under value j + 1 |
| SevenQubitSteaneCode.ReadoutStage | qecc/seven_qubit_steane_code.py:67-68 | the two measurements store the frame's x bits of qubits 7-9 and 10-12 (clbit k from qubit 7 + k and 10 + k) |
| SevenQubitSteaneCode.ConditionedStage | qecc/seven_qubit_steane_code.py:70-98 | the two tables flip x on qubit j exactly when the bit-flip register holds j + 1, and z likewise for the phase-flip register |
| SevenQubitSteaneCode.CorrectionTable | qecc/seven_qubit_steane_code.py:65-98 | the whole correction: registers hold the ancilla bits, and at most one X and one Z are applied, on the qubits those values name |
| SevenQubitSteaneCode.SyndromeStage | qecc/seven_qubit_steane_code.py:41-62 | extraction of X error xs and Z error zs leaves the data error and puts the check bits of xs and zs on the ancillas |
| SevenQubitSteaneCode.CorrectionStage | qecc/seven_qubit_steane_code.py:65-98 | for single errors the correction clears the data error and records the two syndromes |
| SevenQubitSteaneCode.CorrectsSingleErrors | qecc/seven_qubit_steane_code.py:41-98 | extraction then correction of an X on at most one data qubit and a Z on at most one data qubit leaves no data error and the registers holding both syndromes |
| SevenQubitSteaneCode.ErrorAt | qecc/seven_qubit_steane_code.py:70-98 | the one-hot data error on qubit i, or none |
| SevenQubitSteaneCode.NamedValue | qecc/seven_qubit_steane_code.py:70-98 | the syndrome of the error on qubit i reads i + 1, and 0 for no error |
| SevenQubitSteaneCode.SingleErrorsCorrected | qecc/seven_qubit_steane_code.py:41-98 | for every i and j, X on i with Z on j is undone exactly: data clean, bit-flip register i + 1, phase-flip register j + 1 (0 for no error) |
| SrcThreeQubitBitFlip.GetEncodingDecodingCircuit | src/three_qubit_bit_flip.py:4-8 | builds on 3 qubits exactly the package encoder's gates, CX(0,1) then CX(0,2) |
| SrcThreeQubitBitFlip.OnBasisState | src/three_qubit_bit_flip.py:6-7 | qubit 0 never changes; qubits 1 and 2 flip exactly when qubit 0 is 1 |
| SrcThreeQubitBitFlip.EncodesZeroAndOne | src/three_qubit_bit_flip.py:4-8 | 000 stays 000 and 100 becomes 111 |
| SrcThreeQubitBitFlip.TwiceIsIdentity | src/three_qubit_bit_flip.py:4-8 | running the circuit twice restores every 3-bit basis state |

## Left out

- Qiskit's simulation: state vectors, `transpile`, the Aer simulator, shot sampling and ratio tolerances. These are an external library, floating point and randomness. The model uses exact basis-state and Pauli-frame semantics instead. Amplitudes and superpositions are not modelled.
- Circuits.QuantumCircuit.Inverse: models `inverse()` as reversal. This is exact only because every gate here (H, X, Z, CX) is self-inverse; Qiskit's own inversion code is not part of this model.
- The error frames track a Pauli operator and its sign. They do not track a global phase of i, which cannot be measured.
- A measurement in the frame semantics records whether the outcome is flipped relative to the error-free run. That error-free ancillas read 0 is proved for the phase-flip code (`ThreeQubitPhaseFlip.AncillasReadZeroWithoutError`) and for the six bit-flip ancillas of the Shor code (`NineQubitShorsCode.BitFlipAncillasReadZeroWithoutError`), in both cases as a Z on the ancilla that the circuit carries back to a product of Z's fixing the fresh |0> inputs. For the three-qubit bit-flip code it follows from the basis-state runs (`ThreeQubitBitFlip.NoErrorSyndrome`), as that circuit has only X and CX gates. For the Steane code it is assumed rather than proved, so `CorrectsSingleErrors` speaks of the flip, not of absolute outcomes.
- Circuits.QuantumCircuit.Compose: returns `ok == false` instead of raising when the qubit map is the wrong length, repeats a qubit or falls outside the circuit. It also returns `ok == false`, appending nothing, when other has classical registers, which Qiskit would compose; every compose in the library passes a circuit without registers.
- ThreeQubitBitFlip.ApplySyndromeCorrection: requires a five-qubit (or wider) circuit and a two-bit register. Qiskit raises an error for any other circuit; that error path is not modelled.
- SevenQubitSteaneCode.ApplyCorrection: requires a circuit of at least 13 qubits with exactly two three-bit registers. The source unpacks `qc.cregs` into two names and Qiskit raises for other shapes; that error path is not modelled.
- Shor's phase-flip syndrome extraction, the complete Shor syndrome extraction and both Shor corrections: they are imported by `qecc/__init__.py:1-9` but not defined in `qecc/nine_qubit_shors_code.py`.
- `apply_three_qubit_phase_flip_correction`: it is imported by `qecc/__init__.py:12` but not defined in `qecc/three_qubit_phase_flip.py`.
- `qecc/__init__.py`: it only re-exports names. Its line 10 imports `apply_three_qubit_bit_flip_correction`, while the module defines the routine as `apply_three_qubit_syndrome_correction`, which is the name modelled here.
- `tests/test_three_qubit_phase_flip.py` is stale. It imports a builder that does not exist and expects a 000/111 split that the |+++> encoder does not produce, so no property is drawn from it.
- The drawing and file-writing scripts under `scripts/` are not part of this model.
