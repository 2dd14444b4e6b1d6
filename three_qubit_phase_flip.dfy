/** The three-qubit phase-flip code: the bit-flip encoder followed by H on
    every qubit, so |0> becomes |+++> and |1> becomes |--->.  The syndrome
    circuit sandwiches two ancillas (qubits 3 and 4) between H gates and uses
    them as CX controls onto the data, so a Z on data qubit k flips the
    ancillas to the register value k + 1. */
module ThreeQubitPhaseFlip {
  import opened Gates
  import opened PauliFrame
  import opened ErrorFrames
  import opened Circuits
  import ThreeQubitBitFlip

  function EncodingGates(): seq<Gate>
  {
    [CX(0, 1), CX(0, 2), H(0), H(1), H(2)]
  }

  function DecodingGates(): seq<Gate>
  {
    [H(0), H(1), H(2), CX(0, 1), CX(0, 2)]
  }

  function SyndromeExtractionGates(): seq<Gate>
  {
    [H(3), H(4), CX(3, 0), CX(4, 1), CX(3, 2), CX(4, 2), H(3), H(4)]
  }

  method GetEncodingCircuit() returns (out: QuantumCircuit)
    ensures fresh(out) && out.Valid()
    ensures out.width == 3 && out.cregs == [] && out.ops == Lift(EncodingGates())
  {
    out := new QuantumCircuit(3, []);
    out.Cx(0, 1);
    out.Cx(0, 2);
    out.H(0);
    out.H(1);
    out.H(2);
  }

  method GetDecodingCircuit() returns (out: QuantumCircuit)
    ensures fresh(out) && out.Valid()
    ensures out.width == 3 && out.cregs == [] && out.ops == Lift(DecodingGates())
  {
    out := new QuantumCircuit(3, []);
    out.H(0);
    out.H(1);
    out.H(2);
    out.Cx(0, 1);
    out.Cx(0, 2);
  }

  method GetSyndromeExtractionCircuit() returns (out: QuantumCircuit)
    ensures fresh(out) && out.Valid()
    ensures out.width == 5 && out.cregs == [] && out.ops == Lift(SyndromeExtractionGates())
  {
    out := new QuantumCircuit(5, []);
    out.H(3);
    out.H(4);
    out.Cx(3, 0);
    out.Cx(4, 1);
    out.Cx(3, 2);
    out.Cx(4, 2);
    out.H(3);
    out.H(4);
  }

  // ---------------------------------------------------------------------
  // Encoding and decoding

  /** The encoder acts as the bit-flip encoder followed by H on qubits 0, 1
      and 2. */
  lemma EncoderIsBitFlipThenH(p: Pauli)
    requires Sized(p, 3)
    ensures Conj(EncodingGates(), p)
         == Conj(HLayer([0, 1, 2]), Conj(ThreeQubitBitFlip.EncodingGates(), p))
  {
    assert EncodingGates() == ThreeQubitBitFlip.EncodingGates() + HLayer([0, 1, 2]);
    ConjAppend(ThreeQubitBitFlip.EncodingGates(), HLayer([0, 1, 2]), p);
  }

  /** The decoder lists the H gates and the CX gates in the encoder's order
      rather than reversed, but reordering commuting gates changes nothing:
      it conjugates every Pauli, sign included, as the reversed encoder does. */
  lemma DecoderActsAsReversedEncoder(p: Pauli)
    requires Sized(p, 3)
    ensures Conj(DecodingGates(), p) == Conj(Reverse(EncodingGates()), p)
  {
    DecoderBlocks();
    EncoderBlocks();
    HLayerCommutes([0, 1, 2]);
    FanOutCommutes(0, [1, 2]);
    ReverseOfCommutingBlocks(HLayer([0, 1, 2]), FanOut(0, [1, 2]), p);
  }

  lemma DecoderBlocks()
    ensures DecodingGates() == HLayer([0, 1, 2]) + FanOut(0, [1, 2])
  {
  }

  /** Decoding after encoding is the identity: every Pauli, sign included,
      is mapped back to itself. */
  lemma DecodeUndoesEncode(p: Pauli)
    requires Sized(p, 3)
    ensures Conj(DecodingGates(), Conj(EncodingGates(), p)) == p
  {
    DecoderActsAsReversedEncoder(Conj(EncodingGates(), p));
    ReverseUndoes(EncodingGates(), p);
  }

  /** On an X-type or Z-type Pauli the encoder acts as its two blocks say:
      the CXs copy X from qubit 0 onto qubits 1 and 2 and gather the Z of
      qubits 1 and 2 onto qubit 0, then the H layer trades X for Z on all
      three.  Qubits beyond the third are untouched and no sign appears. */
  lemma EncoderConj(p: Pauli, n: nat)
    requires 3 <= n && Sized(p, n)
    requires (!p.x[0] && !p.x[1] && !p.x[2]) || (!p.z[0] && !p.z[1] && !p.z[2])
    ensures Fits(EncodingGates(), n)
    ensures var r := Conj(EncodingGates(), p);
            r.neg == p.neg
            && forall j | 0 <= j < n ::
                 r.x[j] == (if j == 0 then p.z[0] != (p.z[1] != p.z[2]) else if j < 3 then p.z[j] else p.x[j])
                 && r.z[j] == (if j == 0 then p.x[0] else if j < 3 then p.x[j] != p.x[0] else p.z[j])
  {
    EncoderBlocks();
    EncoderOnX(p, n);
    EncoderOnZ(p, n);
    EncoderSign(p, n);
  }

  lemma EncoderBlocks()
    ensures EncodingGates() == FanOut(0, [1, 2]) + HLayer([0, 1, 2])
  {
  }

  lemma EncoderOnX(p: Pauli, n: nat)
    requires 3 <= n && Sized(p, n)
    ensures Fits(FanOut(0, [1, 2]) + HLayer([0, 1, 2]), n)
    ensures var r := Conj(FanOut(0, [1, 2]) + HLayer([0, 1, 2]), p);
            forall j | 0 <= j < n ::
              r.x[j] == (if j == 0 then p.z[0] != (p.z[1] != p.z[2]) else if j < 3 then p.z[j] else p.x[j])
  {
    var f, h := FanOut(0, [1, 2]), HLayer([0, 1, 2]);
    EncoderFanOut(p, n);
    var q := Conj(f, p);
    DataH(q, n);
    ConjAppend(f, h, p);
  }

  lemma EncoderOnZ(p: Pauli, n: nat)
    requires 3 <= n && Sized(p, n)
    ensures Fits(FanOut(0, [1, 2]) + HLayer([0, 1, 2]), n)
    ensures var r := Conj(FanOut(0, [1, 2]) + HLayer([0, 1, 2]), p);
            forall j | 0 <= j < n ::
              r.z[j] == (if j == 0 then p.x[0] else if j < 3 then p.x[j] != p.x[0] else p.z[j])
  {
    var f, h := FanOut(0, [1, 2]), HLayer([0, 1, 2]);
    EncoderFanOut(p, n);
    var q := Conj(f, p);
    DataH(q, n);
    ConjAppend(f, h, p);
  }

  /** The fan-out keeps an X-type or Z-type Pauli free of Y on qubits 0 to
      2, so neither block introduces a sign. */
  lemma EncoderSign(p: Pauli, n: nat)
    requires 3 <= n && Sized(p, n)
    requires (!p.x[0] && !p.x[1] && !p.x[2]) || (!p.z[0] && !p.z[1] && !p.z[2])
    ensures Fits(FanOut(0, [1, 2]) + HLayer([0, 1, 2]), n)
    ensures Conj(FanOut(0, [1, 2]) + HLayer([0, 1, 2]), p).neg == p.neg
  {
    EncoderFanOutKeepsType(p, n);
    EncoderFanOutSign(p, n);
    DataHSign(Conj(FanOut(0, [1, 2]), p), n);
    ConjAppend(FanOut(0, [1, 2]), HLayer([0, 1, 2]), p);
  }

  /** The encoder's CXs alone. */
  lemma EncoderFanOut(p: Pauli, n: nat)
    requires 3 <= n && Sized(p, n)
    ensures Fits(FanOut(0, [1, 2]), n)
    ensures var r := Conj(FanOut(0, [1, 2]), p);
            forall j | 0 <= j < n ::
              r.x[j] == (if j == 1 || j == 2 then p.x[j] != p.x[0] else p.x[j])
              && r.z[j] == (if j == 0 then p.z[0] != (p.z[1] != p.z[2]) else p.z[j])
  {
    FanOutConj(0, [1, 2], p);
    ParityPair(p.z, 1, 2);
  }

  lemma EncoderFanOutKeepsType(p: Pauli, n: nat)
    requires 3 <= n && Sized(p, n)
    requires (!p.x[0] && !p.x[1] && !p.x[2]) || (!p.z[0] && !p.z[1] && !p.z[2])
    ensures Fits(FanOut(0, [1, 2]), n)
    ensures var q := Conj(FanOut(0, [1, 2]), p);
            (!q.x[0] && !q.x[1] && !q.x[2]) || (!q.z[0] && !q.z[1] && !q.z[2])
  {
    EncoderFanOut(p, n);
  }

  lemma EncoderFanOutSign(p: Pauli, n: nat)
    requires 3 <= n && Sized(p, n)
    requires (!p.x[0] && !p.x[1] && !p.x[2]) || (!p.z[0] && !p.z[1] && !p.z[2])
    ensures Fits(FanOut(0, [1, 2]), n)
    ensures Conj(FanOut(0, [1, 2]), p).neg == p.neg
  {
    assert forall k | 0 <= k < 2 :: [1, 2][k] == k + 1;
    FanOutSign(0, [1, 2], p);
  }

  /** H on the three data qubits trades their X for their Z. */
  lemma DataH(p: Pauli, n: nat)
    requires 3 <= n && Sized(p, n)
    ensures Fits(HLayer([0, 1, 2]), n)
    ensures var r := Conj(HLayer([0, 1, 2]), p);
            forall j | 0 <= j < n ::
              r.x[j] == (if j < 3 then p.z[j] else p.x[j]) && r.z[j] == (if j < 3 then p.x[j] else p.z[j])
  {
    HLayerConj([0, 1, 2], p);
    assert forall j | 0 <= j < n :: j in [0, 1, 2] <==> j < 3;
  }

  lemma DataHSign(p: Pauli, n: nat)
    requires 3 <= n && Sized(p, n)
    requires (!p.x[0] && !p.x[1] && !p.x[2]) || (!p.z[0] && !p.z[1] && !p.z[2])
    ensures Fits(HLayer([0, 1, 2]), n)
    ensures Conj(HLayer([0, 1, 2]), p).neg == p.neg
  {
    assert forall k | 0 <= k < 3 :: [0, 1, 2][k] == k;
    HLayerSign([0, 1, 2], p);
  }

  /** The stabilisers Z0, Z1, Z2 of |000> become X0, X0X1 and X0X2, which
      generate the stabilisers X0, X1, X2 of |+++>: |0> is encoded as |+++>. */
  lemma EncodesZeroAsPlusStates()
    ensures Conj(EncodingGates(), ZType([true, false, false])) == XType([true, false, false])
    ensures Conj(EncodingGates(), ZType([false, true, false])) == XType([true, true, false])
    ensures Conj(EncodingGates(), ZType([false, false, true])) == XType([true, false, true])
  {
    EncoderConj(ZType([true, false, false]), 3);
    EncoderConj(ZType([false, true, false]), 3);
    EncoderConj(ZType([false, false, true]), 3);
  }

  /** The logical X (X on the input qubit) becomes +Z0Z1Z2, which maps |+++>
      to |--->: |1> is encoded as |--->. */
  lemma LogicalXBecomesZZZ()
    ensures Conj(EncodingGates(), XType([true, false, false])) == ZType([true, true, true])
  {
    EncoderConj(XType([true, false, false]), 3);
  }

  // ---------------------------------------------------------------------
  // Syndrome extraction

  lemma SyndromeBlocks()
    ensures SyndromeExtractionGates()
         == HLayer([3, 4]) + [CX(3, 0), CX(4, 1), CX(3, 2), CX(4, 2)] + HLayer([3, 4])
  {
  }

  lemma SyndromeCXsRegrouped()
    ensures [CX(3, 0), CX(3, 2), CX(4, 1), CX(4, 2)] == FanOut(3, [0, 2]) + FanOut(4, [1, 2])
  {
  }

  /** The four CXs, with the middle two swapped, are a fan-out from qubit 3
      and a fan-out from qubit 4. */
  lemma SyndromeCXsAsFanOuts(p: Pauli)
    requires Sized(p, 5)
    ensures Fits(FanOut(3, [0, 2]), 5) && Fits(FanOut(4, [1, 2]), 5)
    ensures Conj([CX(3, 0), CX(4, 1), CX(3, 2), CX(4, 2)], p)
         == Conj(FanOut(4, [1, 2]), Conj(FanOut(3, [0, 2]), p))
  {
    ConjSwapInner(CX(3, 0), CX(4, 1), CX(3, 2), CX(4, 2), p);
    SyndromeCXsRegrouped();
    ConjAppend(FanOut(3, [0, 2]), FanOut(4, [1, 2]), p);
  }

  /** The syndrome circuit as its four stages. */
  lemma SyndromeStages(p: Pauli)
    requires Sized(p, 5)
    ensures Fits(SyndromeExtractionGates(), 5)
    ensures Fits(HLayer([3, 4]), 5) && Fits(FanOut(3, [0, 2]), 5) && Fits(FanOut(4, [1, 2]), 5)
    ensures Conj(SyndromeExtractionGates(), p)
         == Conj(HLayer([3, 4]), Conj(FanOut(4, [1, 2]), Conj(FanOut(3, [0, 2]), Conj(HLayer([3, 4]), p))))
  {
    SyndromeBlocks();
    ConjAppend3(HLayer([3, 4]), [CX(3, 0), CX(4, 1), CX(3, 2), CX(4, 2)], HLayer([3, 4]), p);
    SyndromeCXsAsFanOuts(Conj(HLayer([3, 4]), p));
  }

  /** What the syndrome circuit does to an error frame with no X on the
      ancillas, and Z on the ancillas or on the data but not both: the data
      Z parities Z0Z2 and Z1Z2 are copied onto the ancillas' X, an ancilla's
      Z spreads X onto the data qubits it checks, every Z stays where it is,
      and the sign is kept. */
  lemma SyndromeConj(p: Pauli)
    requires Sized(p, 5) && !p.x[3] && !p.x[4]
    requires (!p.z[3] && !p.z[4]) || (!p.z[0] && !p.z[1] && !p.z[2])
    ensures Fits(SyndromeExtractionGates(), 5)
    ensures var r := Conj(SyndromeExtractionGates(), p);
            r.neg == p.neg
            && forall j | 0 <= j < 5 ::
                 r.z[j] == p.z[j]
                 && r.x[j] == (if j == 0 then p.x[0] != p.z[3]
                               else if j == 1 then p.x[1] != p.z[4]
                               else if j == 2 then p.x[2] != (p.z[3] != p.z[4])
                               else if j == 3 then p.z[0] != p.z[2]
                               else p.z[1] != p.z[2])
  {
    SyndromeStages(p);
    SyndromeFirstHalf(p);
    SyndromeSecondHalf(Conj(FanOut(3, [0, 2]), Conj(HLayer([3, 4]), p)));
  }

  /** H on the ancillas, then the fan-out from ancilla 3. */
  lemma SyndromeFirstHalf(p: Pauli)
    requires Sized(p, 5) && !p.x[3] && !p.x[4]
    requires (!p.z[3] && !p.z[4]) || (!p.z[0] && !p.z[1] && !p.z[2])
    ensures Fits(HLayer([3, 4]), 5) && Fits(FanOut(3, [0, 2]), 5)
    ensures var r := Conj(FanOut(3, [0, 2]), Conj(HLayer([3, 4]), p));
            r.neg == p.neg
            && forall j | 0 <= j < 5 ::
                 r.x[j] == (if j == 0 || j == 2 then p.x[j] != p.z[3] else if j == 3 then p.z[3]
                            else if j == 4 then p.z[4] else p.x[j])
                 && r.z[j] == (if j == 3 then p.z[0] != p.z[2] else if j == 4 then false else p.z[j])
  {
    AncillaH(p);
    AncillaHSign(p);
    var q := Conj(HLayer([3, 4]), p);
    AncillaFanOut(3, 0, 2, q);
    AncillaFanOutSign(3, 0, 2, q);
  }

  /** The fan-out from ancilla 4, then H on the ancillas. */
  lemma SyndromeSecondHalf(p: Pauli)
    requires Sized(p, 5) && !p.z[4]
    requires !(p.x[3] && p.z[3])
    requires !p.x[4] || (!p.z[1] && !p.z[2])
    ensures Fits(HLayer([3, 4]), 5) && Fits(FanOut(4, [1, 2]), 5)
    ensures var r := Conj(HLayer([3, 4]), Conj(FanOut(4, [1, 2]), p));
            r.neg == p.neg
            && forall j | 0 <= j < 5 ::
                 r.x[j] == (if j == 1 || j == 2 then p.x[j] != p.x[4] else if j == 3 then p.z[3]
                            else if j == 4 then p.z[1] != p.z[2] else p.x[j])
                 && r.z[j] == (if j == 3 || j == 4 then p.x[j] else p.z[j])
  {
    AncillaFanOut(4, 1, 2, p);
    AncillaFanOutSign(4, 1, 2, p);
    var q := Conj(FanOut(4, [1, 2]), p);
    AncillaH(q);
    AncillaHSign(q);
  }

  /** The H layer on the ancillas trades their X for their Z. */
  lemma AncillaH(p: Pauli)
    requires Sized(p, 5)
    ensures Fits(HLayer([3, 4]), 5)
    ensures var r := Conj(HLayer([3, 4]), p);
            forall j | 0 <= j < 5 ::
              r.x[j] == (if j < 3 then p.x[j] else p.z[j]) && r.z[j] == (if j < 3 then p.z[j] else p.x[j])
  {
    HLayerConj([3, 4], p);
    assert forall j | 0 <= j < 5 :: j in [3, 4] <==> 3 <= j;
  }

  /** ... and keeps the sign when no ancilla carries both. */
  lemma AncillaHSign(p: Pauli)
    requires Sized(p, 5)
    ensures Fits(HLayer([3, 4]), 5)
    ensures !(p.x[3] && p.z[3]) && !(p.x[4] && p.z[4]) ==> Conj(HLayer([3, 4]), p).neg == p.neg
  {
    if !(p.x[3] && p.z[3]) && !(p.x[4] && p.z[4]) {
      assert forall k | 0 <= k < 2 :: [3, 4][k] == k + 3;
      HLayerSign([3, 4], p);
    }
  }

  /** The fan-out from ancilla a onto data qubits d and e copies the
      ancilla's X onto both and adds their Z parity to the ancilla's Z. */
  lemma AncillaFanOut(a: nat, d: nat, e: nat, p: Pauli)
    requires Sized(p, 5) && a < 5 && d < 5 && e < 5 && a != d && a != e && d != e
    ensures Fits(FanOut(a, [d, e]), 5)
    ensures var r := Conj(FanOut(a, [d, e]), p);
            forall j | 0 <= j < 5 ::
              r.x[j] == (if j == d || j == e then p.x[j] != p.x[a] else p.x[j])
              && r.z[j] == (if j == a then p.z[a] != (p.z[d] != p.z[e]) else p.z[j])
  {
    FanOutConj(a, [d, e], p);
    ParityPair(p.z, d, e);
    assert forall j | 0 <= j < 5 :: j in [d, e] <==> j == d || j == e;
  }

  /** ... and keeps the sign when the ancilla has no X or the data qubits no
      Z. */
  lemma AncillaFanOutSign(a: nat, d: nat, e: nat, p: Pauli)
    requires Sized(p, 5) && a < 5 && d < 5 && e < 5 && a != d && a != e && d != e
    ensures Fits(FanOut(a, [d, e]), 5)
    ensures !p.x[a] || (!p.z[d] && !p.z[e]) ==> Conj(FanOut(a, [d, e]), p).neg == p.neg
  {
    if !p.x[a] || (!p.z[d] && !p.z[e]) {
      assert [d, e][0] == d && [d, e][1] == e;
      FanOutSign(a, [d, e], p);
    }
  }

  /** A Z error on data qubit k stays where it is and puts X on the ancillas
      that spell k + 1: qubit 3 is bit 0 and qubit 4 bit 1. */
  lemma SyndromeOfPhaseFlip(k: nat)
    requires k < 3
    ensures Conj(SyndromeExtractionGates(), ZOn(5, k))
         == Pauli([false, false, false] + ThreeQubitBitFlip.SyndromeBits(k), ZOn(5, k).z, false)
  {
    SyndromeConj(ZOn(5, k));
  }

  /** A bit flip on a data qubit passes through the syndrome circuit
      untouched: the phase-flip code does not see it. */
  lemma SyndromeIgnoresBitFlip(k: nat)
    requires k < 3
    ensures Conj(SyndromeExtractionGates(), XOn(5, k)) == XOn(5, k)
  {
    SyndromeConj(XOn(5, k));
  }

  /** Measuring the ancillas after a Z error on data qubit k reads the
      register value k + 1. */
  lemma PhaseFlipSyndromeValue(k: nat)
    requires k < 3
    ensures var ops := Lift(SyndromeExtractionGates()) + MeasureOps([3, 4], 0);
            var f := FrameState(ZOn(5, k), [[false, false]]);
            FrameFits(ops, f)
            && FrameRun(ops, f).regs == [ThreeQubitBitFlip.SyndromeBits(k)]
            && RegValue(FrameRun(ops, f).regs[0]) == k + 1
  {
    var f := FrameState(ZOn(5, k), [[false, false]]);
    FrameRunLift(SyndromeExtractionGates(), f);
    SyndromeOfPhaseFlip(k);
    var g := FrameState(Conj(SyndromeExtractionGates(), ZOn(5, k)), [[false, false]]);
    FrameRunMeasureAll([3, 4], 0, g);
    FrameRunMeasureAll([3, 4], 0, f);
    FrameRunAppend(Lift(SyndromeExtractionGates()), MeasureOps([3, 4], 0), f);
    var bits := ThreeQubitBitFlip.SyndromeBits(k);
    assert seq(2, i requires 0 <= i < 2 => g.err.x[[3, 4][i]]) == bits;
  }

  /** Without an error both ancillas read 0.  Encoding and syndrome
      extraction carry a +-signed product of Z's on qubits 1 to 4, which
      start in |0> and so fix the input state, to Z on the ancilla: the
      final state is fixed by that Z, so measuring the ancilla gives 0. */
  lemma AncillasReadZeroWithoutError(a: nat)
    requires a == 3 || a == 4
    ensures Fits(EncodingGates() + SyndromeExtractionGates(), 5)
    ensures exists q :: FixesFreshZeros(q, {1, 2, 3, 4}) && |q.x| == 5
                        && Conj(EncodingGates() + SyndromeExtractionGates(), q) == ZOn(5, a)
  {
    var q := if a == 3 then ZType([false, false, true, true, false])
             else ZType([false, true, true, false, true]);
    EncoderConj(q, 5);
    var e := Conj(EncodingGates(), q);
    SyndromeConj(e);
    ConjAppend(EncodingGates(), SyndromeExtractionGates(), q);
    assert Conj(EncodingGates() + SyndromeExtractionGates(), q) == ZOn(5, a);
    assert FixesFreshZeros(q, {1, 2, 3, 4});
  }

  /** In the syndrome circuit the data qubits are only CX targets and the
      ancillas only CX controls, and each ancilla has one H before its CXs
      and one after. */
  lemma SyndromeCircuitShape()
    ensures var c := SyndromeExtractionGates();
            (forall i | 0 <= i < |c| && c[i].CX? :: c[i].c in {3, 4} && c[i].t in {0, 1, 2})
            && (forall i | 0 <= i < |c| && c[i].H? :: c[i].q in {3, 4} && (i < 2 || 6 <= i))
            && c[0] == H(3) && c[1] == H(4) && c[6] == H(3) && c[7] == H(4)
  {
  }
}
