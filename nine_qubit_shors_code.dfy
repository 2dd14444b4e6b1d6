/** Shor's nine-qubit code: the phase-flip code on qubits 0, 3 and 6, each
    of which is then spread over a block of three by the bit-flip code, so
    |0> becomes (|000> + |111>)^3 and |1> becomes (|000> - |111>)^3.  The
    bit-flip syndrome circuit runs the three-qubit syndrome circuit on every
    block, with ancillas 9-10, 11-12 and 13-14. */
module NineQubitShorsCode {
  import opened Gates
  import opened PauliFrame
  import opened BasisStates
  import opened ErrorFrames
  import opened Circuits
  import BitFlip = ThreeQubitBitFlip
  import PhaseFlip = ThreeQubitPhaseFlip

  /** The three bit-flip encoders, on blocks (0,1,2), (3,4,5), (6,7,8). */
  function BitFlipLayer(): seq<Gate>
  {
    Remap(BitFlip.EncodingGates(), [0, 1, 2])
    + Remap(BitFlip.EncodingGates(), [3, 4, 5])
    + Remap(BitFlip.EncodingGates(), [6, 7, 8])
  }

  function EncodingGates(): seq<Gate>
  {
    Remap(PhaseFlip.EncodingGates(), [0, 3, 6]) + BitFlipLayer()
  }

  function DecodingGates(): seq<Gate>
  {
    BitFlipLayer() + Remap(PhaseFlip.DecodingGates(), [0, 3, 6])
  }

  /** Data block b with its two ancillas: (0,1,2,9,10), (3,4,5,11,12) and
      (6,7,8,13,14). */
  function SyndromeBlock(b: nat): (m: seq<nat>)
    requires b < 3
    ensures |m| == 5 && Injective(m) && MapsInto(m, 15)
  {
    [3 * b, 3 * b + 1, 3 * b + 2, 9 + 2 * b, 10 + 2 * b]
  }

  function BlockSyndromeGates(b: nat): (c: seq<Gate>)
    requires b < 3
    ensures Fits(c, 15) && Classical(c)
  {
    Remap(BitFlip.SyndromeExtractionGates(), SyndromeBlock(b))
  }

  function BitFlipSyndromeExtractionGates(): (c: seq<Gate>)
    ensures Fits(c, 15) && Classical(c)
  {
    BlockSyndromeGates(0) + BlockSyndromeGates(1) + BlockSyndromeGates(2)
  }

  // ---------------------------------------------------------------------
  // Builders

  method GetEncodingCircuit() returns (out: QuantumCircuit)
    ensures fresh(out) && out.Valid()
    ensures out.width == 9 && out.cregs == [] && out.ops == Lift(EncodingGates())
  {
    var phaseMap, b0, b1, b2 := [0, 3, 6], [0, 1, 2], [3, 4, 5], [6, 7, 8];
    BlockMapsFit();
    EncodingLifted();
    out := new QuantumCircuit(9, []);
    var phase := PhaseFlip.GetEncodingCircuit();
    var ok := out.Compose(phase, phaseMap);
    var block0 := BitFlip.GetEncodingDecodingCircuit();
    ok := out.Compose(block0, b0);
    var block1 := BitFlip.GetEncodingDecodingCircuit();
    ok := out.Compose(block1, b1);
    var block2 := BitFlip.GetEncodingDecodingCircuit();
    ok := out.Compose(block2, b2);
  }

  method GetDecodingCircuit() returns (out: QuantumCircuit)
    ensures fresh(out) && out.Valid()
    ensures out.width == 9 && out.cregs == [] && out.ops == Lift(DecodingGates())
  {
    var phaseMap, b0, b1, b2 := [0, 3, 6], [0, 1, 2], [3, 4, 5], [6, 7, 8];
    BlockMapsFit();
    DecodingLifted();
    out := new QuantumCircuit(9, []);
    var block0 := BitFlip.GetEncodingDecodingCircuit();
    var ok := out.Compose(block0, b0);
    var block1 := BitFlip.GetEncodingDecodingCircuit();
    ok := out.Compose(block1, b1);
    var block2 := BitFlip.GetEncodingDecodingCircuit();
    ok := out.Compose(block2, b2);
    var phase := PhaseFlip.GetDecodingCircuit();
    ok := out.Compose(phase, phaseMap);
  }

  /** Every mapping the builders compose with is injective and in range. */
  lemma BlockMapsFit()
    ensures forall m | m in [[0, 3, 6], [0, 1, 2], [3, 4, 5], [6, 7, 8]] :: Injective(m) && MapsInto(m, 9)
  {
  }

  method GetBitFlipSyndromeExtractionCircuit() returns (out: QuantumCircuit)
    ensures fresh(out) && out.Valid()
    ensures out.width == 15 && out.cregs == [] && out.ops == Lift(BitFlipSyndromeExtractionGates())
  {
    out := new QuantumCircuit(9 + 6, []);
    var block0 := BitFlip.GetSyndromeExtractionCircuit();
    var ok := out.Compose(block0, [0, 1, 2, 9, 10]);
    var block1 := BitFlip.GetSyndromeExtractionCircuit();
    ok := out.Compose(block1, [3, 4, 5, 11, 12]);
    var block2 := BitFlip.GetSyndromeExtractionCircuit();
    ok := out.Compose(block2, [6, 7, 8, 13, 14]);
    SyndromeLifted();
  }

  /** The composed operation lists are the lifted gate lists. */
  lemma EncodingLifted()
    ensures Fits(PhaseFlip.EncodingGates(), 3) && Fits(BitFlip.EncodingGates(), 3)
    ensures [] + RemapOps(Lift(PhaseFlip.EncodingGates()), [0, 3, 6])
            + RemapOps(Lift(BitFlip.EncodingGates()), [0, 1, 2])
            + RemapOps(Lift(BitFlip.EncodingGates()), [3, 4, 5])
            + RemapOps(Lift(BitFlip.EncodingGates()), [6, 7, 8])
         == Lift(EncodingGates())
  {
    RemapLift(PhaseFlip.EncodingGates(), [0, 3, 6]);
    RemapLift(BitFlip.EncodingGates(), [0, 1, 2]);
    RemapLift(BitFlip.EncodingGates(), [3, 4, 5]);
    RemapLift(BitFlip.EncodingGates(), [6, 7, 8]);
    LiftAppend4(Remap(PhaseFlip.EncodingGates(), [0, 3, 6]), Remap(BitFlip.EncodingGates(), [0, 1, 2]),
                Remap(BitFlip.EncodingGates(), [3, 4, 5]), Remap(BitFlip.EncodingGates(), [6, 7, 8]));
  }

  lemma DecodingLifted()
    ensures Fits(PhaseFlip.DecodingGates(), 3) && Fits(BitFlip.EncodingGates(), 3)
    ensures [] + RemapOps(Lift(BitFlip.EncodingGates()), [0, 1, 2])
            + RemapOps(Lift(BitFlip.EncodingGates()), [3, 4, 5])
            + RemapOps(Lift(BitFlip.EncodingGates()), [6, 7, 8])
            + RemapOps(Lift(PhaseFlip.DecodingGates()), [0, 3, 6])
         == Lift(DecodingGates())
  {
    RemapLift(PhaseFlip.DecodingGates(), [0, 3, 6]);
    RemapLift(BitFlip.EncodingGates(), [0, 1, 2]);
    RemapLift(BitFlip.EncodingGates(), [3, 4, 5]);
    RemapLift(BitFlip.EncodingGates(), [6, 7, 8]);
    LiftAppend4(Remap(BitFlip.EncodingGates(), [0, 1, 2]), Remap(BitFlip.EncodingGates(), [3, 4, 5]),
                Remap(BitFlip.EncodingGates(), [6, 7, 8]), Remap(PhaseFlip.DecodingGates(), [0, 3, 6]));
  }

  lemma SyndromeLifted()
    ensures Fits(BitFlip.SyndromeExtractionGates(), 5)
    ensures [] + RemapOps(Lift(BitFlip.SyndromeExtractionGates()), [0, 1, 2, 9, 10])
            + RemapOps(Lift(BitFlip.SyndromeExtractionGates()), [3, 4, 5, 11, 12])
            + RemapOps(Lift(BitFlip.SyndromeExtractionGates()), [6, 7, 8, 13, 14])
         == Lift(BitFlipSyndromeExtractionGates())
  {
    var c := BitFlip.SyndromeExtractionGates();
    RemapLift(c, SyndromeBlock(0));
    RemapLift(c, SyndromeBlock(1));
    RemapLift(c, SyndromeBlock(2));
    LiftAppend(BlockSyndromeGates(0), BlockSyndromeGates(1));
    LiftAppend(BlockSyndromeGates(0) + BlockSyndromeGates(1), BlockSyndromeGates(2));
  }

  lemma LiftAppend4(a: seq<Gate>, b: seq<Gate>, c: seq<Gate>, d: seq<Gate>)
    ensures [] + Lift(a) + Lift(b) + Lift(c) + Lift(d) == Lift(a + b + c + d)
  {
    LiftAppend(a, b);
    LiftAppend(a + b, c);
    LiftAppend(a + b + c, d);
  }

  // ---------------------------------------------------------------------
  // Encoding and decoding

  lemma PhaseLayers()
    ensures Remap(PhaseFlip.EncodingGates(), [0, 3, 6]) == FanOut(0, [3, 6]) + HLayer([0, 3, 6])
    ensures Remap(PhaseFlip.DecodingGates(), [0, 3, 6]) == HLayer([0, 3, 6]) + FanOut(0, [3, 6])
  {
  }

  lemma BitFlipLayerGates()
    ensures BitFlipLayer() == [CX(0, 1), CX(0, 2), CX(3, 4), CX(3, 5), CX(6, 7), CX(6, 8)]
  {
  }

  /** The six CXs of the bit-flip layer commute: every control is one of 0,
      3 and 6, and no target is. */
  lemma BitFlipLayerCommutes()
    ensures PairwiseCommute(BitFlipLayer())
  {
    var c := BitFlipLayer();
    BitFlipLayerGates();
    assert forall i | 0 <= i < |c| :: c[i].CX? && c[i].c in {0, 3, 6} && c[i].t !in {0, 3, 6};
    ControlsApartFromTargets(c, {0, 3, 6});
  }

  /** The decoder runs the bit-flip layer first and the phase-flip decoder
      last, so it is not the encoder's gate list reversed; but it conjugates
      every Pauli, sign included, exactly as the reversed encoder does. */
  lemma DecoderActsAsReversedEncoder(p: Pauli)
    requires Sized(p, 9)
    ensures Fits(DecodingGates(), 9) && Fits(Reverse(EncodingGates()), 9)
    ensures DecodingGates() != Reverse(EncodingGates())
    ensures Conj(DecodingGates(), p) == Conj(Reverse(EncodingGates()), p)
  {
    CodecBlocks();
    BitFlipLayerCommutes();
    ReverseOfCodecBlocks(FanOut(0, [3, 6]), HLayer([0, 3, 6]), BitFlipLayer(), p);
  }

  lemma ReverseOfCodecBlocks(f: seq<Gate>, h: seq<Gate>, b: seq<Gate>, p: Pauli)
    requires Sized(p, 9) && Fits(f, 9) && Fits(h, 9) && Fits(b, 9)
    requires f == FanOut(0, [3, 6]) && h == HLayer([0, 3, 6]) && PairwiseCommute(b)
    ensures Fits(b + (h + f), 9) && Fits(Reverse(f + h + b), 9)
    ensures Conj(b + (h + f), p) == Conj(Reverse(f + h + b), p)
  {
    var c, qs, ts := 0, [0, 3, 6], [3, 6];
    HLayerCommutes(qs);
    FanOutCommutes(c, ts);
    ReverseOfCommutingBlocks3(f, h, b, p);
  }

  lemma CodecBlocks()
    ensures EncodingGates() == FanOut(0, [3, 6]) + HLayer([0, 3, 6]) + BitFlipLayer()
    ensures DecodingGates() == BitFlipLayer() + (HLayer([0, 3, 6]) + FanOut(0, [3, 6]))
    ensures DecodingGates() != Reverse(EncodingGates())
    ensures Fits(FanOut(0, [3, 6]), 9) && Fits(HLayer([0, 3, 6]), 9) && Fits(BitFlipLayer(), 9)
  {
    PhaseLayers();
    LayersFit();
    DecoderNotReversed();
  }

  lemma LayersFit()
    ensures Fits(FanOut(0, [3, 6]), 9) && Fits(HLayer([0, 3, 6]), 9) && Fits(BitFlipLayer(), 9)
  {
    BitFlipLayerGates();
  }

  lemma DecoderNotReversed()
    ensures DecodingGates() != Reverse(EncodingGates())
  {
    BitFlipLayerGates();
    assert DecodingGates()[0] == CX(0, 1);
    assert EncodingGates()[|EncodingGates()| - 1] == CX(6, 8);
  }

  /** Decoding after encoding is the identity on every Pauli, sign included. */
  lemma DecodeUndoesEncode(p: Pauli)
    requires Sized(p, 9)
    ensures Fits(EncodingGates(), 9) && Fits(DecodingGates(), 9)
    ensures Conj(DecodingGates(), Conj(EncodingGates(), p)) == p
  {
    DecoderActsAsReversedEncoder(Conj(EncodingGates(), p));
    ReverseUndoes(EncodingGates(), p);
  }

  // ---------------------------------------------------------------------
  // Bit-flip syndrome

  /** t is s after the copy on block b: q[3b]+q[3b+2] is added into
      ancilla 9+2b, q[3b+1]+q[3b+2] into ancilla 10+2b, and every other qubit
      is unchanged. */
  predicate BlockStep(b: nat, s: seq<bool>, t: seq<bool>)
    requires b < 3 && |s| == 15 && |t| == 15
  {
    t[9 + 2 * b] == (s[9 + 2 * b] != (s[3 * b] != s[3 * b + 2]))
    && t[10 + 2 * b] == (s[10 + 2 * b] != (s[3 * b + 1] != s[3 * b + 2]))
    && forall j | 0 <= j < 15 && j != 9 + 2 * b && j != 10 + 2 * b :: t[j] == s[j]
  }

  lemma BlockSyndromeOnBasis(b: nat, s: seq<bool>)
    requires b < 3 && |s| == 15
    ensures BlockStep(b, s, RunBits(BlockSyndromeGates(b), s))
  {
    BitFlip.SyndromeOnBasisAt(SyndromeBlock(b), s);
  }

  /** The result of the whole syndrome circuit on s. */
  predicate SyndromeResult(s: seq<bool>, r: seq<bool>)
    requires |s| == 15 && |r| == 15
  {
    (forall j | 0 <= j < 9 :: r[j] == s[j])
    && r[9] == (s[9] != (s[0] != s[2])) && r[10] == (s[10] != (s[1] != s[2]))
    && r[11] == (s[11] != (s[3] != s[5])) && r[12] == (s[12] != (s[4] != s[5]))
    && r[13] == (s[13] != (s[6] != s[8])) && r[14] == (s[14] != (s[7] != s[8]))
  }

  /** The three copies act on disjoint qubits, so their steps add up. */
  lemma BlockStepsCompose(s: seq<bool>, s1: seq<bool>, s2: seq<bool>, r: seq<bool>)
    requires |s| == 15 && |s1| == 15 && |s2| == 15 && |r| == 15
    requires BlockStep(0, s, s1) && BlockStep(1, s1, s2) && BlockStep(2, s2, r)
    ensures SyndromeResult(s, r)
  {
  }

  /** The data is unchanged and ancillas 9+2b and 10+2b gain the parities
      of block b alone. */
  lemma SyndromeOnBasis(s: seq<bool>)
    requires |s| == 15
    ensures SyndromeResult(s, RunBits(BitFlipSyndromeExtractionGates(), s))
  {
    BlockSyndromeOnBasis(0, s);
    var s1 := RunBits(BlockSyndromeGates(0), s);
    BlockSyndromeOnBasis(1, s1);
    var s2 := RunBits(BlockSyndromeGates(1), s1);
    BlockSyndromeOnBasis(2, s2);
    RunBitsAppend3(BlockSyndromeGates(0), BlockSyndromeGates(1), BlockSyndromeGates(2), s);
    BlockStepsCompose(s, s1, s2, RunBits(BlockSyndromeGates(2), s2));
  }

  /** With every block agreeing and the ancillas at 0 (each computational
      basis outcome of a codeword, see EncodedBlocksAgree), the syndrome
      circuit changes nothing: all six syndrome bits read 0. */
  lemma NoErrorSyndrome(s: seq<bool>)
    requires |s| == 15
    requires s[0] == s[1] == s[2] && s[3] == s[4] == s[5] && s[6] == s[7] == s[8]
    requires forall j | 9 <= j < 15 :: !s[j]
    ensures RunBits(BitFlipSyndromeExtractionGates(), s) == s
  {
    SyndromeOnBasis(s);
    var r := RunBits(BitFlipSyndromeExtractionGates(), s);
    assert forall j | 0 <= j < 15 :: r[j] == s[j];
  }

  /** The register an X on data qubit i should leave: the three-qubit
      syndrome (i mod 3) + 1 in bits 2b and 2b+1 of block b = i div 3, and 0
      in the other blocks' bits. */
  function SyndromeRegister(i: nat): (r: seq<bool>)
    requires i < 9
    ensures |r| == 6
  {
    Zeros(2 * (i / 3)) + BitFlip.SyndromeBits(i % 3) + Zeros(4 - 2 * (i / 3))
  }

  /** The register value ((i mod 3) + 1) * 4^(i div 3). */
  lemma SyndromeRegisterValue(i: nat)
    requires i < 9
    ensures RegValue(SyndromeRegister(i)) == (i % 3 + 1) * Pow2(2 * (i / 3))
  {
    var k, n := 2 * (i / 3), 4 - 2 * (i / 3);
    var bits := BitFlip.SyndromeBits(i % 3);
    assert SyndromeRegister(i) == Zeros(k) + (bits + Zeros(n));
    RegValueShift(k, bits + Zeros(n));
    RegValuePad(bits, n);
  }

  /** An X on data qubit i stays where it is and flips exactly the ancillas
      that spell SyndromeRegister(i). */
  lemma XErrorSyndrome(i: nat)
    requires i < 9
    ensures var r := RunBits(BitFlipSyndromeExtractionGates(), XOn(15, i).x);
            (forall j | 0 <= j < 9 :: r[j] == (j == i)) && r[9..] == SyndromeRegister(i)
  {
    var s := XOn(15, i).x;
    SyndromeOnBasis(s);
    OneHotSyndrome(i, s, RunBits(BitFlipSyndromeExtractionGates(), s));
  }

  /** SyndromeResult read on a one-hot data word with the ancillas at 0. */
  lemma OneHotSyndrome(i: nat, s: seq<bool>, r: seq<bool>)
    requires i < 9 && |s| == 15 && |r| == 15
    requires forall j | 0 <= j < 15 :: s[j] == (j == i)
    requires SyndromeResult(s, r)
    ensures (forall j | 0 <= j < 9 :: r[j] == (j == i)) && r[9..] == SyndromeRegister(i)
  {
    var want := SyndromeRegister(i);
    SyndromeRegisterPair(i, 0);
    SyndromeRegisterPair(i, 1);
    SyndromeRegisterPair(i, 2);
    var bits := BitFlip.SyndromeBits(i % 3);
    assert r[9..] == want;
  }

  lemma SyndromeGatesAreCX()
    ensures forall k | 0 <= k < |BitFlipSyndromeExtractionGates()| :: BitFlipSyndromeExtractionGates()[k].CX?
  {
  }

  /** The X part of the frame after syndrome extraction, as XErrorSyndrome
      gives it on basis states. */
  lemma XErrorFrame(i: nat)
    requires i < 9
    ensures Fits(BitFlipSyndromeExtractionGates(), 15)
    ensures var e := Conj(BitFlipSyndromeExtractionGates(), XOn(15, i));
            Sized(e, 15) && e.x[9..] == SyndromeRegister(i)
  {
    SyndromeGatesAreCX();
    RunBitsIsFrameX(BitFlipSyndromeExtractionGates(), XOn(15, i));
    XErrorSyndrome(i);
  }

  /** Measuring ancillas 9 to 14 after an X error on data qubit i records
      SyndromeRegister(i), whose value ((i mod 3) + 1) * 4^(i div 3) the
      expected-measurement list of the source's tests spells in binary. */
  lemma BitFlipSyndromeValue(i: nat)
    requires i < 9
    ensures var ops := Lift(BitFlipSyndromeExtractionGates()) + MeasureOps([9, 10, 11, 12, 13, 14], 0);
            var f := FrameState(XOn(15, i), [Zeros(6)]);
            FrameFits(ops, f)
            && FrameRun(ops, f).regs == [SyndromeRegister(i)]
            && RegValue(FrameRun(ops, f).regs[0]) == (i % 3 + 1) * Pow2(2 * (i / 3))
  {
    var c := BitFlipSyndromeExtractionGates();
    var qs := [9, 10, 11, 12, 13, 14];
    var f := FrameState(XOn(15, i), [Zeros(6)]);
    XErrorFrame(i);
    FrameRunLift(c, f);
    var g := FrameState(Conj(c, XOn(15, i)), [Zeros(6)]);
    FrameRunMeasureAll(qs, 0, g);
    FrameRunAppend(Lift(c), MeasureOps(qs, 0), f);
    MeasuredTail(g.err.x);
    SyndromeRegisterValue(i);
  }

  lemma MeasuredTail(x: seq<bool>)
    requires |x| == 15
    ensures var qs := [9, 10, 11, 12, 13, 14];
            seq(6, k requires 0 <= k < 6 => x[qs[k]]) == x[9..]
  {
  }

  /** The ancilla pair of block b holds the three-qubit syndrome of the
      error's position inside the block when the error is in block b, and
      reads 00 otherwise. */
  lemma SyndromeRegisterPair(i: nat, b: nat)
    requires i < 9 && b < 3
    ensures var r := SyndromeRegister(i);
            [r[2 * b], r[2 * b + 1]] == if b == i / 3 then BitFlip.SyndromeBits(i % 3) else [false, false]
  {
    var k := 2 * (i / 3);
    var bits := BitFlip.SyndromeBits(i % 3);
    var r := SyndromeRegister(i);
    assert r == Zeros(k) + bits + Zeros(4 - k);
    if b < i / 3 {
      assert 2 * b + 1 < k;
    } else if b > i / 3 {
      assert 2 * b >= k + 2;
    }
  }

  /** Every single X error gives a nonzero syndrome, and different data
      qubits give different syndromes, so the six bits locate the flip. */
  lemma SyndromeIdentifiesQubit(i: nat, j: nat)
    requires i < 9 && j < 9
    ensures SyndromeRegister(i) != Zeros(6)
    ensures SyndromeRegister(i) == SyndromeRegister(j) ==> i == j
  {
    var bi, bj := BitFlip.SyndromeBits(i % 3), BitFlip.SyndromeBits(j % 3);
    SyndromeRegisterPair(i, i / 3);
    SyndromeRegisterPair(j, i / 3);
    SyndromeRegisterPair(j, j / 3);
    SyndromeRegisterPair(i, j / 3);
  }

  lemma BitFlipLayerFanOuts()
    ensures BitFlipLayer() == FanOut(0, [1, 2]) + FanOut(3, [4, 5]) + FanOut(6, [7, 8])
  {
    BitFlipLayerGates();
  }

  /** A Z on a non-leading qubit a of a block passes the phase-flip layer
      untouched: that layer's fan-out has targets 3 and 6 and its H's sit on
      0, 3 and 6. */
  lemma PhaseLayerKeepsZ(a: nat)
    requires a < 9 && a != 0 && a != 3 && a != 6
    ensures Fits(Remap(PhaseFlip.EncodingGates(), [0, 3, 6]), 9)
    ensures Conj(Remap(PhaseFlip.EncodingGates(), [0, 3, 6]), ZOn(9, a)) == ZOn(9, a)
  {
    var z := seq(9, k => k == a);
    assert ZOn(9, a) == ZType(z);
    PhaseLayers();
    FanOutOnZ(0, [3, 6], z);
    ParityPair(z, 3, 6);
    assert z[0 := z[0] != Parity(z, [3, 6])] == z;
    HLayerOnZ([0, 3, 6], z);
    ConjAppend(FanOut(0, [3, 6]), HLayer([0, 3, 6]), ZType(z));
  }

  /** The fan-out f from leader l onto l + 1 and l + 2 leaves a product of
      Z's alone when those two qubits agree, and otherwise flips the Z on
      the leader. */
  lemma BlockFanOutOnZ(f: seq<Gate>, l: nat, z: seq<bool>)
    requires l + 2 < |z| && f == FanOut(l, [l + 1, l + 2])
    ensures Fits(f, |z|)
    ensures z[l + 1] == z[l + 2] ==> Conj(f, ZType(z)) == ZType(z)
    ensures z[l + 1] != z[l + 2] ==> Conj(f, ZType(z)) == ZType(z[l := !z[l]])
  {
    FanOutOnZ(l, [l + 1, l + 2], z);
    ParityPair(z, l + 1, l + 2);
    if z[l + 1] == z[l + 2] {
      assert z[l := z[l]] == z;
    }
  }

  /** On a product of Z's whose non-leading qubits differ only in the block
      led by l, the three block fan-outs flip the Z on l. */
  lemma BitFlipLayerOnZType(f0: seq<Gate>, f1: seq<Gate>, f2: seq<Gate>, l: nat, z: seq<bool>, w: seq<bool>)
    requires f0 == FanOut(0, [1, 2]) && f1 == FanOut(3, [4, 5]) && f2 == FanOut(6, [7, 8])
    requires (l == 0 || l == 3 || l == 6) && |z| == 9 && z[l + 1] != z[l + 2] && w == z[l := !z[l]]
    requires (l != 0 ==> z[1] == z[2]) && (l != 3 ==> z[4] == z[5]) && (l != 6 ==> z[7] == z[8])
    ensures Fits(f0 + f1 + f2, 9)
    ensures Conj(f0 + f1 + f2, ZType(z)) == ZType(w)
  {
    var z1 := if l == 0 then w else z;
    var z2 := if l == 6 then z else w;
    BlockFanOutOnZ(f0, 0, z);
    assert Conj(f0, ZType(z)) == ZType(z1);
    BlockFanOutOnZ(f1, 3, z1);
    assert Conj(f1, ZType(z1)) == ZType(z2);
    BlockFanOutOnZ(f2, 6, z2);
    assert Conj(f2, ZType(z2)) == ZType(w);
    ConjAppend3(f0, f1, f2, ZType(z));
  }

  /** The bit-flip layer turns a Z on qubit a = 3b + j (j = 1, 2) into
      Z on 3b and a. */
  lemma BitFlipLayerOnZ(b: nat, j: nat)
    requires b < 3 && (j == 1 || j == 2)
    ensures Fits(BitFlipLayer(), 9)
    ensures Conj(BitFlipLayer(), ZOn(9, 3 * b + j)) == ZOnSet(9, {3 * b, 3 * b + j})
  {
    var a, l := 3 * b + j, 3 * b;
    var z := seq(9, k => k == a);
    var w := z[l := true];
    assert ZOn(9, a) == ZType(z);
    assert ZOnSet(9, {l, a}) == ZType(w);
    BitFlipLayerFanOuts();
    BitFlipLayerOnZType(FanOut(0, [1, 2]), FanOut(3, [4, 5]), FanOut(6, [7, 8]), l, z, w);
  }

  /** Stabilizers of the encoder: for every block b and each of its two
      non-leading qubits a, the encoder carries Z on a, which fixes the
      fresh |0> on a, to Z on the block's leading qubit and a.  The encoded
      state is therefore fixed by that Z-pair: every basis state it is
      measured in has the three qubits of each block equal, as the source's
      test expects of the encoded |0> and |1>. */
  lemma EncodedBlocksAgree(b: nat, j: nat)
    requires b < 3 && (j == 1 || j == 2)
    ensures Fits(EncodingGates(), 9)
    ensures FixesFreshZeros(ZOn(9, 3 * b + j), {1, 2, 4, 5, 7, 8})
    ensures Conj(EncodingGates(), ZOn(9, 3 * b + j)) == ZOnSet(9, {3 * b, 3 * b + j})
  {
    var a := 3 * b + j;
    PhaseLayerKeepsZ(a);
    BitFlipLayerOnZ(b, j);
    ConjAppend(Remap(PhaseFlip.EncodingGates(), [0, 3, 6]), BitFlipLayer(), ZOn(9, a));
  }
  // ---------------------------------------------------------------------
  // Signs of the encoded blocks

  /** The encoder as its four fan-outs and the H layer between them. */
  lemma EncoderLayers()
    ensures EncodingGates()
         == FanOut(0, [3, 6]) + HLayer([0, 3, 6]) + (FanOut(0, [1, 2]) + FanOut(3, [4, 5]) + FanOut(6, [7, 8]))
  {
    CodecBlocks();
    BitFlipLayerFanOuts();
  }

  /** The fan-out f from leader l onto l + 1 and l + 2 copies the leader's
      X onto the two other qubits of a product of X's that has none there. */
  lemma BlockFanOutOnX(f: seq<Gate>, l: nat, xs: seq<bool>)
    requires l + 2 < |xs| && f == FanOut(l, [l + 1, l + 2]) && !xs[l + 1] && !xs[l + 2]
    ensures Fits(f, |xs|)
    ensures Conj(f, XType(xs)) == XType(xs[l + 1 := xs[l]][l + 2 := xs[l]])
  {
    FanOutOnX(l, [l + 1, l + 2], xs);
    assert seq(|xs|, j requires 0 <= j < |xs| => xs[j] != (j in [l + 1, l + 2] && xs[l]))
        == xs[l + 1 := xs[l]][l + 2 := xs[l]];
  }

  /** Three bits spread over the blocks: a on block 0, b on block 1, c on
      block 2. */
  function Blocks(a: bool, b: bool, c: bool): (w: seq<bool>)
    ensures |w| == 9 && w[0] == w[1] == w[2] == a && w[3] == w[4] == w[5] == b && w[6] == w[7] == w[8] == c
  {
    [a, a, a, b, b, b, c, c, c]
  }

  /** The bit-flip layer spreads X's on the leaders over their blocks. */
  lemma BitFlipLayerOnLeaderX(f0: seq<Gate>, f1: seq<Gate>, f2: seq<Gate>, x: seq<bool>)
    requires f0 == FanOut(0, [1, 2]) && f1 == FanOut(3, [4, 5]) && f2 == FanOut(6, [7, 8])
    requires |x| == 9 && !x[1] && !x[2] && !x[4] && !x[5] && !x[7] && !x[8]
    ensures Fits(f0 + f1 + f2, 9)
    ensures Conj(f0 + f1 + f2, XType(x)) == XType(x[1 := x[0]][2 := x[0]][4 := x[3]][5 := x[3]][7 := x[6]][8 := x[6]])
  {
    var x1 := x[1 := x[0]][2 := x[0]];
    var x2 := x1[4 := x[3]][5 := x[3]];
    BlockFanOutOnX(f0, 0, x);
    BlockFanOutOnX(f1, 3, x1);
    BlockFanOutOnX(f2, 6, x2);
    ConjAppend3(f0, f1, f2, XType(x));
  }

  /** The fan-out from 0 onto the other leaders gathers onto 0 the parity
      of the Z's on 3 and 6. */
  lemma LeaderFanOutOnZ(f: seq<Gate>, z: seq<bool>)
    requires f == FanOut(0, [3, 6]) && |z| == 9
    ensures Fits(f, 9)
    ensures Conj(f, ZType(z)) == ZType(z[0 := z[0] != (z[3] != z[6])])
  {
    FanOutOnZ(0, [3, 6], z);
    ParityPair(z, 3, 6);
  }

  /** The Hadamards on the leaders turn Z's there into X's. */
  lemma LeaderHadamardsOnZ(h: seq<Gate>, z: seq<bool>)
    requires h == HLayer([0, 3, 6])
    requires |z| == 9 && !z[1] && !z[2] && !z[4] && !z[5] && !z[7] && !z[8]
    ensures Fits(h, 9)
    ensures Conj(h, ZType(z)) == XType(z)
  {
    HLayerZToX([0, 3, 6], z);
  }

  /** The phase-flip layer turns Z's on the leaders into X's there, the Z
      on 0 picking up the parity of those on 3 and 6. */
  lemma PhaseLayerOnLeaderZ(f: seq<Gate>, h: seq<Gate>, z: seq<bool>)
    requires f == FanOut(0, [3, 6]) && h == HLayer([0, 3, 6])
    requires |z| == 9 && !z[1] && !z[2] && !z[4] && !z[5] && !z[7] && !z[8]
    ensures Fits(f + h, 9)
    ensures Conj(f + h, ZType(z)) == XType(z[0 := z[0] != (z[3] != z[6])])
  {
    LeaderFanOutOnZ(f, z);
    LeaderHadamardsOnZ(h, z[0 := z[0] != (z[3] != z[6])]);
    ConjAppend(f, h, ZType(z));
  }

  /** A product of Z's on the leaders 0, 3 and 6 leaves the encoder, written
      as its layers, as X on whole blocks: on block 0 when z0 + z3 + z6 is
      odd, on block 1 when z3 and on block 2 when z6. */
  lemma LeadersZToBlocksX(f: seq<Gate>, h: seq<Gate>, f0: seq<Gate>, f1: seq<Gate>, f2: seq<Gate>, z: seq<bool>)
    requires f == FanOut(0, [3, 6]) && h == HLayer([0, 3, 6])
    requires f0 == FanOut(0, [1, 2]) && f1 == FanOut(3, [4, 5]) && f2 == FanOut(6, [7, 8])
    requires |z| == 9 && !z[1] && !z[2] && !z[4] && !z[5] && !z[7] && !z[8]
    ensures Fits(f + h + (f0 + f1 + f2), 9)
    ensures Conj(f + h + (f0 + f1 + f2), ZType(z)) == XType(Blocks(z[0] != (z[3] != z[6]), z[3], z[6]))
  {
    PhaseLayerOnLeaderZ(f, h, z);
    var x := z[0 := z[0] != (z[3] != z[6])];
    BitFlipLayerOnLeaderX(f0, f1, f2, x);
    assert x[1 := x[0]][2 := x[0]][4 := x[3]][5 := x[3]][7 := x[6]][8 := x[6]] == Blocks(x[0], x[3], x[6]);
    ConjAppend(f + h, f0 + f1 + f2, ZType(z));
  }

  /** The encoder carries the stabilizers Z0, Z3 and Z6 of the input (Z3
      and Z6 on fresh |0>'s, Z0 when the input is |0>) to +XXX on block 0,
      +XXXXXX on blocks 0 and 1, and +XXXXXX on blocks 0 and 2.  So encoded
      |0> is fixed by +XXX on every block: each block is |000> + |111>. */
  lemma EncodesZeroAsPlusBlocks()
    ensures Fits(EncodingGates(), 9)
    ensures Conj(EncodingGates(), ZOn(9, 0)) == XType(Blocks(true, false, false))
    ensures Conj(EncodingGates(), ZOn(9, 3)) == XType(Blocks(true, true, false))
    ensures Conj(EncodingGates(), ZOn(9, 6)) == XType(Blocks(true, false, true))
  {
    var f, h := FanOut(0, [3, 6]), HLayer([0, 3, 6]);
    var f0, f1, f2 := FanOut(0, [1, 2]), FanOut(3, [4, 5]), FanOut(6, [7, 8]);
    EncoderLayers();
    LeadersZToBlocksX(f, h, f0, f1, f2, ZOn(9, 0).z);
    LeadersZToBlocksX(f, h, f0, f1, f2, ZOn(9, 3).z);
    LeadersZToBlocksX(f, h, f0, f1, f2, ZOn(9, 6).z);
    assert ZOn(9, 0) == ZType(ZOn(9, 0).z) && ZOn(9, 3) == ZType(ZOn(9, 3).z) && ZOn(9, 6) == ZType(ZOn(9, 6).z);
  }

  /** The phase-flip layer turns X on qubit 0 into Z on the three leaders. */
  lemma PhaseLayerOnLogicalX(f: seq<Gate>, h: seq<Gate>, x: seq<bool>, w: seq<bool>)
    requires f == FanOut(0, [3, 6]) && h == HLayer([0, 3, 6])
    requires x == seq(9, j => j == 0) && w == seq(9, j => j == 0 || j == 3 || j == 6)
    ensures Fits(f + h, 9)
    ensures Conj(f + h, XType(x)) == ZType(w)
  {
    FanOutOnX(0, [3, 6], x);
    assert seq(9, j requires 0 <= j < 9 => x[j] != (j in [3, 6] && x[0])) == w;
    HLayerXToZ([0, 3, 6], w);
    ConjAppend(f, h, XType(x));
  }

  /** The bit-flip layer leaves Z's on the leaders alone. */
  lemma BitFlipLayerKeepsLeaderZ(f0: seq<Gate>, f1: seq<Gate>, f2: seq<Gate>, w: seq<bool>)
    requires f0 == FanOut(0, [1, 2]) && f1 == FanOut(3, [4, 5]) && f2 == FanOut(6, [7, 8])
    requires |w| == 9 && !w[1] && !w[2] && !w[4] && !w[5] && !w[7] && !w[8]
    ensures Fits(f0 + f1 + f2, 9)
    ensures Conj(f0 + f1 + f2, ZType(w)) == ZType(w)
  {
    BlockFanOutOnZ(f0, 0, w);
    BlockFanOutOnZ(f1, 3, w);
    BlockFanOutOnZ(f2, 6, w);
    ConjAppend3(f0, f1, f2, ZType(w));
  }

  /** The logical X through the encoder, written as its layers. */
  lemma LayersOnLogicalX(f: seq<Gate>, h: seq<Gate>, f0: seq<Gate>, f1: seq<Gate>, f2: seq<Gate>, x: seq<bool>, w: seq<bool>)
    requires f == FanOut(0, [3, 6]) && h == HLayer([0, 3, 6])
    requires f0 == FanOut(0, [1, 2]) && f1 == FanOut(3, [4, 5]) && f2 == FanOut(6, [7, 8])
    requires x == seq(9, j => j == 0) && w == seq(9, j => j == 0 || j == 3 || j == 6)
    ensures Fits(f + h + (f0 + f1 + f2), 9)
    ensures Conj(f + h + (f0 + f1 + f2), XType(x)) == ZType(w)
  {
    PhaseLayerOnLogicalX(f, h, x, w);
    BitFlipLayerKeepsLeaderZ(f0, f1, f2, w);
    ConjAppend(f + h, f0 + f1 + f2, XType(x));
  }

  /** The logical X (X on the input qubit 0) becomes +Z0 Z3 Z6, which
      anticommutes with the XXX of every block: it turns encoded |0> into
      encoded |1> = (|000> - |111>)^3. */
  lemma LogicalXBecomesZOnLeaders()
    ensures Fits(EncodingGates(), 9)
    ensures Conj(EncodingGates(), XOn(9, 0)) == ZType(seq(9, j => j == 0 || j == 3 || j == 6))
  {
    EncoderLayers();
    var x := seq(9, j => j == 0);
    assert XOn(9, 0) == XType(x);
    LayersOnLogicalX(FanOut(0, [3, 6]), HLayer([0, 3, 6]), FanOut(0, [1, 2]), FanOut(3, [4, 5]), FanOut(6, [7, 8]),
                     x, seq(9, j => j == 0 || j == 3 || j == 6));
  }

  // ---------------------------------------------------------------------
  // Error-free syndrome

  /** Where the encoder takes a product of Z's that avoids the leaders: each
      leader picks up the parity of the Z's on the other two qubits of its
      block. */
  function EncodedZ(z: seq<bool>): (w: seq<bool>)
    requires |z| == 15
    ensures |w| == 15
    ensures forall j | 0 <= j < 15 && j != 0 && j != 3 && j != 6 :: w[j] == z[j]
  {
    z[0 := z[0] != (z[1] != z[2])][3 := z[3] != (z[4] != z[5])][6 := z[6] != (z[7] != z[8])]
  }

  /** Where one block's syndrome circuit, on data m[0..3] and ancillas m[3]
      and m[4], takes a product of Z's: the Z's on the ancillas flow back to
      the data qubits they are joined to. */
  function BlockSyndromeZ(z: seq<bool>, m: seq<nat>): (w: seq<bool>)
    requires |m| == 5 && Injective(m) && MapsInto(m, |z|)
    ensures |w| == |z| && w[m[3]] == z[m[3]] && w[m[4]] == z[m[4]]
  {
    z[m[0] := z[m[0]] != z[m[3]]][m[1] := z[m[1]] != z[m[4]]][m[2] := z[m[2]] != (z[m[3]] != z[m[4]])]
  }

  lemma SingleCXOnZ(c: nat, t: nat, z: seq<bool>)
    requires c < |z| && t < |z| && c != t
    ensures Fits([CX(c, t)], |z|)
    ensures Conj([CX(c, t)], ZType(z)) == ZType(z[c := z[c] != z[t]])
  {
    assert FanOut(c, [t]) == [CX(c, t)];
    FanOutOnZ(c, [t], z);
    assert [t][1..] == [];
  }

  /** One block's syndrome circuit on a product of Z's. */
  lemma BlockSyndromeOnZ(g: seq<Gate>, m: seq<nat>, z: seq<bool>)
    requires |m| == 5 && Injective(m) && MapsInto(m, |z|)
    requires g == Remap(BitFlip.SyndromeExtractionGates(), m)
    ensures Fits(g, |z|)
    ensures Conj(g, ZType(z)) == ZType(BlockSyndromeZ(z, m))
  {
    BitFlip.SyndromeHalvesAt(m);
    var z1 := z[m[0] := z[m[0]] != z[m[3]]];
    SingleCXOnZ(m[0], m[3], z);
    SingleCXOnZ(m[1], m[4], z1);
    ConjAppend([CX(m[0], m[3])], [CX(m[1], m[4])], ZType(z));
    var z2 := z1[m[1] := z1[m[1]] != z1[m[4]]];
    assert FanOut(m[2], [m[3], m[4]]) == [CX(m[2], m[3]), CX(m[2], m[4])];
    FanOutOnZ(m[2], [m[3], m[4]], z2);
    ParityPair(z2, m[3], m[4]);
    ConjAppend([CX(m[0], m[3]), CX(m[1], m[4])], [CX(m[2], m[3]), CX(m[2], m[4])], ZType(z));
  }

  /** The whole bit-flip syndrome circuit on a product of Z's. */
  lemma SyndromeOnZ(z: seq<bool>)
    requires |z| == 15
    ensures Fits(BitFlipSyndromeExtractionGates(), 15)
    ensures Conj(BitFlipSyndromeExtractionGates(), ZType(z))
         == ZType(BlockSyndromeZ(BlockSyndromeZ(BlockSyndromeZ(z, SyndromeBlock(0)), SyndromeBlock(1)), SyndromeBlock(2)))
  {
    var z1 := BlockSyndromeZ(z, SyndromeBlock(0));
    var z2 := BlockSyndromeZ(z1, SyndromeBlock(1));
    BlockSyndromeOnZ(BlockSyndromeGates(0), SyndromeBlock(0), z);
    BlockSyndromeOnZ(BlockSyndromeGates(1), SyndromeBlock(1), z1);
    BlockSyndromeOnZ(BlockSyndromeGates(2), SyndromeBlock(2), z2);
    ConjAppend3(BlockSyndromeGates(0), BlockSyndromeGates(1), BlockSyndromeGates(2), ZType(z));
  }

  /** The phase-flip layer leaves alone a product of Z's that avoids the
      leaders. */
  lemma PhaseLayerOnZ(f: seq<Gate>, h: seq<Gate>, z: seq<bool>)
    requires f == FanOut(0, [3, 6]) && h == HLayer([0, 3, 6])
    requires |z| == 15 && !z[0] && !z[3] && !z[6]
    ensures Fits(f + h, 15)
    ensures Conj(f + h, ZType(z)) == ZType(z)
  {
    FanOutOnZ(0, [3, 6], z);
    ParityPair(z, 3, 6);
    assert z[0 := z[0] != Parity(z, [3, 6])] == z;
    HLayerOnZ([0, 3, 6], z);
    ConjAppend(f, h, ZType(z));
  }

  /** A block's fan-out gathers the parity of the Z's on l + 1 and l + 2
      onto the leader l. */
  lemma LeaderGathersParity(f: seq<Gate>, l: nat, z: seq<bool>)
    requires l + 2 < |z| && f == FanOut(l, [l + 1, l + 2])
    ensures Fits(f, |z|)
    ensures Conj(f, ZType(z)) == ZType(z[l := z[l] != (z[l + 1] != z[l + 2])])
  {
    FanOutOnZ(l, [l + 1, l + 2], z);
    ParityPair(z, l + 1, l + 2);
  }

  /** The bit-flip layer gathers each block's parity onto its leader. */
  lemma BitFlipLayerOnZ15(f0: seq<Gate>, f1: seq<Gate>, f2: seq<Gate>, z: seq<bool>)
    requires f0 == FanOut(0, [1, 2]) && f1 == FanOut(3, [4, 5]) && f2 == FanOut(6, [7, 8])
    requires |z| == 15
    ensures Fits(f0 + f1 + f2, 15)
    ensures Conj(f0 + f1 + f2, ZType(z)) == ZType(EncodedZ(z))
  {
    var z1 := z[0 := z[0] != (z[1] != z[2])];
    var z2 := z1[3 := z1[3] != (z1[4] != z1[5])];
    LeaderGathersParity(f0, 0, z);
    LeaderGathersParity(f1, 3, z1);
    LeaderGathersParity(f2, 6, z2);
    ConjAppend3(f0, f1, f2, ZType(z));
  }

  /** Encoding followed by the syndrome circuit, on a product of Z's that
      avoids the leaders. */
  lemma EncodeThenSyndromeOnZ(z: seq<bool>)
    requires |z| == 15 && !z[0] && !z[3] && !z[6]
    ensures Fits(EncodingGates() + BitFlipSyndromeExtractionGates(), 15)
    ensures Conj(EncodingGates() + BitFlipSyndromeExtractionGates(), ZType(z))
         == ZType(BlockSyndromeZ(BlockSyndromeZ(BlockSyndromeZ(EncodedZ(z), SyndromeBlock(0)), SyndromeBlock(1)), SyndromeBlock(2)))
  {
    var f, h := FanOut(0, [3, 6]), HLayer([0, 3, 6]);
    var f0, f1, f2 := FanOut(0, [1, 2]), FanOut(3, [4, 5]), FanOut(6, [7, 8]);
    EncoderLayers();
    PhaseLayerOnZ(f, h, z);
    BitFlipLayerOnZ15(f0, f1, f2, z);
    ConjAppend(f + h, f0 + f1 + f2, ZType(z));
    SyndromeOnZ(EncodedZ(z));
    ConjAppend(EncodingGates(), BitFlipSyndromeExtractionGates(), ZType(z));
  }

  /** A block whose five qubits carry no Z is left alone by its syndrome
      circuit. */
  lemma QuietBlockSyndromeZ(z: seq<bool>, m: seq<nat>)
    requires |m| == 5 && Injective(m) && MapsInto(m, |z|)
    requires forall k | 0 <= k < 5 :: !z[m[k]]
    ensures BlockSyndromeZ(z, m) == z
  {
    var w := BlockSyndromeZ(z, m);
    forall j | 0 <= j < |z| ensures w[j] == z[j] {
      if j == m[0] || j == m[1] || j == m[2] {
        assert !z[m[0]] && !z[m[1]] && !z[m[2]] && !z[m[3]] && !z[m[4]];
      }
    }
  }

  /** The product of Z's that, on the block m, encoding turns into Z on the
      ancilla k (k = 3 or 4) after the syndrome circuit: Z on m[2] and m[3]
      for k = 3, on m[1], m[2] and m[4] for k = 4. */
  function AncillaWitness(m: seq<nat>, k: nat): (z: seq<bool>)
    requires |m| == 5
    ensures |z| == 15
  {
    seq(15, j => if k == 3 then j == m[2] || j == m[3] else j == m[1] || j == m[2] || j == m[4])
  }

  /** What the encoder makes of that witness: the leader m[0] joins in for
      k = 3, where m[1] and m[2] differ. */
  function EncodedWitness(m: seq<nat>, k: nat): (z: seq<bool>)
    requires |m| == 5
    ensures |z| == 15
  {
    seq(15, j => if k == 3 then j == m[0] || j == m[2] || j == m[3] else j == m[1] || j == m[2] || j == m[4])
  }

  lemma EncodesWitness(b: nat, k: nat)
    requires b < 3 && (k == 3 || k == 4)
    ensures EncodedZ(AncillaWitness(SyndromeBlock(b), k)) == EncodedWitness(SyndromeBlock(b), k)
  {
    var m := SyndromeBlock(b);
    var z, w := AncillaWitness(m, k), EncodedWitness(m, k);
    var e := EncodedZ(z);
    forall j | 0 <= j < 15 ensures e[j] == w[j] {
      if j == 0 || j == 3 || j == 6 {
        assert e[j] == (z[j] != (z[j + 1] != z[j + 2]));
      }
    }
  }

  /** The active block's syndrome circuit leaves only the Z on ancilla m[k]. */
  lemma ActiveBlockSyndromeZ(m: seq<nat>, k: nat)
    requires |m| == 5 && Injective(m) && MapsInto(m, 15) && (k == 3 || k == 4)
    ensures BlockSyndromeZ(EncodedWitness(m, k), m) == ZOn(15, m[k]).z
  {
    var z := EncodedWitness(m, k);
    var w := BlockSyndromeZ(z, m);
    assert z[m[3]] == (k == 3) && z[m[4]] == (k == 4);
    forall j | 0 <= j < 15 ensures w[j] == (j == m[k]) {
    }
  }

  /** No Z on any of block c's five qubits. */
  predicate QuietOn(z: seq<bool>, c: nat)
    requires |z| == 15 && c < 3
  {
    forall i | 0 <= i < 5 :: !z[SyndromeBlock(c)[i]]
  }

  /** A block other than b carries none of b's witness. */
  lemma WitnessAvoids(b: nat, c: nat, k: nat)
    requires b < 3 && c < 3 && b != c && (k == 3 || k == 4)
    ensures QuietOn(EncodedWitness(SyndromeBlock(b), k), c)
    ensures QuietOn(ZOn(15, SyndromeBlock(b)[k]).z, c)
  {
  }

  /** When only block b carries Z's, before and after its own syndrome
      circuit, the other two circuits change nothing. */
  lemma OneActiveBlock(z: seq<bool>, r: seq<bool>, b: nat)
    requires |z| == 15 && |r| == 15 && b < 3
    requires BlockSyndromeZ(z, SyndromeBlock(b)) == r
    requires forall c | c < 3 && c != b :: QuietOn(z, c) && QuietOn(r, c)
    ensures BlockSyndromeZ(BlockSyndromeZ(BlockSyndromeZ(z, SyndromeBlock(0)), SyndromeBlock(1)), SyndromeBlock(2)) == r
  {
    assert QuietOn(z, if b == 0 then 1 else 0) && QuietOn(r, if b == 2 then 1 else 2);
    if b == 0 {
      QuietBlockSyndromeZ(r, SyndromeBlock(1));
      QuietBlockSyndromeZ(r, SyndromeBlock(2));
    } else if b == 1 {
      QuietBlockSyndromeZ(z, SyndromeBlock(0));
      QuietBlockSyndromeZ(r, SyndromeBlock(2));
    } else {
      assert QuietOn(z, 1);
      QuietBlockSyndromeZ(z, SyndromeBlock(0));
      QuietBlockSyndromeZ(z, SyndromeBlock(1));
    }
  }

  /** The three syndrome circuits on the encoded witness of block b. */
  lemma SyndromeOfWitness(b: nat, k: nat)
    requires b < 3 && (k == 3 || k == 4)
    ensures var e := EncodedWitness(SyndromeBlock(b), k);
            BlockSyndromeZ(BlockSyndromeZ(BlockSyndromeZ(e, SyndromeBlock(0)), SyndromeBlock(1)), SyndromeBlock(2))
            == ZOn(15, SyndromeBlock(b)[k]).z
  {
    var e, r := EncodedWitness(SyndromeBlock(b), k), ZOn(15, SyndromeBlock(b)[k]).z;
    ActiveBlockSyndromeZ(SyndromeBlock(b), k);
    forall c | c < 3 && c != b ensures QuietOn(e, c) && QuietOn(r, c) {
      WitnessAvoids(b, c, k);
    }
    OneActiveBlock(e, r, b);
  }

  /** The witness of block b is a +-signed product of Z's on qubits that
      start in |0>. */
  lemma WitnessFixesFreshZeros(b: nat, k: nat)
    requires b < 3 && (k == 3 || k == 4)
    ensures var z := AncillaWitness(SyndromeBlock(b), k);
            !z[0] && !z[3] && !z[6] && FixesFreshZeros(ZType(z), {1, 2, 4, 5, 7, 8, 9, 10, 11, 12, 13, 14})
  {
  }

  /** Ancilla k of block b reads 0 without an error. */
  lemma BlockAncillaReadsZero(b: nat, k: nat)
    requires b < 3 && (k == 3 || k == 4)
    ensures Fits(EncodingGates() + BitFlipSyndromeExtractionGates(), 15)
    ensures exists q :: FixesFreshZeros(q, {1, 2, 4, 5, 7, 8, 9, 10, 11, 12, 13, 14}) && |q.x| == 15
                        && Conj(EncodingGates() + BitFlipSyndromeExtractionGates(), q) == ZOn(15, SyndromeBlock(b)[k])
  {
    var z := AncillaWitness(SyndromeBlock(b), k);
    WitnessFixesFreshZeros(b, k);
    EncodesWitness(b, k);
    SyndromeOfWitness(b, k);
    EncodeThenSyndromeOnZ(z);
    assert Conj(EncodingGates() + BitFlipSyndromeExtractionGates(), ZType(z)) == ZOn(15, SyndromeBlock(b)[k]);
  }

  /** Without an error every bit-flip ancilla reads 0.  For ancilla a of
      block b, encoding and syndrome extraction carry a +-signed product of
      Z's on qubits that start in |0> to Z on a: for a = 9 + 2b it sits on
      3b + 2 and a, for a = 10 + 2b on 3b + 1, 3b + 2 and a. */
  lemma BitFlipAncillasReadZeroWithoutError(a: nat)
    requires 9 <= a < 15
    ensures Fits(EncodingGates() + BitFlipSyndromeExtractionGates(), 15)
    ensures exists q :: FixesFreshZeros(q, {1, 2, 4, 5, 7, 8, 9, 10, 11, 12, 13, 14}) && |q.x| == 15
                        && Conj(EncodingGates() + BitFlipSyndromeExtractionGates(), q) == ZOn(15, a)
  {
    var b, k := (a - 9) / 2, if a % 2 == 1 then 3 else 4;
    assert SyndromeBlock(b)[k] == a;
    BlockAncillaReadsZero(b, k);
  }
}
