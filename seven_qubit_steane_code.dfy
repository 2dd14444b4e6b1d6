/** The seven-qubit Steane code.  The encoder puts qubits 4, 5 and 6 into
    |+> and fans each of them, and qubit 0, out onto the others, so the
    logical |0> and |1> become equal superpositions of eight seven-bit words
    each.  Syndrome extraction uses three bit-flip ancillas (qubits 7 to 9)
    that collect the parities of the data qubits {0, 2, 4, 6}, {1, 2, 5, 6}
    and {3, 4, 5, 6}, and three phase-flip ancillas (qubits 10 to 12) that
    do the same for Z errors between two H layers.  Data qubit i lies in
    check k exactly when bit k of i + 1 is set, so a single X (or Z) on
    qubit i leaves the value i + 1 in the bit-flip (or phase-flip) register,
    and the correction applies X (or Z) to qubit value - 1. */
module SevenQubitSteaneCode {
  import opened Gates
  import opened PauliFrame
  import opened BasisStates
  import opened ErrorFrames
  import opened Circuits

  /** The encoder's fourteen gates in the order the source appends them. */
  function EncodingGates(): seq<Gate>
  {
    [H(4), H(5), H(6),
     CX(0, 1), CX(0, 2),
     CX(6, 3), CX(6, 1), CX(6, 0),
     CX(5, 3), CX(5, 2), CX(5, 0),
     CX(4, 3), CX(4, 2), CX(4, 1)]
  }

  /** inverse() of the encoder. */
  function DecodingGates(): seq<Gate>
  {
    Reverse(EncodingGates())
  }

  /** The data qubits that ancilla 7 + k (bit flips) and ancilla 10 + k
      (phase flips) check. */
  function Checks(k: nat): (cs: seq<nat>)
    requires k < 3
    ensures |cs| == 4 && Injective(cs) && MapsInto(cs, 7)
  {
    if k == 0 then [0, 2, 4, 6] else if k == 1 then [1, 2, 5, 6] else [3, 4, 5, 6]
  }

  /** The phase-flip ancillas 10, 11 and 12. */
  function PhaseAncillas(): seq<nat>
  {
    [10, 11, 12]
  }

  /** The first n bit-flip loops: ancilla 7 + k collects Checks(k). */
  function BitFlipLoops(n: nat): seq<Gate>
    requires n <= 3
  {
    if n == 0 then [] else BitFlipLoops(n - 1) + FanIn(Checks(n - 1), 6 + n)
  }

  /** The first n phase-flip loops: ancilla 10 + k spreads onto Checks(k). */
  function PhaseFlipLoops(n: nat): seq<Gate>
    requires n <= 3
  {
    if n == 0 then [] else PhaseFlipLoops(n - 1) + FanOut(9 + n, Checks(n - 1))
  }

  /** The syndrome circuit's gates in the order its loops append them: each
      bit-flip ancilla collects its checked data qubits, then the phase-flip
      ancillas are put into |+>, each spreads onto its checked data qubits,
      and they are turned back. */
  function SyndromeExtractionGates(): seq<Gate>
  {
    BitFlipLoops(3) + HLayer(PhaseAncillas()) + PhaseFlipLoops(3) + HLayer(PhaseAncillas())
  }

  method GetEncodingCircuit() returns (out: QuantumCircuit)
    ensures fresh(out) && out.Valid()
    ensures out.width == 7 && out.cregs == [] && out.ops == Lift(EncodingGates())
  {
    out := new QuantumCircuit(7, []);
    out.H(4);
    out.H(5);
    out.H(6);
    out.Cx(0, 1);
    out.Cx(0, 2);
    out.Cx(6, 3);
    out.Cx(6, 1);
    out.Cx(6, 0);
    out.Cx(5, 3);
    out.Cx(5, 2);
    out.Cx(5, 0);
    out.Cx(4, 3);
    out.Cx(4, 2);
    out.Cx(4, 1);
    EncodingOps(out.ops);
  }

  /** The operations the builder appends, one at a time, are the lifted gate list. */
  lemma EncodingOps(ops: seq<Op>)
    requires ops == [] + [Apply(H(4))] + [Apply(H(5))] + [Apply(H(6))]
                  + [Apply(CX(0, 1))] + [Apply(CX(0, 2))]
                  + [Apply(CX(6, 3))] + [Apply(CX(6, 1))] + [Apply(CX(6, 0))]
                  + [Apply(CX(5, 3))] + [Apply(CX(5, 2))] + [Apply(CX(5, 0))]
                  + [Apply(CX(4, 3))] + [Apply(CX(4, 2))] + [Apply(CX(4, 1))]
    ensures ops == Lift(EncodingGates())
  {
  }

  method GetDecodingCircuit() returns (out: QuantumCircuit)
    ensures fresh(out) && out.Valid()
    ensures out.width == 7 && out.cregs == [] && out.ops == Lift(DecodingGates())
  {
    var enc := GetEncodingCircuit();
    ReverseOfLifted(EncodingGates(), enc.ops);
    out := enc.Inverse();
  }

  method GetSyndromeExtractionCircuit() returns (out: QuantumCircuit)
    ensures fresh(out) && out.Valid()
    ensures out.width == 13 && out.cregs == [] && out.ops == Lift(SyndromeExtractionGates())
  {
    out := new QuantumCircuit(7 + 3 + 3, []);
    AppendSyndromeLoops(out, Checks(0), Checks(1), Checks(2));
    SyndromeLoops();
  }

  /** The body of the syndrome builder for the check sets c0, c1 and c2 of
      data qubits 0 to 6: three loops of CXs onto the bit-flip ancillas, an H
      loop on the phase-flip ancillas, three loops of CXs from them, and the
      H loop again. */
  method AppendSyndromeLoops(out: QuantumCircuit, c0: seq<nat>, c1: seq<nat>, c2: seq<nat>)
    requires out.Valid() && out.width == 13 && out.ops == []
    requires MapsInto(c0, 7) && MapsInto(c1, 7) && MapsInto(c2, 7)
    modifies out
    ensures out.Valid()
    ensures out.ops == Lift([] + FanIn(c0, 7) + FanIn(c1, 8) + FanIn(c2, 9) + HLayer(PhaseAncillas())
                            + FanOut(10, c0) + FanOut(11, c1) + FanOut(12, c2) + HLayer(PhaseAncillas()))
  {
    var a := PhaseAncillas();
    ghost var g: seq<Gate> := [];
    // bit flips
    CxOntoAncilla(out, c0, 7, g);
    g := g + FanIn(c0, 7);
    CxOntoAncilla(out, c1, 8, g);
    g := g + FanIn(c1, 8);
    CxOntoAncilla(out, c2, 9, g);
    g := g + FanIn(c2, 9);
    // phase flips
    HOnEach(out, a, g);
    g := g + HLayer(a);
    CxFromAncilla(out, 10, c0, g);
    g := g + FanOut(10, c0);
    CxFromAncilla(out, 11, c1, g);
    g := g + FanOut(11, c1);
    CxFromAncilla(out, 12, c2, g);
    g := g + FanOut(12, c2);
    HOnEach(out, a, g);
  }

  lemma SyndromeLoops()
    ensures SyndromeExtractionGates()
         == [] + FanIn(Checks(0), 7) + FanIn(Checks(1), 8) + FanIn(Checks(2), 9) + HLayer(PhaseAncillas())
            + FanOut(10, Checks(0)) + FanOut(11, Checks(1)) + FanOut(12, Checks(2)) + HLayer(PhaseAncillas())
  {
    BitFlipLoopsUnrolled();
    PhaseFlipLoopsUnrolled();
    Regroup([] + FanIn(Checks(0), 7), FanIn(Checks(1), 8), FanIn(Checks(2), 9), HLayer(PhaseAncillas()),
            FanOut(10, Checks(0)), FanOut(11, Checks(1)), FanOut(12, Checks(2)));
  }

  lemma BitFlipLoopsUnrolled()
    ensures BitFlipLoops(3) == FanIn(Checks(0), 7) + FanIn(Checks(1), 8) + FanIn(Checks(2), 9)
  {
  }

  lemma PhaseFlipLoopsUnrolled()
    ensures PhaseFlipLoops(3) == FanOut(10, Checks(0)) + FanOut(11, Checks(1)) + FanOut(12, Checks(2))
  {
  }

  lemma Regroup<T>(a: seq<T>, b: seq<T>, c: seq<T>, h: seq<T>, e: seq<T>, f: seq<T>, g: seq<T>)
    ensures (a + b + c) + h + (e + f + g) + h == a + b + c + h + e + f + g + h
  {
  }

  /** One loop of the syndrome circuit: a CX from every qubit of cs onto
      the ancilla t. */
  method CxOntoAncilla(out: QuantumCircuit, cs: seq<nat>, t: nat, ghost done: seq<Gate>)
    requires out.Valid() && out.ops == Lift(done) && MapsInto(cs, out.width) && t < out.width && t !in cs
    modifies out
    ensures out.Valid()
    ensures out.ops == Lift(done + FanIn(cs, t))
  {
    for i := 0 to |cs|
      invariant out.Valid()
      invariant out.ops == Lift(done + FanIn(cs[..i], t))
    {
      out.Cx(cs[i], t);
      assert done + FanIn(cs[..i + 1], t) == (done + FanIn(cs[..i], t)) + [CX(cs[i], t)];
      LiftAppend(done + FanIn(cs[..i], t), [CX(cs[i], t)]);
    }
    assert cs[..|cs|] == cs;
  }

  /** One loop of the syndrome circuit: a CX from the ancilla c onto every
      qubit of ts. */
  method CxFromAncilla(out: QuantumCircuit, c: nat, ts: seq<nat>, ghost done: seq<Gate>)
    requires out.Valid() && out.ops == Lift(done) && MapsInto(ts, out.width) && c < out.width && c !in ts
    modifies out
    ensures out.Valid()
    ensures out.ops == Lift(done + FanOut(c, ts))
  {
    for i := 0 to |ts|
      invariant out.Valid()
      invariant out.ops == Lift(done + FanOut(c, ts[..i]))
    {
      out.Cx(c, ts[i]);
      assert done + FanOut(c, ts[..i + 1]) == (done + FanOut(c, ts[..i])) + [CX(c, ts[i])];
      LiftAppend(done + FanOut(c, ts[..i]), [CX(c, ts[i])]);
    }
    assert ts[..|ts|] == ts;
  }

  /** One loop of the syndrome circuit: an H on every qubit of qs. */
  method HOnEach(out: QuantumCircuit, qs: seq<nat>, ghost done: seq<Gate>)
    requires out.Valid() && out.ops == Lift(done) && MapsInto(qs, out.width)
    modifies out
    ensures out.Valid()
    ensures out.ops == Lift(done + HLayer(qs))
  {
    for i := 0 to |qs|
      invariant out.Valid()
      invariant out.ops == Lift(done + HLayer(qs[..i]))
    {
      out.H(qs[i]);
      assert done + HLayer(qs[..i + 1]) == (done + HLayer(qs[..i])) + [H(qs[i])];
      LiftAppend(done + HLayer(qs[..i]), [H(qs[i])]);
    }
    assert qs[..|qs|] == qs;
  }

  // ---------------------------------------------------------------------
  // Encoding

  /** The encoder is H on qubits 4, 5 and 6, which start in |0>, followed by
      four fan-outs: from 0 onto 1 and 2, then from 6, 5 and 4 each onto
      three of the qubits 0 to 3.  No gate after the H layer is an H. */
  lemma EncoderBlocks()
    ensures EncodingGates()
         == HLayer([4, 5, 6]) + (FanOut(0, [1, 2]) + FanOut(6, [3, 1, 0]) + FanOut(5, [3, 2, 0]) + FanOut(4, [3, 2, 1]))
  {
  }

  /** The encoder is exactly fourteen gates: H on the fresh qubits 4, 5 and
      6 first, then eleven CXs. */
  lemma EncoderShape()
    ensures |EncodingGates()| == 14 && Fits(EncodingGates(), 7)
    ensures EncodingGates()[..3] == HLayer([4, 5, 6])
    ensures forall i | 3 <= i < 14 :: EncodingGates()[i].CX?
  {
  }

  /** The CX network's image of the basis state s: qubits 4, 5 and 6 keep
      their values and each of qubits 0 to 3 gains the parity of the
      controls that target it (qubit 1 and 2 see qubit 0 before qubits 5
      and 6 change it). */
  function NetworkImage(s: seq<bool>): (r: seq<bool>)
    requires |s| == 7
    ensures |r| == 7 && r[4..] == s[4..]
  {
    [s[0] != (s[6] != s[5]),
     s[1] != (s[0] != (s[6] != s[4])),
     s[2] != (s[0] != (s[5] != s[4])),
     s[3] != (s[6] != (s[5] != s[4])),
     s[4], s[5], s[6]]
  }

  /** The eleven CXs of the encoder map every basis state s to
      NetworkImage(s). */
  lemma CXNetworkOnBasis(s: seq<bool>)
    requires |s| == 7
    ensures Fits(EncodingGates()[3..], 7) && Classical(EncodingGates()[3..])
    ensures RunBits(EncodingGates()[3..], s) == NetworkImage(s)
  {
    EncoderBlocks();
    FanOutsOnBasis(FanOut(0, [1, 2]), FanOut(6, [3, 1, 0]), FanOut(5, [3, 2, 0]), FanOut(4, [3, 2, 1]), s);
  }

  lemma FanOutsOnBasis(f0: seq<Gate>, f6: seq<Gate>, f5: seq<Gate>, f4: seq<Gate>, s: seq<bool>)
    requires f0 == FanOut(0, [1, 2]) && f6 == FanOut(6, [3, 1, 0])
    requires f5 == FanOut(5, [3, 2, 0]) && f4 == FanOut(4, [3, 2, 1]) && |s| == 7
    ensures Fits(f0 + f6 + f5 + f4, 7) && Classical(f0 + f6 + f5 + f4)
    ensures RunBits(f0 + f6 + f5 + f4, s) == NetworkImage(s)
  {
    var s1 := FanOut2Step(f0, 0, 1, 2, s);
    var s2 := FanOut3Step(f6, 6, 3, 1, 0, s1);
    var s3 := FanOut3Step(f5, 5, 3, 2, 0, s2);
    var s4 := FanOut3Step(f4, 4, 3, 2, 1, s3);
    RunBitsAppend3(f0, f6, f5, s);
    RunBitsAppend(f0 + f6 + f5, f4, s);
    NetworkUpdates(s, s1, s2, s3, s4);
  }

  /** The four fan-outs' updates compose to NetworkImage. */
  lemma NetworkUpdates(s: seq<bool>, s1: seq<bool>, s2: seq<bool>, s3: seq<bool>, s4: seq<bool>)
    requires |s| == 7 && |s1| == 7 && |s2| == 7 && |s3| == 7 && |s4| == 7
    requires forall j | 0 <= j < 7 :: s1[j] == (if j == 1 || j == 2 then s[j] != s[0] else s[j])
    requires forall j | 0 <= j < 7 :: s2[j] == (if j == 3 || j == 1 || j == 0 then s1[j] != s1[6] else s1[j])
    requires forall j | 0 <= j < 7 :: s3[j] == (if j == 3 || j == 2 || j == 0 then s2[j] != s2[5] else s2[j])
    requires forall j | 0 <= j < 7 :: s4[j] == (if j == 3 || j == 2 || j == 1 then s3[j] != s3[4] else s3[j])
    ensures s4 == NetworkImage(s)
  {
  }

  /** A fan-out f from c onto a and b, on a seven-bit basis state. */
  lemma FanOut2Step(f: seq<Gate>, c: nat, a: nat, b: nat, s: seq<bool>) returns (r: seq<bool>)
    requires f == FanOut(c, [a, b]) && |s| == 7 && c < 7 && a < 7 && b < 7 && c != a && c != b && a != b
    ensures Fits(f, 7) && Classical(f) && r == RunBits(f, s)
    ensures |r| == 7 && forall j | 0 <= j < 7 :: r[j] == (if j == a || j == b then s[j] != s[c] else s[j])
  {
    FanOutBits(c, [a, b], s);
    r := RunBits(f, s);
    assert forall j | 0 <= j < 7 :: j in [a, b] <==> j == a || j == b;
  }

  /** A fan-out f from c onto a, b and d, on a seven-bit basis state. */
  lemma FanOut3Step(f: seq<Gate>, c: nat, a: nat, b: nat, d: nat, s: seq<bool>) returns (r: seq<bool>)
    requires f == FanOut(c, [a, b, d]) && |s| == 7 && c < 7 && a < 7 && b < 7 && d < 7
    requires c != a && c != b && c != d && a != b && a != d && b != d
    ensures Fits(f, 7) && Classical(f) && r == RunBits(f, s)
    ensures |r| == 7 && forall j | 0 <= j < 7 :: r[j] == (if j == a || j == b || j == d then s[j] != s[c] else s[j])
  {
    FanOutBits(c, [a, b, d], s);
    r := RunBits(f, s);
    assert forall j | 0 <= j < 7 :: j in [a, b, d] <==> j == a || j == b || j == d;
  }


  /** The basis word the encoder makes of |b> when the H layer has put
      x4, x5 and x6 on qubits 4, 5 and 6. */
  function Codeword(b: bool, x4: bool, x5: bool, x6: bool): (w: seq<bool>)
    ensures |w| == 7
  {
    NetworkImage([b, false, false, false, x4, x5, x6])
  }

  /** Each H of the first layer sends its fresh |0> to the equal
      superposition of 0 and 1, and the CX network permutes basis states, so
      encoded |b> is the equal superposition of the eight words
      Codeword(b, x4, x5, x6). */
  lemma EncodesBasis(b: bool, x4: bool, x5: bool, x6: bool)
    ensures EncodingGates()[..3] == HLayer([4, 5, 6])
    ensures Fits(EncodingGates()[3..], 7) && Classical(EncodingGates()[3..])
    ensures RunBits(EncodingGates()[3..], [b, false, false, false, x4, x5, x6]) == Codeword(b, x4, x5, x6)
  {
    EncoderShape();
    CXNetworkOnBasis([b, false, false, false, x4, x5, x6]);
  }

  /** A basis word written as the encoder's docstring writes it, qubit 0
      leftmost. */
  function Word(t: string): (w: seq<bool>)
    ensures |w| == |t| && forall i | 0 <= i < |t| :: w[i] == (t[i] == '1')
  {
    seq(|t|, i requires 0 <= i < |t| => t[i] == '1')
  }

  /** The eight words the encoder's docstring lists for |0> and for |1>. */
  function DocstringWords(b: bool): (ws: seq<seq<bool>>)
  {
    if !b then
      [Word("0000000"), Word("1010101"), Word("0110011"), Word("1100110"),
       Word("0001111"), Word("1011010"), Word("0111100"), Word("1101001")]
    else
      [Word("1111111"), Word("0101010"), Word("1001100"), Word("0011001"),
       Word("1110000"), Word("0100101"), Word("1000011"), Word("0010110")]
  }

  /** Every word the docstring lists for |b> is the codeword of its own
      qubits 4, 5 and 6 ... */
  lemma DocstringWordsAreCodewords(b: bool)
    ensures |DocstringWords(b)| == 8
    ensures forall k | 0 <= k < 8 ::
              |DocstringWords(b)[k]| == 7
              && DocstringWords(b)[k] == Codeword(b, DocstringWords(b)[k][4], DocstringWords(b)[k][5], DocstringWords(b)[k][6])
  {
  }

  /** ... and every codeword of |b> is listed: the support of encoded |b>
      is exactly the docstring's list. */
  lemma CodewordsAreListed(b: bool)
    ensures forall x4: bool, x5: bool, x6: bool :: Codeword(b, x4, x5, x6) in DocstringWords(b)
  {
    var ws := DocstringWords(b);
    DocstringWordsAreCodewords(b);
    forall x4: bool, x5: bool, x6: bool
      ensures Codeword(b, x4, x5, x6) in ws
    {
      // |1>'s list is |0>'s with every bit flipped, in the same order.
      var y4, y5, y6 := x4 != b, x5 != b, x6 != b;
      var k := if !y4 && !y5 && !y6 then 0 else if y4 && !y5 && y6 then 1
               else if !y4 && y5 && y6 then 2 else if y4 && y5 && !y6 then 3
               else if y4 && y5 && y6 then 4 else if !y4 && y5 && !y6 then 5
               else if y4 && !y5 && !y6 then 6 else 7;
      assert ws[k][4] == x4 && ws[k][5] == x5 && ws[k][6] == x6;
    }
  }

  // ---------------------------------------------------------------------
  // Decoding

  /** Decoding after encoding is the identity on every Pauli, sign
      included ... */
  lemma DecodeUndoesEncode(p: Pauli)
    requires Sized(p, 7)
    ensures Fits(EncodingGates(), 7) && Fits(DecodingGates(), 7)
    ensures Conj(DecodingGates(), Conj(EncodingGates(), p)) == p
  {
    EncoderShape();
    ReverseUndoes(EncodingGates(), p);
  }

  /** ... and so is encoding after decoding. */
  lemma EncodeUndoesDecode(p: Pauli)
    requires Sized(p, 7)
    ensures Fits(EncodingGates(), 7) && Fits(DecodingGates(), 7)
    ensures Conj(EncodingGates(), Conj(DecodingGates(), p)) == p
  {
    EncoderShape();
    ReverseFits(EncodingGates(), 7);
    ReverseUndoes(DecodingGates(), p);
    ReverseReverse(EncodingGates());
  }

  // ---------------------------------------------------------------------
  // Syndrome extraction

  /** The parities of the data word d over the three checks: bit k is what
      ancilla 7 + k (bit flips) or 10 + k (phase flips) records. */
  function CheckBits(d: seq<bool>): (r: seq<bool>)
    requires |d| >= 7
    ensures |r| == 3
  {
    [Parity(d, Checks(0)), Parity(d, Checks(1)), Parity(d, Checks(2))]
  }

  /** The error frame the syndrome circuit leaves of an error e on the data
      qubits: the data part is unchanged, the bit-flip ancillas carry X on
      the check parities of e's X part and the phase-flip ancillas X on the
      check parities of its Z part. */
  function SyndromeFrame(e: Pauli): (r: Pauli)
    requires Sized(e, 13)
    ensures Sized(r, 13)
  {
    Pauli(e.x[..7] + CheckBits(e.x) + CheckBits(e.z), e.z[..7] + Zeros(6), e.neg)
  }

  /** What the syndrome circuit does to every error frame on the data
      qubits (ancillas 7 to 12 clean). */
  lemma SyndromeConj(e: Pauli)
    requires Sized(e, 13) && forall j | 7 <= j < 13 :: !e.x[j] && !e.z[j]
    ensures Fits(SyndromeExtractionGates(), 13)
    ensures Conj(SyndromeExtractionGates(), e) == SyndromeFrame(e)
  {
    var h := HLayer(PhaseAncillas());
    BitFlipLoopsConj(3, e);
    var p1 := Conj(BitFlipLoops(3), e);
    AncillaH(p1);
    var p2 := Conj(h, p1);
    PhaseFlipLoopsConj(3, p2);
    var p3 := Conj(PhaseFlipLoops(3), p2);
    AncillaH(p3);
    var p4 := Conj(h, p3);
    ConjAppend3(BitFlipLoops(3), h, PhaseFlipLoops(3), e);
    ConjAppend(BitFlipLoops(3) + h + PhaseFlipLoops(3), h, e);
    StagesCompose(e, p1, p2, p3, p4);
  }

  /** The four stages' effects add up to SyndromeFrame. */
  lemma StagesCompose(e: Pauli, p1: Pauli, p2: Pauli, p3: Pauli, p4: Pauli)
    requires Sized(e, 13) && forall j | 7 <= j < 13 :: !e.x[j] && !e.z[j]
    requires Sized(p1, 13) && Sized(p2, 13) && Sized(p3, 13) && Sized(p4, 13)
    requires p1.z == e.z && p1.neg == e.neg
    requires forall j | 0 <= j < 13 :: p1.x[j] == if 7 <= j < 10 then e.x[j] != Parity(e.x, Checks(j - 7)) else e.x[j]
    requires p2.neg == p1.neg
    requires forall j | 0 <= j < 13 :: p2.x[j] == (if 10 <= j then p1.z[j] else p1.x[j])
                                       && p2.z[j] == (if 10 <= j then p1.x[j] else p1.z[j])
    requires p3.x == p2.x && p3.neg == p2.neg
    requires forall j | 0 <= j < 13 :: p3.z[j] == if 10 <= j < 13 then p2.z[j] != Parity(p2.z, Checks(j - 10)) else p2.z[j]
    requires p4.neg == p3.neg
    requires forall j | 0 <= j < 13 :: p4.x[j] == (if 10 <= j then p3.z[j] else p3.x[j])
                                       && p4.z[j] == (if 10 <= j then p3.x[j] else p3.z[j])
    ensures p4 == SyndromeFrame(e)
  {
    var want := SyndromeFrame(e);
    forall k | 0 <= k < 3
      ensures Parity(p2.z, Checks(k)) == Parity(e.z, Checks(k))
    {
      ParityFrame(p2.z, e.z, Checks(k));
    }
    assert p4.x == want.x;
    assert p4.z == want.z;
  }

  /** The first n bit-flip loops add the X parity of Checks(k) onto ancilla
      7 + k and change nothing else, sign included, as long as those
      ancillas carry no Z. */
  lemma {:induction false} BitFlipLoopsConj(n: nat, e: Pauli)
    requires n <= 3 && Sized(e, 13) && !e.z[7] && !e.z[8] && !e.z[9]
    ensures Fits(BitFlipLoops(n), 13)
    ensures BitFlipStage(n, e, Conj(BitFlipLoops(n), e))
  {
    if n > 0 {
      BitFlipLoopsConj(n - 1, e);
      var q := Conj(BitFlipLoops(n - 1), e);
      var cs, t := Checks(n - 1), 6 + n;
      FanInOntoCleanTarget(cs, t, q);
      ConjAppend(BitFlipLoops(n - 1), FanIn(cs, t), e);
      BitFlipStageNext(n, e, q, Conj(FanIn(cs, t), q));
    }
  }

  /** r is e after the first n bit-flip loops. */
  ghost predicate BitFlipStage(n: nat, e: Pauli, r: Pauli)
    requires n <= 3 && Sized(e, 13)
  {
    Sized(r, 13) && r.z == e.z && r.neg == e.neg
    && forall j | 0 <= j < 13 :: r.x[j] == if 7 <= j < 7 + n then e.x[j] != Parity(e.x, Checks(j - 7)) else e.x[j]
  }

  lemma BitFlipStageNext(n: nat, e: Pauli, q: Pauli, r: Pauli)
    requires 0 < n <= 3 && Sized(e, 13) && BitFlipStage(n - 1, e, q)
    requires r == q.(x := q.x[6 + n := q.x[6 + n] != Parity(q.x, Checks(n - 1))])
    ensures BitFlipStage(n, e, r)
  {
    var t, cs := 6 + n, Checks(n - 1);
    ParityFrame(q.x, e.x, cs);
    assert r.x[t] == (e.x[t] != Parity(e.x, Checks(t - 7)));
    forall j | 0 <= j < 13 && j != t
      ensures r.x[j] == q.x[j]
    {
    }
  }

  /** The first n phase-flip loops add the Z parity of Checks(k) onto
      ancilla 10 + k and change nothing else, sign included, as long as
      those ancillas carry no X. */
  lemma {:induction false} PhaseFlipLoopsConj(n: nat, e: Pauli)
    requires n <= 3 && Sized(e, 13) && !e.x[10] && !e.x[11] && !e.x[12]
    ensures Fits(PhaseFlipLoops(n), 13)
    ensures PhaseFlipStage(n, e, Conj(PhaseFlipLoops(n), e))
  {
    if n > 0 {
      PhaseFlipLoopsConj(n - 1, e);
      var q := Conj(PhaseFlipLoops(n - 1), e);
      var c, ts := 9 + n, Checks(n - 1);
      FanOutFromCleanControl(c, ts, q);
      ConjAppend(PhaseFlipLoops(n - 1), FanOut(c, ts), e);
      PhaseFlipStageNext(n, e, q, Conj(FanOut(c, ts), q));
    }
  }

  /** r is e after the first n phase-flip loops. */
  ghost predicate PhaseFlipStage(n: nat, e: Pauli, r: Pauli)
    requires n <= 3 && Sized(e, 13)
  {
    Sized(r, 13) && r.x == e.x && r.neg == e.neg
    && forall j | 0 <= j < 13 :: r.z[j] == if 10 <= j < 10 + n then e.z[j] != Parity(e.z, Checks(j - 10)) else e.z[j]
  }

  lemma PhaseFlipStageNext(n: nat, e: Pauli, q: Pauli, r: Pauli)
    requires 0 < n <= 3 && Sized(e, 13) && PhaseFlipStage(n - 1, e, q)
    requires r == q.(z := q.z[9 + n := q.z[9 + n] != Parity(q.z, Checks(n - 1))])
    ensures PhaseFlipStage(n, e, r)
  {
    var c, ts := 9 + n, Checks(n - 1);
    ParityFrame(q.z, e.z, ts);
    assert r.z[c] == (e.z[c] != Parity(e.z, Checks(c - 10)));
    forall j | 0 <= j < 13 && j != c
      ensures r.z[j] == q.z[j]
    {
    }
  }

  /** The H layer on the phase-flip ancillas trades their X for their Z,
      and keeps the sign when none of them carries both. */
  lemma AncillaH(p: Pauli)
    requires Sized(p, 13)
    ensures Fits(HLayer(PhaseAncillas()), 13)
    ensures var r := Conj(HLayer(PhaseAncillas()), p);
            forall j | 0 <= j < 13 ::
              r.x[j] == (if 10 <= j then p.z[j] else p.x[j]) && r.z[j] == (if 10 <= j then p.x[j] else p.z[j])
    ensures (forall j | 10 <= j < 13 :: !(p.x[j] && p.z[j])) ==> Conj(HLayer(PhaseAncillas()), p).neg == p.neg
  {
    HLayerOnTail(PhaseAncillas(), 10, p);
  }

  // ---------------------------------------------------------------------
  // Reading the syndrome

  /** Data qubit i is in check k exactly when bit k of i + 1 is set, so the
      three checks spell each data qubit's position plus one in binary. */
  lemma ChecksAreBinary(i: nat, k: nat)
    requires i < 7 && k < 3
    ensures i in Checks(k) <==> (i + 1) / Pow2(k) % 2 == 1
  {
    var cs, p := Checks(k), Pow2(k);
    if k == 0 {
      assert cs == [0, 2, 4, 6] && p == 1;
      BitOfPosition(i, 1, cs);
    } else if k == 1 {
      assert cs == [1, 2, 5, 6] && p == 2;
      BitOfPosition(i, 2, cs);
    } else {
      assert Pow2(1) == 2;
      assert cs == [3, 4, 5, 6] && p == 4;
      BitOfPosition(i, 4, cs);
    }
  }

  /** The positions i < 7 whose bit of weight p in i + 1 is set. */
  lemma BitOfPosition(i: nat, p: nat, cs: seq<nat>)
    requires i < 7
    requires p == 1 ==> cs == [0, 2, 4, 6]
    requires p == 2 ==> cs == [1, 2, 5, 6]
    requires p == 4 ==> cs == [3, 4, 5, 6]
    requires p == 1 || p == 2 || p == 4
    ensures i in cs <==> (i + 1) / p % 2 == 1
  {
    if i == 0 { } else if i == 1 { } else if i == 2 { } else if i == 3 { }
    else if i == 4 { } else if i == 5 { } else { }
  }

  /** The check bits of d written out with the four data qubits of each
      check. */
  lemma CheckBitsExplicit(d: seq<bool>)
    requires |d| >= 7
    ensures CheckBits(d) == [d[0] != (d[2] != (d[4] != d[6])),
                             d[1] != (d[2] != (d[5] != d[6])),
                             d[3] != (d[4] != (d[5] != d[6]))]
  {
    ParityQuad(d, 0, 2, 4, 6);
    ParityQuad(d, 1, 2, 5, 6);
    ParityQuad(d, 3, 4, 5, 6);
  }

  lemma RegValue3(bits: seq<bool>)
    requires |bits| == 3
    ensures RegValue(bits) == (if bits[0] then 1 else 0) + 2 * (if bits[1] then 1 else 0) + 4 * (if bits[2] then 1 else 0)
  {
    var t1, t2 := bits[1..], bits[2..];
    assert t1[1..] == t2 && t2[1..] == [];
    assert RegValue(t2) == (if bits[2] then 1 else 0);
    assert RegValue(t1) == (if bits[1] then 1 else 0) + 2 * RegValue(t2);
  }

  /** At most one of the bits is set. */
  predicate AtMostOne(d: seq<bool>)
  {
    forall i, j | 0 <= i < j < |d| :: !(d[i] && d[j])
  }

  /** The Hamming property of the three checks: when at most one data
      qubit is flipped, the check bits read as a number name it plus one,
      and read 0 when none is. */
  lemma SyndromeNamesError(d: seq<bool>)
    requires |d| == 7 && AtMostOne(d)
    ensures RegValue(CheckBits(d)) < 8
    ensures forall j | 0 <= j < 7 :: (RegValue(CheckBits(d)) == j + 1) == d[j]
  {
    CheckBitsExplicit(d);
    RegValue3(CheckBits(d));
    if i :| 0 <= i < 7 && d[i] {
      assert forall j | 0 <= j < 7 && j != i :: !d[j];
      assert RegValue(CheckBits(d)) == i + 1;
    }
  }

  // ---------------------------------------------------------------------
  // Correction

  /** X on each data qubit, in order: the gate the bit-flip syndrome value
      j + 1 triggers is XGates()[j]. */
  function XGates(): (gs: seq<Gate>)
    ensures |gs| == 7 && forall j | 0 <= j < 7 :: gs[j] == X(j)
  {
    [X(0), X(1), X(2), X(3), X(4), X(5), X(6)]
  }

  function ZGates(): (gs: seq<Gate>)
    ensures |gs| == 7 && forall j | 0 <= j < 7 :: gs[j] == Z(j)
  {
    [Z(0), Z(1), Z(2), Z(3), Z(4), Z(5), Z(6)]
  }

  /** What the correction appends: ancillas 7 to 9 measured into the first
      register and 10 to 12 into the second, then X on data qubit v - 1 for
      each bit-flip value v in 1..7 and Z on data qubit v - 1 for each
      phase-flip value v in 1..7. */
  function CorrectionOps(): seq<Op>
  {
    MeasureOps([7, 8, 9], 0) + MeasureOps([10, 11, 12], 1)
    + Conditioned(0, XGates()) + Conditioned(1, ZGates())
  }

  /** The correction reads the circuit's two classical registers, of three
      bits each, as the bit-flip and the phase-flip syndrome. */
  method ApplyCorrection(qc: QuantumCircuit)
    requires qc.Valid() && 13 <= qc.width && |qc.cregs| == 2 && qc.cregs[0] == 3 && qc.cregs[1] == 3
    modifies qc
    ensures qc.Valid()
    ensures qc.ops == old(qc.ops) + CorrectionOps()
  {
    CorrectionFits(qc.width);
    qc.Measure([7, 8, 9], 0);
    qc.Measure([10, 11, 12], 1);
    IfTestEach(qc, 0, XGates());
    IfTestEach(qc, 1, ZGates());
  }

  lemma CorrectionFits(width: nat)
    requires 13 <= width
    ensures MapsInto([7, 8, 9], width) && MapsInto([10, 11, 12], width)
    ensures Fits(XGates(), width) && Fits(ZGates(), width)
  {
  }

  /** The seven if_test blocks on one register: gs[v - 1] under the value
      v, for v = 0b001 to 0b111. */
  method IfTestEach(qc: QuantumCircuit, reg: nat, gs: seq<Gate>)
    requires qc.Valid() && reg < |qc.cregs| && |gs| == 7 && Fits(gs, qc.width)
    modifies qc
    ensures qc.Valid()
    ensures qc.ops == old(qc.ops) + Conditioned(reg, gs)
  {
    ghost var start := qc.ops;
    qc.IfTest(reg, 0x1, gs[0]);
    qc.IfTest(reg, 0x2, gs[1]);
    qc.IfTest(reg, 0x3, gs[2]);
    qc.IfTest(reg, 0x4, gs[3]);
    qc.IfTest(reg, 0x5, gs[4]);
    qc.IfTest(reg, 0x6, gs[5]);
    qc.IfTest(reg, 0x7, gs[6]);
    SevenIfTests(start, qc.ops, reg, gs);
  }

  lemma SevenIfTests(start: seq<Op>, ops: seq<Op>, reg: nat, gs: seq<Gate>)
    requires |gs| == 7
    requires ops == start + [IfTest(reg, 1, gs[0])] + [IfTest(reg, 2, gs[1])] + [IfTest(reg, 3, gs[2])]
      + [IfTest(reg, 4, gs[3])] + [IfTest(reg, 5, gs[4])] + [IfTest(reg, 6, gs[5])] + [IfTest(reg, 7, gs[6])]
    ensures ops == start + Conditioned(reg, gs)
  {
    assert ops[|start|..] == Conditioned(reg, gs);
  }

  /** Measuring the six ancillas records the frame's x-bits of qubits 7 to
      12 and leaves the frame alone. */
  lemma ReadoutStage(f: FrameState)
    requires Sized(f.err, 13) && |f.regs| == 2 && |f.regs[0]| == 3 && |f.regs[1]| == 3
    ensures var ops := MeasureOps([7, 8, 9], 0) + MeasureOps([10, 11, 12], 1);
            FrameFits(ops, f) && FrameRun(ops, f) == f.(regs := [f.err.x[7..10], f.err.x[10..13]])
  {
    FrameRunMeasureTwo([7, 8, 9], [10, 11, 12], f);
    ReadRange([7, 8, 9], 7, f.err.x);
    ReadRange([10, 11, 12], 10, f.err.x);
  }

  /** Reading the consecutive qubits lo, lo + 1, ... reads a slice. */
  lemma ReadRange(qs: seq<nat>, lo: nat, x: seq<bool>)
    requires lo + |qs| <= |x| && forall k | 0 <= k < |qs| :: qs[k] == lo + k
    ensures MapsInto(qs, |x|)
    ensures seq(|qs|, k requires 0 <= k < |qs| => x[qs[k]]) == x[lo..lo + |qs|]
  {
  }

  /** With the registers holding vb and vp, the conditioned gates flip the
      x-bit of data qubit vb - 1 and the z-bit of data qubit vp - 1. */
  lemma ConditionedStage(f: FrameState)
    requires Sized(f.err, 13) && |f.regs| == 2
    ensures var ops := Conditioned(0, XGates()) + Conditioned(1, ZGates());
            var vb, vp := RegValue(f.regs[0]), RegValue(f.regs[1]);
            FrameFits(ops, f)
            && var r := FrameRun(ops, f);
               r.regs == f.regs && Sized(r.err, 13) && r.err.neg == f.err.neg
               && (forall j | 0 <= j < 13 :: r.err.x[j] == (f.err.x[j] != (j < 7 && vb == j + 1)))
               && (forall j | 0 <= j < 13 :: r.err.z[j] == (f.err.z[j] != (j < 7 && vp == j + 1)))
  {
    FrameRunConditionedTwo(XGates(), ZGates(), f);
  }

  /** The whole correction on a frame: the registers end up holding the
      ancillas' x-bits, and the conditioned gates act on those values. */
  lemma CorrectionTable(f: FrameState)
    requires Sized(f.err, 13) && |f.regs| == 2 && |f.regs[0]| == 3 && |f.regs[1]| == 3
    ensures FrameFits(CorrectionOps(), f)
    ensures var r := FrameRun(CorrectionOps(), f);
            var vb, vp := RegValue(f.err.x[7..10]), RegValue(f.err.x[10..13]);
            r.regs == [f.err.x[7..10], f.err.x[10..13]] && Sized(r.err, 13) && r.err.neg == f.err.neg
            && (forall j | 0 <= j < 13 :: r.err.x[j] == (f.err.x[j] != (j < 7 && vb == j + 1)))
            && (forall j | 0 <= j < 13 :: r.err.z[j] == (f.err.z[j] != (j < 7 && vp == j + 1)))
  {
    var m := MeasureOps([7, 8, 9], 0) + MeasureOps([10, 11, 12], 1);
    var c := Conditioned(0, XGates()) + Conditioned(1, ZGates());
    assert CorrectionOps() == m + c;
    ReadoutStage(f);
    ConditionedStage(f);
    var f1 := f.(regs := [f.err.x[7..10], f.err.x[10..13]]);
    ConditionedStage(f1);
    FrameRunAppend(m, c, f);
  }

  /** The frame the syndrome circuit leaves of an X error xs and a Z error
      zs on the data qubits, with both registers still clear. */
  function SyndromeState(xs: seq<bool>, zs: seq<bool>): (f: FrameState)
    requires |xs| == 7 && |zs| == 7
    ensures Sized(f.err, 13)
  {
    FrameState(Pauli(xs + CheckBits(xs) + CheckBits(zs), zs + Zeros(6), false), [Zeros(3), Zeros(3)])
  }

  lemma SyndromeStage(xs: seq<bool>, zs: seq<bool>)
    requires |xs| == 7 && |zs| == 7
    ensures var f := FrameState(Pauli(xs + Zeros(6), zs + Zeros(6), false), [Zeros(3), Zeros(3)]);
            FrameFits(Lift(SyndromeExtractionGates()), f)
            && FrameRun(Lift(SyndromeExtractionGates()), f) == SyndromeState(xs, zs)
  {
    var e := Pauli(xs + Zeros(6), zs + Zeros(6), false);
    var f := FrameState(e, [Zeros(3), Zeros(3)]);
    SyndromeConj(e);
    FrameRunLift(SyndromeExtractionGates(), f);
    CheckBitsExplicit(xs);
    CheckBitsExplicit(zs);
    CheckBitsExplicit(e.x);
    CheckBitsExplicit(e.z);
    assert e.x[..7] == xs && e.z[..7] == zs;
  }

  /** Single errors on the data make the correction flip exactly the
      erroneous bits back. */
  lemma CorrectionStage(xs: seq<bool>, zs: seq<bool>)
    requires |xs| == 7 && |zs| == 7 && AtMostOne(xs) && AtMostOne(zs)
    ensures FrameFits(CorrectionOps(), SyndromeState(xs, zs))
    ensures FrameRun(CorrectionOps(), SyndromeState(xs, zs))
         == FrameState(Pauli(Zeros(7) + CheckBits(xs) + CheckBits(zs), Zeros(13), false),
                       [CheckBits(xs), CheckBits(zs)])
  {
    SyndromeNamesError(xs);
    SyndromeNamesError(zs);
    CorrectionClears(xs, zs, CheckBits(xs), CheckBits(zs));
  }

  lemma CorrectionClears(xs: seq<bool>, zs: seq<bool>, bx: seq<bool>, bz: seq<bool>)
    requires |xs| == 7 && |zs| == 7 && |bx| == 3 && |bz| == 3
    requires forall j | 0 <= j < 7 :: (RegValue(bx) == j + 1) == xs[j]
    requires forall j | 0 <= j < 7 :: (RegValue(bz) == j + 1) == zs[j]
    ensures var g := FrameState(Pauli(xs + bx + bz, zs + Zeros(6), false), [Zeros(3), Zeros(3)]);
            FrameFits(CorrectionOps(), g)
            && FrameRun(CorrectionOps(), g) == FrameState(Pauli(Zeros(7) + bx + bz, Zeros(13), false), [bx, bz])
  {
    var g := FrameState(Pauli(xs + bx + bz, zs + Zeros(6), false), [Zeros(3), Zeros(3)]);
    CorrectionTable(g);
    ClearedFrame(xs, zs, bx, bz, g, FrameRun(CorrectionOps(), g));
  }

  lemma ClearedFrame(xs: seq<bool>, zs: seq<bool>, bx: seq<bool>, bz: seq<bool>, f: FrameState, r: FrameState)
    requires |xs| == 7 && |zs| == 7 && |bx| == 3 && |bz| == 3
    requires forall j | 0 <= j < 7 :: (RegValue(bx) == j + 1) == xs[j]
    requires forall j | 0 <= j < 7 :: (RegValue(bz) == j + 1) == zs[j]
    requires f == FrameState(Pauli(xs + bx + bz, zs + Zeros(6), false), [Zeros(3), Zeros(3)])
    requires var vb, vp := RegValue(f.err.x[7..10]), RegValue(f.err.x[10..13]);
             r.regs == [f.err.x[7..10], f.err.x[10..13]] && Sized(r.err, 13) && r.err.neg == f.err.neg
             && (forall j | 0 <= j < 13 :: r.err.x[j] == (f.err.x[j] != (j < 7 && vb == j + 1)))
             && (forall j | 0 <= j < 13 :: r.err.z[j] == (f.err.z[j] != (j < 7 && vp == j + 1)))
    ensures r == FrameState(Pauli(Zeros(7) + bx + bz, Zeros(13), false), [bx, bz])
  {
    assert f.err.x[7..10] == bx && f.err.x[10..13] == bz;
    assert r.err.x == Zeros(7) + bx + bz;
    assert r.err.z == Zeros(13);
  }

  /** Any X error on at most one data qubit, together with any Z error on
      at most one data qubit (a Y error is both on the same qubit), is
      undone: after syndrome extraction and correction no error is left on
      the data, the registers hold the two syndromes, and the ancillas keep
      the bit flips the extraction copied onto them. */
  lemma CorrectsSingleErrors(xs: seq<bool>, zs: seq<bool>)
    requires |xs| == 7 && |zs| == 7 && AtMostOne(xs) && AtMostOne(zs)
    ensures var ops := Lift(SyndromeExtractionGates()) + CorrectionOps();
            var f := FrameState(Pauli(xs + Zeros(6), zs + Zeros(6), false), [Zeros(3), Zeros(3)]);
            FrameFits(ops, f)
            && FrameRun(ops, f)
               == FrameState(Pauli(Zeros(7) + CheckBits(xs) + CheckBits(zs), Zeros(13), false),
                             [CheckBits(xs), CheckBits(zs)])
  {
    var f := FrameState(Pauli(xs + Zeros(6), zs + Zeros(6), false), [Zeros(3), Zeros(3)]);
    SyndromeStage(xs, zs);
    CorrectionStage(xs, zs);
    CorrectionTable(f);
    FrameRunAppend(Lift(SyndromeExtractionGates()), CorrectionOps(), f);
  }

  /** The data error of an X (or Z) on qubit i, or no error when i is 7. */
  function ErrorAt(i: nat): (d: seq<bool>)
    requires i <= 7
    ensures |d| == 7 && AtMostOne(d) && forall j | 0 <= j < 7 :: d[j] == (i == j)
  {
    seq(7, j requires 0 <= j < 7 => i == j)
  }

  /** For every i and j in 0..6, X on data qubit i together with Z on data
      qubit j gives the bit-flip register value i + 1 and the phase-flip
      register value j + 1, and the correction leaves no error on the data;
      i or j equal to 7 stands for no error of that kind, which gives the
      value 0. */
  lemma SingleErrorsCorrected(i: nat, j: nat)
    requires i <= 7 && j <= 7
    ensures var ops := Lift(SyndromeExtractionGates()) + CorrectionOps();
            var f := FrameState(Pauli(ErrorAt(i) + Zeros(6), ErrorAt(j) + Zeros(6), false), [Zeros(3), Zeros(3)]);
            FrameFits(ops, f)
            && var r := FrameRun(ops, f);
               |r.regs| == 2 && r.err.x[..7] == Zeros(7) && r.err.z == Zeros(13)
               && RegValue(r.regs[0]) == (if i < 7 then i + 1 else 0)
               && RegValue(r.regs[1]) == (if j < 7 then j + 1 else 0)
  {
    var xs, zs := ErrorAt(i), ErrorAt(j);
    CorrectsSingleErrors(xs, zs);
    NamedValue(i);
    NamedValue(j);
    DataPart(CheckBits(xs), CheckBits(zs));
  }

  /** The syndrome of ErrorAt(i) reads i + 1, or 0 for no error. */
  lemma NamedValue(i: nat)
    requires i <= 7
    ensures RegValue(CheckBits(ErrorAt(i))) == if i < 7 then i + 1 else 0
  {
    var d := ErrorAt(i);
    if i < 7 {
      SyndromeNamesError(d);
      assert d[i];
    } else {
      CheckBitsExplicit(d);
      RegValue3(CheckBits(d));
    }
  }

  lemma DataPart(bx: seq<bool>, bz: seq<bool>)
    ensures (Zeros(7) + bx + bz)[..7] == Zeros(7)
  {
  }
}
