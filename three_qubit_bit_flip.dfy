/** The three-qubit bit-flip code: |0> is encoded as |000> and |1> as |111>;
    two ancillas (qubits 3 and 4) collect the parities q0+q2 and q1+q2, so a
    single X on data qubit k leaves the register value k+1, and the
    correction applies X to qubit value-1. */
module ThreeQubitBitFlip {
  import opened Gates
  import opened PauliFrame
  import opened BasisStates
  import opened Circuits

  /** The gates of the encoding (and decoding) circuit. */
  function EncodingGates(): seq<Gate>
  {
    [CX(0, 1), CX(0, 2)]
  }

  function SyndromeExtractionGates(): seq<Gate>
  {
    [CX(0, 3), CX(1, 4), CX(2, 3), CX(2, 4)]
  }

  /** What the correction appends when measuring into register reg: qubits
      3 and 4 into bits 0 and 1, then X on qubit v - 1 for the values v = 1,
      2, 3. */
  function CorrectionOps(reg: nat): seq<Op>
  {
    MeasureOps([3, 4], reg) + Conditioned(reg, [X(0), X(1), X(2)])
  }

  method GetEncodingDecodingCircuit() returns (out: QuantumCircuit)
    ensures fresh(out) && out.Valid()
    ensures out.width == 3 && out.cregs == [] && out.ops == Lift(EncodingGates())
  {
    out := new QuantumCircuit(3, []);
    out.Cx(0, 1);
    out.Cx(0, 2);
  }

  method GetSyndromeExtractionCircuit() returns (out: QuantumCircuit)
    ensures fresh(out) && out.Valid()
    ensures out.width == 5 && out.cregs == [] && out.ops == Lift(SyndromeExtractionGates())
  {
    out := new QuantumCircuit(5, []);
    out.Cx(0, 3);
    out.Cx(1, 4);
    out.Cx(2, 3);
    out.Cx(2, 4);
  }

  /** Measures qubits 3 and 4 into the two-bit register clreg of qc, then
      conditions X on qubit 0, 1 or 2 on the values 1, 2 and 3. */
  method ApplySyndromeCorrection(qc: QuantumCircuit, clreg: nat)
    requires qc.Valid() && 5 <= qc.width && clreg < |qc.cregs| && qc.cregs[clreg] == 2
    modifies qc
    ensures qc.Valid()
    ensures qc.ops == old(qc.ops) + CorrectionOps(clreg)
  {
    qc.Measure([3, 4], clreg);
    qc.IfTest(clreg, 0x1, X(0));
    qc.IfTest(clreg, 0x2, X(1));
    qc.IfTest(clreg, 0x3, X(2));
    assert [Op.IfTest(clreg, 1, X(0)), Op.IfTest(clreg, 2, X(1)), Op.IfTest(clreg, 3, X(2))]
        == Conditioned(clreg, [X(0), X(1), X(2)]);
  }

  // ---------------------------------------------------------------------
  // Encoding

  /** Qubits 1 and 2 flip exactly when qubit 0 is set; every other qubit,
      qubit 0 included, is unchanged. */
  lemma EncodingOnBasis(s: seq<bool>)
    requires 3 <= |s|
    ensures RunBits(EncodingGates(), s) == s[1 := s[1] != s[0]][2 := s[2] != s[0]]
  {
    EncoderIsFanOut();
    FanOutBits(0, [1, 2], s);
    var r := RunBits(FanOut(0, [1, 2]), s);
    forall j | 0 <= j < |s|
      ensures r[j] == s[1 := s[1] != s[0]][2 := s[2] != s[0]][j]
    {
      assert j in [1, 2] <==> j == 1 || j == 2;
    }
  }

  lemma EncoderIsFanOut()
    ensures EncodingGates() == FanOut(0, [1, 2])
  {
  }

  /** |b00> becomes |bbb>: 000 -> 000 and 100 -> 111. */
  lemma EncodesLogicalBit(b: bool)
    ensures RunBits(EncodingGates(), [b, false, false]) == [b, b, b]
  {
    EncodingOnBasis([b, false, false]);
  }

  /** The encoder is its own inverse as an operator (every Pauli, sign
      included, comes back to itself), because its two CXs share their
      control and so commute. */
  lemma {:induction false} EncodingSelfInverse(p: Pauli)
    requires Sized(p, 3)
    ensures Conj(EncodingGates(), Conj(EncodingGates(), p)) == p
  {
    var e := EncodingGates();
    var q := Conj(e, p);
    ConjMoveToBack(CX(0, 1), [CX(0, 2)], q);
    assert [CX(0, 1)] + [CX(0, 2)] == e;
    assert [CX(0, 2)] + [CX(0, 1)] == Reverse(e);
    ReverseUndoes(e, p);
  }

  /** Running the encoding twice restores every 3-bit basis state. */
  lemma EncodingTwiceOnBasis(s: seq<bool>)
    requires 3 <= |s|
    ensures RunBits(EncodingGates() + EncodingGates(), s) == s
  {
    RunBitsAppend(EncodingGates(), EncodingGates(), s);
    EncodingOnBasis(s);
    EncodingOnBasis(RunBits(EncodingGates(), s));
  }

  // ---------------------------------------------------------------------
  // Syndrome extraction

  /** q3 accumulates q0+q2 and q4 accumulates q1+q2; every other qubit is
      unchanged. */
  lemma SyndromeOnBasis(s: seq<bool>)
    requires 5 <= |s|
    ensures var r := RunBits(SyndromeExtractionGates(), s);
            r[3] == (s[3] != (s[0] != s[2])) && r[4] == (s[4] != (s[1] != s[2]))
            && forall j | 0 <= j < |s| && j != 3 && j != 4 :: r[j] == s[j]
  {
    var a, b := [CX(0, 3), CX(1, 4)], [CX(2, 3), CX(2, 4)];
    CXPairBits(0, 3, 1, 4, s);
    CXPairBits(2, 3, 2, 4, RunBits(a, s));
    SyndromeHalves();
    RunBitsAppend(a, b, s);
  }

  lemma SyndromeHalves()
    ensures SyndromeExtractionGates() == [CX(0, 3), CX(1, 4)] + [CX(2, 3), CX(2, 4)]
  {
  }

  /** Composed onto five distinct qubits m, the syndrome circuit adds
      q[m0]+q[m2] into q[m3] and q[m1]+q[m2] into q[m4], and leaves every
      other qubit alone. */
  lemma SyndromeOnBasisAt(m: seq<nat>, s: seq<bool>)
    requires |m| == 5 && Injective(m) && MapsInto(m, |s|)
    ensures Fits(Remap(SyndromeExtractionGates(), m), |s|) && Classical(Remap(SyndromeExtractionGates(), m))
    ensures var r := RunBits(Remap(SyndromeExtractionGates(), m), s);
            r[m[3]] == (s[m[3]] != (s[m[0]] != s[m[2]])) && r[m[4]] == (s[m[4]] != (s[m[1]] != s[m[2]]))
            && forall j | 0 <= j < |s| && j != m[3] && j != m[4] :: r[j] == s[j]
  {
    var a, b := [CX(m[0], m[3]), CX(m[1], m[4])], [CX(m[2], m[3]), CX(m[2], m[4])];
    SyndromeHalvesAt(m);
    CXPairBits(m[0], m[3], m[1], m[4], s);
    CXPairBits(m[2], m[3], m[2], m[4], RunBits(a, s));
    RunBitsAppend(a, b, s);
  }

  lemma SyndromeHalvesAt(m: seq<nat>)
    requires |m| == 5
    ensures Remap(SyndromeExtractionGates(), m) == [CX(m[0], m[3]), CX(m[1], m[4])] + [CX(m[2], m[3]), CX(m[2], m[4])]
  {
  }

  /** The register value the syndrome of an error on data qubit k should
      read: k + 1, bit 0 from qubit 3 and bit 1 from qubit 4. */
  function SyndromeBits(k: nat): (r: seq<bool>)
    requires k < 3
    ensures |r| == 2 && RegValue(r) == k + 1
  {
    [k != 1, k != 0]
  }

  function Flip(s: seq<bool>, k: nat): (r: seq<bool>)
    requires k < |s|
    ensures |r| == |s| && r[k] == !s[k] && forall j | 0 <= j < |s| && j != k :: r[j] == s[j]
  {
    s[k := !s[k]]
  }

  /** An un-errored codeword leaves both ancillas at 0. */
  lemma NoErrorSyndrome(b: bool)
    ensures RunBits(SyndromeExtractionGates(), [b, b, b, false, false]) == [b, b, b, false, false]
  {
    var s := [b, b, b, false, false];
    SyndromeOnBasis(s);
    var r := RunBits(SyndromeExtractionGates(), s);
    assert forall j | 0 <= j < 5 :: r[j] == s[j];
  }

  /** A single X on data qubit k of a codeword gives the syndrome k + 1 and
      leaves the data as it was. */
  lemma SingleErrorSyndrome(b: bool, k: nat)
    requires k < 3
    ensures RunBits(SyndromeExtractionGates(), Flip([b, b, b, false, false], k))
         == Flip([b, b, b], k) + SyndromeBits(k)
  {
    var s := Flip([b, b, b, false, false], k);
    SyndromeOnBasis(s);
    var r := RunBits(SyndromeExtractionGates(), s);
    var want := Flip([b, b, b], k) + SyndromeBits(k);
    forall j | 0 <= j < 5
      ensures r[j] == want[j]
    {
    }
  }

  // ---------------------------------------------------------------------
  // Correction

  /** The correction copies qubits 3 and 4 into the register, then applies X
      to qubit v - 1 when the register value v is 1, 2 or 3, and nothing when
      it is 0.  No other qubit and no other register changes. */
  lemma MeasureSyndrome(m: Machine, reg: nat)
    requires 5 <= |m.q| && reg < |m.regs| && |m.regs[reg]| == 2
    ensures OpsFit(MeasureOps([3, 4], reg), |m.q|, RegSizes(m.regs))
    ensures forall i | 0 <= i < 2 :: ClassicalOp(MeasureOps([3, 4], reg)[i])
    ensures Run(MeasureOps([3, 4], reg), m) == m.(regs := m.regs[reg := [m.q[3], m.q[4]]])
  {
    RunMeasureAll([3, 4], reg, m);
    assert seq(2, k requires 0 <= k < 2 => m.q[[3, 4][k]]) == [m.q[3], m.q[4]];
  }

  /** The conditioned X gates flip qubit v - 1 for the register value v. */
  lemma ConditionedFix(m: Machine, reg: nat)
    requires 5 <= |m.q| && reg < |m.regs| && |m.regs[reg]| == 2
    ensures OpsFit(Conditioned(reg, [X(0), X(1), X(2)]), |m.q|, RegSizes(m.regs))
    ensures forall i | 0 <= i < 3 :: ClassicalOp(Conditioned(reg, [X(0), X(1), X(2)])[i])
    ensures var v := RegValue(m.regs[reg]);
            Run(Conditioned(reg, [X(0), X(1), X(2)]), m)
            == if v == 0 then m else m.(q := Flip(m.q, v - 1))
  {
    CorrectionGatesFit(|m.q|);
    RunConditionedAll(reg, [X(0), X(1), X(2)], m);
    var v := RegValue(m.regs[reg]);
    TwoBitRegister(m.regs[reg]);
    if v > 0 {
      CorrectionGate(m.q, v - 1);
    }
  }

  lemma CorrectionGatesFit(n: nat)
    requires 3 <= n
    ensures Fits([X(0), X(1), X(2)], n) && Classical([X(0), X(1), X(2)])
  {
  }

  lemma TwoBitRegister(bits: seq<bool>)
    requires |bits| == 2
    ensures RegValue(bits) < 4
  {
    assert Pow2(2) == 4;
  }

  /** The gate conditioned on value k + 1 is X on data qubit k. */
  lemma CorrectionGate(s: seq<bool>, k: nat)
    requires k < 3 && 3 <= |s|
    ensures [X(0), X(1), X(2)][k] == X(k)
    ensures StepBits(X(k), s) == Flip(s, k)
  {
  }

  lemma CorrectionTable(m: Machine, reg: nat)
    requires 5 <= |m.q| && reg < |m.regs| && |m.regs[reg]| == 2
    ensures OpsFit(CorrectionOps(reg), |m.q|, RegSizes(m.regs))
    ensures forall i | 0 <= i < |CorrectionOps(reg)| :: ClassicalOp(CorrectionOps(reg)[i])
    ensures var v := RegValue([m.q[3], m.q[4]]);
            var r := Run(CorrectionOps(reg), m);
            r.regs == m.regs[reg := [m.q[3], m.q[4]]]
            && r.q == if v == 0 then m.q else Flip(m.q, v - 1)
  {
    MeasureSyndrome(m, reg);
    var m1 := m.(regs := m.regs[reg := [m.q[3], m.q[4]]]);
    ConditionedFix(m1, reg);
    RunAppend(MeasureOps([3, 4], reg), Conditioned(reg, [X(0), X(1), X(2)]), m);
  }

  /** Encoding |b>, flipping data qubit k and extracting the syndrome leaves
      the flipped codeword on the data and k + 1 on the ancillas. */
  lemma ErrorThenSyndrome(b: bool, k: nat)
    requires k < 3
    ensures Fits(EncodingGates() + [X(k)] + SyndromeExtractionGates(), 5)
    ensures Classical(EncodingGates() + [X(k)] + SyndromeExtractionGates())
    ensures RunBits(EncodingGates() + [X(k)] + SyndromeExtractionGates(), [b, false, false, false, false])
         == Flip([b, b, b], k) + SyndromeBits(k)
  {
    var s0 := [b, false, false, false, false];
    EncodingOnBasis(s0);
    assert RunBits(EncodingGates(), s0) == [b, b, b, false, false];
    assert RunBits([X(k)], [b, b, b, false, false]) == Flip([b, b, b, false, false], k);
    SingleErrorSyndrome(b, k);
    RunBitsAppend3(EncodingGates(), [X(k)], SyndromeExtractionGates(), s0);
  }

  /** Encode |b>, flip data qubit k, extract the syndrome and correct: the data
      is the codeword bbb again, and the ancillas and the register hold the
      syndrome k + 1. */
  lemma CorrectsSingleBitFlip(b: bool, k: nat)
    requires k < 3
    ensures var ops := Lift(EncodingGates() + [X(k)] + SyndromeExtractionGates()) + CorrectionOps(0);
            OpsFit(ops, 5, [2])
            && (forall i | 0 <= i < |ops| :: ClassicalOp(ops[i]))
            && Run(ops, Machine([b, false, false, false, false], [[false, false]]))
               == Machine([b, b, b] + SyndromeBits(k), [SyndromeBits(k)])
  {
    var pre := EncodingGates() + [X(k)] + SyndromeExtractionGates();
    var s3 := Flip([b, b, b], k) + SyndromeBits(k);
    ErrorThenSyndrome(b, k);
    var m0 := Machine([b, false, false, false, false], [[false, false]]);
    CorrectionTable(Machine(s3, [[false, false]]), 0);
    RunLiftThen(pre, CorrectionOps(0), m0);
    CorrectionUndoesFlip(b, k);
  }

  lemma CorrectionUndoesFlip(b: bool, k: nat)
    requires k < 3
    ensures var s := Flip([b, b, b], k) + SyndromeBits(k);
            [s[3], s[4]] == SyndromeBits(k) && Flip(s, k) == [b, b, b] + SyndromeBits(k)
  {
    var s := Flip([b, b, b], k) + SyndromeBits(k);
    assert Flip(s, k) == [b, b, b] + SyndromeBits(k);
  }

  /** With no error injected the syndrome is 00 and nothing is corrected. */
  lemma NoErrorNoCorrection(b: bool)
    ensures var ops := Lift(EncodingGates() + SyndromeExtractionGates()) + CorrectionOps(0);
            OpsFit(ops, 5, [2])
            && (forall i | 0 <= i < |ops| :: ClassicalOp(ops[i]))
            && Run(ops, Machine([b, false, false, false, false], [[false, false]]))
               == Machine([b, b, b, false, false], [[false, false]])
  {
    var s0 := [b, false, false, false, false];
    var s1 := [b, b, b, false, false];
    EncodingOnBasis(s0);
    assert RunBits(EncodingGates(), s0) == s1;
    NoErrorSyndrome(b);
    RunBitsAppend(EncodingGates(), SyndromeExtractionGates(), s0);
    CorrectionTable(Machine(s1, [[false, false]]), 0);
    RunLiftThen(EncodingGates() + SyndromeExtractionGates(), CorrectionOps(0), Machine(s0, [[false, false]]));
  }
}
