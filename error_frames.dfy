/** Error-frame semantics of a whole operation list.

    The state of a run with an injected error is E |ideal>, where |ideal> is
    the state of the same run without the error.  The frame E is a Pauli
    (sign ignored: it is a global phase).  A gate applied in both runs
    conjugates the frame.  A measurement of a qubit whose ideal outcome is 0
    yields the frame's x-bit there.  An if_test fires in the ideal run when
    its value is 0 and in the real run when the register holds the value;
    firing in exactly one of them multiplies the frame by the gate, firing
    in both conjugates it. */
module ErrorFrames {
  import opened Gates
  import opened PauliFrame
  import opened BasisStates

  datatype FrameState = FrameState(err: Pauli, regs: seq<seq<bool>>)

  predicate PauliGate(g: Gate)
  {
    g.X? || g.Z?
  }

  /** p is a product of Z's, with sign +, on qubits that start in |0>: it
      fixes the initial state.  When p is U^dagger Z_a U for the circuit U run
      before measuring qubit a, the error-free run measures 0 there, which is
      what the frame reading of a measurement assumes. */
  predicate FixesFreshZeros(p: Pauli, zeros: set<nat>)
  {
    Sized(p, |p.x|) && !p.neg
    && forall j | 0 <= j < |p.x| :: !p.x[j] && (p.z[j] ==> j in zeros)
  }

  /** Multiplies the frame by the Pauli gate g, up to phase. */
  function Times(g: Gate, p: Pauli): (r: Pauli)
    requires Sized(p, |p.x|) && GateFits(g, |p.x|) && PauliGate(g)
    ensures Sized(r, |p.x|)
    ensures forall j | 0 <= j < |p.x| ::
              r.x[j] == (p.x[j] != (g.X? && j == g.q)) && r.z[j] == (p.z[j] != (g.Z? && j == g.q))
  {
    match g
    case X(q) => p.(x := p.x[q := !p.x[q]])
    case Z(q) => p.(z := p.z[q := !p.z[q]])
  }

  predicate FrameOp(op: Op)
  {
    op.IfTest? ==> PauliGate(op.body)
  }

  predicate FrameFits(ops: seq<Op>, f: FrameState)
  {
    Sized(f.err, |f.err.x|) && OpsFit(ops, |f.err.x|, RegSizes(f.regs))
    && forall i | 0 <= i < |ops| :: FrameOp(ops[i])
  }

  function FrameStep(op: Op, f: FrameState): (r: FrameState)
    requires FrameFits([op], f)
    ensures Sized(r.err, |f.err.x|) && RegSizes(r.regs) == RegSizes(f.regs)
  {
    assert OpFits([op][0], |f.err.x|, RegSizes(f.regs));
    match op
    case Apply(g) => f.(err := ConjGate(g, f.err))
    case Measure(q, r, b) => f.(regs := f.regs[r := f.regs[r][b := f.err.x[q]]])
    case IfTest(r, v, g) =>
      var ideal := v == 0;
      var actual := RegValue(f.regs[r]) == v;
      if ideal && actual then f.(err := ConjGate(g, f.err))
      else if ideal != actual then f.(err := Times(g, f.err))
      else f
  }

  function FrameRun(ops: seq<Op>, f: FrameState): (r: FrameState)
    requires FrameFits(ops, f)
    ensures Sized(r.err, |f.err.x|) && RegSizes(r.regs) == RegSizes(f.regs)
  {
    if ops == [] then f
    else
      assert FrameFits([ops[0]], f);
      var g := FrameStep(ops[0], f);
      assert FrameFits(ops[1..], g);
      FrameRun(ops[1..], g)
  }

  lemma {:induction false} FrameRunAppend(a: seq<Op>, b: seq<Op>, f: FrameState)
    requires FrameFits(a, f) && FrameFits(b, f)
    ensures FrameFits(a + b, f)
    ensures FrameFits(b, FrameRun(a, f))
    ensures FrameRun(a + b, f) == FrameRun(b, FrameRun(a, f))
  {
    if a == [] {
      assert a + b == b;
    } else {
      assert (a + b)[0] == a[0];
      assert (a + b)[1..] == a[1..] + b;
      assert FrameFits([a[0]], f);
      var g := FrameStep(a[0], f);
      assert FrameFits(a[1..], g) && FrameFits(b, g);
      FrameRunAppend(a[1..], b, g);
    }
  }

  /** A lifted gate list only conjugates the frame. */
  lemma {:induction false} FrameRunLift(c: seq<Gate>, f: FrameState)
    requires Sized(f.err, |f.err.x|) && Fits(c, |f.err.x|)
    ensures FrameFits(Lift(c), f)
    ensures FrameRun(Lift(c), f) == FrameState(Conj(c, f.err), f.regs)
  {
    LiftFits(c, |f.err.x|, RegSizes(f.regs));
    if c != [] {
      assert Lift(c)[1..] == Lift(c[1..]);
      assert FrameFits([Lift(c)[0]], f);
      FrameRunLift(c[1..], f.(err := ConjGate(c[0], f.err)));
    }
  }

  /** Measuring qs into register reg records the frame's x-bits of those
      qubits, and leaves the frame alone. */
  lemma {:induction false} FrameRunMeasure(qs: seq<nat>, reg: nat, f: FrameState, n: nat)
    requires Sized(f.err, |f.err.x|) && reg < |f.regs| && |f.regs[reg]| == |qs|
    requires MapsInto(qs, |f.err.x|) && n <= |qs|
    ensures FrameFits(MeasureOps(qs, reg)[..n], f)
    ensures FrameRun(MeasureOps(qs, reg)[..n], f)
         == f.(regs := f.regs[reg := seq(|qs|, k requires 0 <= k < |qs| =>
                                           if k < n then f.err.x[qs[k]] else f.regs[reg][k])])
  {
    var ops := MeasureOps(qs, reg);
    var updated := seq(|qs|, k requires 0 <= k < |qs| =>
                         if k < n then f.err.x[qs[k]] else f.regs[reg][k]);
    if n == 0 {
      assert updated == f.regs[reg];
      assert f.regs[reg := updated] == f.regs;
    } else {
      FrameRunMeasure(qs, reg, f, n - 1);
      var before := seq(|qs|, k requires 0 <= k < |qs| =>
                          if k < n - 1 then f.err.x[qs[k]] else f.regs[reg][k]);
      var mid := f.(regs := f.regs[reg := before]);
      assert before[n - 1 := f.err.x[qs[n - 1]]] == updated;
      assert FrameStep(ops[n - 1], mid) == f.(regs := f.regs[reg := updated]);
      assert ops[..n] == ops[..n - 1] + [ops[n - 1]];
      FrameRunAppend(ops[..n - 1], [ops[n - 1]], f);
    }
  }

  lemma FrameRunMeasureAll(qs: seq<nat>, reg: nat, f: FrameState)
    requires Sized(f.err, |f.err.x|) && reg < |f.regs| && |f.regs[reg]| == |qs|
    requires MapsInto(qs, |f.err.x|)
    ensures FrameFits(MeasureOps(qs, reg), f)
    ensures FrameRun(MeasureOps(qs, reg), f)
         == f.(regs := f.regs[reg := seq(|qs|, k requires 0 <= k < |qs| => f.err.x[qs[k]])])
  {
    FrameRunMeasure(qs, reg, f, |qs|);
    assert MeasureOps(qs, reg)[..|qs|] == MeasureOps(qs, reg);
    var got := FrameRun(MeasureOps(qs, reg), f).regs[reg];
    var want := seq(|qs|, k requires 0 <= k < |qs| => f.err.x[qs[k]]);
    assert got == want;
    assert FrameRun(MeasureOps(qs, reg), f).regs == f.regs[reg := want];
  }

  /** The conditioned gates never fire in the error-free run (their values
      start at 1 and an error-free syndrome is 0); with the register holding v
      in 1..n, gate v - 1 multiplies the frame, and otherwise nothing does. */
  lemma {:induction false} FrameRunConditioned(reg: nat, gs: seq<Gate>, f: FrameState, n: nat)
    requires Sized(f.err, |f.err.x|) && reg < |f.regs| && Fits(gs, |f.err.x|) && n <= |gs|
    requires forall k | 0 <= k < |gs| :: PauliGate(gs[k])
    ensures FrameFits(Conditioned(reg, gs)[..n], f)
    ensures var v := RegValue(f.regs[reg]);
            FrameRun(Conditioned(reg, gs)[..n], f)
            == if 1 <= v <= n then f.(err := Times(gs[v - 1], f.err)) else f
  {
    var ops := Conditioned(reg, gs);
    if n > 0 {
      FrameRunConditioned(reg, gs, f, n - 1);
      assert ops[..n] == ops[..n - 1] + [ops[n - 1]];
      FrameRunAppend(ops[..n - 1], [ops[n - 1]], f);
    }
  }

  /** Measuring a into register 0 and then b into register 1 records the
      frame's x-bits of those qubits and leaves the frame alone. */
  lemma FrameRunMeasureTwo(a: seq<nat>, b: seq<nat>, f: FrameState)
    requires Sized(f.err, |f.err.x|) && |f.regs| == 2 && |f.regs[0]| == |a| && |f.regs[1]| == |b|
    requires MapsInto(a, |f.err.x|) && MapsInto(b, |f.err.x|)
    ensures FrameFits(MeasureOps(a, 0) + MeasureOps(b, 1), f)
    ensures FrameRun(MeasureOps(a, 0) + MeasureOps(b, 1), f)
         == f.(regs := [seq(|a|, k requires 0 <= k < |a| => f.err.x[a[k]]),
                        seq(|b|, k requires 0 <= k < |b| => f.err.x[b[k]])])
  {
    var ra := seq(|a|, k requires 0 <= k < |a| => f.err.x[a[k]]);
    FrameRunMeasureAll(a, 0, f);
    FrameRunMeasureAll(b, 1, f);
    var f1 := f.(regs := f.regs[0 := ra]);
    FrameRunMeasureAll(b, 1, f1);
    FrameRunAppend(MeasureOps(a, 0), MeasureOps(b, 1), f);
  }

  /** X on qubit j + 1 conditioned on register 0 holding j + 1, then Z on
      qubit j conditioned on register 1 holding j + 1: the frame's x-bit of
      qubit v - 1 flips for the value v of register 0, and its z-bit of
      qubit w - 1 for the value w of register 1. */
  lemma FrameRunConditionedTwo(gx: seq<Gate>, gz: seq<Gate>, f: FrameState)
    requires Sized(f.err, |f.err.x|) && |f.regs| == 2 && |gx| == |gz| <= |f.err.x|
    requires forall j | 0 <= j < |gx| :: gx[j] == X(j) && gz[j] == Z(j)
    ensures FrameFits(Conditioned(0, gx) + Conditioned(1, gz), f)
    ensures var r := FrameRun(Conditioned(0, gx) + Conditioned(1, gz), f);
            var v, w := RegValue(f.regs[0]), RegValue(f.regs[1]);
            r.regs == f.regs && Sized(r.err, |f.err.x|) && r.err.neg == f.err.neg
            && (forall j | 0 <= j < |f.err.x| :: r.err.x[j] == (f.err.x[j] != (j < |gx| && v == j + 1)))
            && (forall j | 0 <= j < |f.err.x| :: r.err.z[j] == (f.err.z[j] != (j < |gx| && w == j + 1)))
  {
    var cx, cz := Conditioned(0, gx), Conditioned(1, gz);
    ConditionedXStage(gx, f);
    ConditionedZStage(gz, f);
    ConditionedZStage(gz, FrameRun(cx, f));
    FrameRunAppend(cx, cz, f);
  }

  lemma ConditionedXStage(gx: seq<Gate>, f: FrameState)
    requires Sized(f.err, |f.err.x|) && |f.regs| == 2 && |gx| <= |f.err.x|
    requires forall j | 0 <= j < |gx| :: gx[j] == X(j)
    ensures FrameFits(Conditioned(0, gx), f)
    ensures var r := FrameRun(Conditioned(0, gx), f);
            var v := RegValue(f.regs[0]);
            r.regs == f.regs && Sized(r.err, |f.err.x|) && r.err.neg == f.err.neg && r.err.z == f.err.z
            && (forall j | 0 <= j < |f.err.x| :: r.err.x[j] == (f.err.x[j] != (j < |gx| && v == j + 1)))
  {
    var n := |gx|;
    assert Conditioned(0, gx)[..n] == Conditioned(0, gx);
    FrameRunConditioned(0, gx, f, n);
  }

  lemma ConditionedZStage(gz: seq<Gate>, f: FrameState)
    requires Sized(f.err, |f.err.x|) && |f.regs| == 2 && |gz| <= |f.err.x|
    requires forall j | 0 <= j < |gz| :: gz[j] == Z(j)
    ensures FrameFits(Conditioned(1, gz), f)
    ensures var r := FrameRun(Conditioned(1, gz), f);
            var w := RegValue(f.regs[1]);
            r.regs == f.regs && Sized(r.err, |f.err.x|) && r.err.neg == f.err.neg && r.err.x == f.err.x
            && (forall j | 0 <= j < |f.err.x| :: r.err.z[j] == (f.err.z[j] != (j < |gz| && w == j + 1)))
  {
    var n := |gz|;
    assert Conditioned(1, gz)[..n] == Conditioned(1, gz);
    FrameRunConditioned(1, gz, f, n);
  }
}
