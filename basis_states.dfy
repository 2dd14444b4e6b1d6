/** Computational-basis semantics of circuits without H.

    X flips a bit, CX adds its control into its target, and Z only changes a
    phase, so a circuit of X, Z and CX maps each basis state to one basis
    state.  Measurements are then deterministic and copy a qubit into a
    classical bit, and an if_test applies its gate exactly when the register
    holds the tested value. */
module BasisStates {
  import opened Gates
  import opened PauliFrame

  predicate Classical(c: seq<Gate>)
  {
    forall i | 0 <= i < |c| :: !c[i].H?
  }

  function StepBits(g: Gate, s: seq<bool>): (r: seq<bool>)
    requires GateFits(g, |s|) && !g.H?
    ensures |r| == |s|
  {
    match g
    case X(q) => s[q := !s[q]]
    case Z(_) => s
    case CX(c, t) => s[t := s[t] != s[c]]
  }

  function RunBits(c: seq<Gate>, s: seq<bool>): (r: seq<bool>)
    requires Fits(c, |s|) && Classical(c)
    ensures |r| == |s|
  {
    if c == [] then s else RunBits(c[1..], StepBits(c[0], s))
  }

  lemma {:induction false} RunBitsAppend(a: seq<Gate>, b: seq<Gate>, s: seq<bool>)
    requires Fits(a, |s|) && Fits(b, |s|) && Classical(a) && Classical(b)
    ensures Fits(a + b, |s|) && Classical(a + b)
    ensures RunBits(a + b, s) == RunBits(b, RunBits(a, s))
  {
    if a == [] {
      assert a + b == b;
    } else {
      assert (a + b)[0] == a[0];
      assert (a + b)[1..] == a[1..] + b;
      RunBitsAppend(a[1..], b, StepBits(a[0], s));
    }
  }

  /** On a circuit of CX gates the basis-state run is the x-part of the
      Pauli frame: a bit flip on the input travels exactly as an X error
      does. */
  lemma {:induction false} RunBitsIsFrameX(c: seq<Gate>, p: Pauli)
    requires Sized(p, |p.x|) && Fits(c, |p.x|)
    requires forall i | 0 <= i < |c| :: c[i].CX?
    ensures Classical(c)
    ensures Conj(c, p).x == RunBits(c, p.x)
  {
    if c != [] {
      assert ConjGate(c[0], p).x == StepBits(c[0], p.x);
      RunBitsIsFrameX(c[1..], ConjGate(c[0], p));
    }
  }

  /** Qubit values and classical registers of one basis-state run. */
  datatype Machine = Machine(q: seq<bool>, regs: seq<seq<bool>>)

  function RegSizes(regs: seq<seq<bool>>): (r: seq<nat>)
    ensures |r| == |regs| && forall k | 0 <= k < |regs| :: r[k] == |regs[k]|
  {
    seq(|regs|, k requires 0 <= k < |regs| => |regs[k]|)
  }

  predicate ClassicalOp(op: Op)
  {
    match op
    case Apply(g) => !g.H?
    case Measure(_, _, _) => true
    case IfTest(_, _, g) => !g.H?
  }

  function Step(op: Op, m: Machine): (r: Machine)
    requires OpFits(op, |m.q|, RegSizes(m.regs)) && ClassicalOp(op)
    ensures |r.q| == |m.q| && RegSizes(r.regs) == RegSizes(m.regs)
  {
    match op
    case Apply(g) => m.(q := StepBits(g, m.q))
    case Measure(q, r, b) => m.(regs := m.regs[r := m.regs[r][b := m.q[q]]])
    case IfTest(r, v, g) => if RegValue(m.regs[r]) == v then m.(q := StepBits(g, m.q)) else m
  }

  function Run(ops: seq<Op>, m: Machine): (r: Machine)
    requires OpsFit(ops, |m.q|, RegSizes(m.regs))
    requires forall i | 0 <= i < |ops| :: ClassicalOp(ops[i])
    ensures |r.q| == |m.q| && RegSizes(r.regs) == RegSizes(m.regs)
  {
    if ops == [] then m else Run(ops[1..], Step(ops[0], m))
  }

  lemma {:induction false} RunAppend(a: seq<Op>, b: seq<Op>, m: Machine)
    requires OpsFit(a, |m.q|, RegSizes(m.regs)) && OpsFit(b, |m.q|, RegSizes(m.regs))
    requires forall i | 0 <= i < |a| :: ClassicalOp(a[i])
    requires forall i | 0 <= i < |b| :: ClassicalOp(b[i])
    ensures OpsFit(a + b, |m.q|, RegSizes(m.regs))
    ensures Run(a + b, m) == Run(b, Run(a, m))
  {
    if a == [] {
      assert a + b == b;
    } else {
      assert (a + b)[0] == a[0];
      assert (a + b)[1..] == a[1..] + b;
      RunAppend(a[1..], b, Step(a[0], m));
    }
  }

  /** Running a lifted gate list changes only the qubits, as RunBits says. */
  lemma {:induction false} RunLift(c: seq<Gate>, m: Machine)
    requires Fits(c, |m.q|) && Classical(c)
    ensures OpsFit(Lift(c), |m.q|, RegSizes(m.regs))
    ensures forall i | 0 <= i < |Lift(c)| :: ClassicalOp(Lift(c)[i])
    ensures Run(Lift(c), m) == Machine(RunBits(c, m.q), m.regs)
  {
    LiftFits(c, |m.q|, RegSizes(m.regs));
    if c != [] {
      assert Lift(c)[1..] == Lift(c[1..]);
      RunLift(c[1..], m.(q := StepBits(c[0], m.q)));
    }
  }

  /** A two-gate list runs gate by gate. */
  lemma RunBits2(g0: Gate, g1: Gate, s: seq<bool>)
    requires GateFits(g0, |s|) && GateFits(g1, |s|) && !g0.H? && !g1.H?
    ensures Fits([g0, g1], |s|) && Classical([g0, g1])
    ensures RunBits([g0, g1], s) == StepBits(g1, StepBits(g0, s))
  {
    var s1 := StepBits(g0, s);
    assert [g0, g1][1..] == [g1];
    assert RunBits([g1], s1) == StepBits(g1, s1);
  }

  /** Two CX gates onto distinct targets, where the second control is not the
      first target, each add their control into their target. */
  lemma CXPairBits(c1: nat, t1: nat, c2: nat, t2: nat, s: seq<bool>)
    requires c1 < |s| && t1 < |s| && c2 < |s| && t2 < |s| && c1 != t1 && c2 != t2
    requires t1 != t2 && c2 != t1
    ensures Fits([CX(c1, t1), CX(c2, t2)], |s|) && Classical([CX(c1, t1), CX(c2, t2)])
    ensures var r := RunBits([CX(c1, t1), CX(c2, t2)], s);
            r[t1] == (s[t1] != s[c1]) && r[t2] == (s[t2] != s[c2])
            && forall j | 0 <= j < |s| && j != t1 && j != t2 :: r[j] == s[j]
  {
    RunBits2(CX(c1, t1), CX(c2, t2), s);
  }

  /** A gate list lifted to operations and followed by more operations
      runs the gates on the qubits first. */
  lemma RunLiftThen(c: seq<Gate>, ops: seq<Op>, m: Machine)
    requires Fits(c, |m.q|) && Classical(c)
    requires OpsFit(ops, |m.q|, RegSizes(m.regs)) && forall i | 0 <= i < |ops| :: ClassicalOp(ops[i])
    ensures OpsFit(Lift(c) + ops, |m.q|, RegSizes(m.regs))
    ensures forall i | 0 <= i < |Lift(c) + ops| :: ClassicalOp((Lift(c) + ops)[i])
    ensures Run(Lift(c) + ops, m) == Run(ops, Machine(RunBits(c, m.q), m.regs))
  {
    RunLift(c, m);
    RunAppend(Lift(c), ops, m);
  }

  lemma RunBitsAppend3(a: seq<Gate>, b: seq<Gate>, c: seq<Gate>, s: seq<bool>)
    requires Fits(a, |s|) && Fits(b, |s|) && Fits(c, |s|) && Classical(a) && Classical(b) && Classical(c)
    ensures Fits(a + b + c, |s|) && Classical(a + b + c)
    ensures RunBits(a + b + c, s) == RunBits(c, RunBits(b, RunBits(a, s)))
  {
    RunBitsAppend(a, b, s);
    RunBitsAppend(a + b, c, s);
  }

  lemma RunBitsFirst(c: seq<Gate>, s: seq<bool>)
    requires Fits(c, |s|) && Classical(c) && c != []
    ensures RunBits(c, s) == RunBits(c[1..], StepBits(c[0], s))
  {
  }

  /** On basis states a fan-out adds the control bit into every target. */
  lemma FanOutBits(c: nat, ts: seq<nat>, s: seq<bool>)
    requires c < |s| && MapsInto(ts, |s|) && Injective(ts) && c !in ts
    ensures Fits(FanOut(c, ts), |s|) && Classical(FanOut(c, ts))
    ensures forall j | 0 <= j < |s| :: RunBits(FanOut(c, ts), s)[j] == (s[j] != (j in ts && s[c]))
  {
    var p := Pauli(s, seq(|s|, _ => false), false);
    FanOutConj(c, ts, p);
    RunBitsIsFrameX(FanOut(c, ts), p);
  }

  /** On basis states a fan-in adds the parity of the controls into the
      target. */
  lemma FanInBits(cs: seq<nat>, t: nat, s: seq<bool>)
    requires t < |s| && MapsInto(cs, |s|) && Injective(cs) && t !in cs
    ensures Fits(FanIn(cs, t), |s|) && Classical(FanIn(cs, t))
    ensures forall j | 0 <= j < |s| :: RunBits(FanIn(cs, t), s)[j] == (s[j] != (j == t && Parity(s, cs)))
  {
    var p := Pauli(s, seq(|s|, _ => false), false);
    FanInConj(cs, t, p);
    RunBitsIsFrameX(FanIn(cs, t), p);
  }

  /** Measuring qs into register reg copies the qubits into the register and
      changes nothing else. */
  lemma {:induction false} RunMeasure(qs: seq<nat>, reg: nat, m: Machine, n: nat)
    requires reg < |m.regs| && |m.regs[reg]| == |qs| && MapsInto(qs, |m.q|) && n <= |qs|
    ensures OpsFit(MeasureOps(qs, reg)[..n], |m.q|, RegSizes(m.regs))
    ensures forall i | 0 <= i < n :: ClassicalOp(MeasureOps(qs, reg)[..n][i])
    ensures Run(MeasureOps(qs, reg)[..n], m)
         == m.(regs := m.regs[reg := seq(|qs|, k requires 0 <= k < |qs| =>
                                           if k < n then m.q[qs[k]] else m.regs[reg][k])])
  {
    var ops := MeasureOps(qs, reg);
    var updated := seq(|qs|, k requires 0 <= k < |qs| =>
                         if k < n then m.q[qs[k]] else m.regs[reg][k]);
    if n == 0 {
      assert updated == m.regs[reg];
      assert m.regs[reg := updated] == m.regs;
    } else {
      RunMeasure(qs, reg, m, n - 1);
      var before := seq(|qs|, k requires 0 <= k < |qs| =>
                          if k < n - 1 then m.q[qs[k]] else m.regs[reg][k]);
      var mid := m.(regs := m.regs[reg := before]);
      assert before[n - 1 := m.q[qs[n - 1]]] == updated;
      assert Step(ops[n - 1], mid) == m.(regs := m.regs[reg := updated]);
      assert ops[..n] == ops[..n - 1] + [ops[n - 1]];
      RunAppend(ops[..n - 1], [ops[n - 1]], m);
    }
  }

  lemma RunMeasureAll(qs: seq<nat>, reg: nat, m: Machine)
    requires reg < |m.regs| && |m.regs[reg]| == |qs| && MapsInto(qs, |m.q|)
    ensures OpsFit(MeasureOps(qs, reg), |m.q|, RegSizes(m.regs))
    ensures forall i | 0 <= i < |qs| :: ClassicalOp(MeasureOps(qs, reg)[i])
    ensures Run(MeasureOps(qs, reg), m)
         == m.(regs := m.regs[reg := seq(|qs|, k requires 0 <= k < |qs| => m.q[qs[k]])])
  {
    RunMeasure(qs, reg, m, |qs|);
    assert MeasureOps(qs, reg)[..|qs|] == MeasureOps(qs, reg);
    var got := Run(MeasureOps(qs, reg), m).regs[reg];
    var want := seq(|qs|, k requires 0 <= k < |qs| => m.q[qs[k]]);
    assert got == want;
    assert Run(MeasureOps(qs, reg), m).regs == m.regs[reg := want];
  }

  /** A run of conditioned gates applies gate v - 1 when the register holds
      v in 1..n and nothing otherwise. */
  lemma {:induction false} RunConditioned(reg: nat, gs: seq<Gate>, m: Machine, n: nat)
    requires reg < |m.regs| && Fits(gs, |m.q|) && Classical(gs) && n <= |gs|
    ensures OpsFit(Conditioned(reg, gs)[..n], |m.q|, RegSizes(m.regs))
    ensures forall i | 0 <= i < n :: ClassicalOp(Conditioned(reg, gs)[..n][i])
    ensures var v := RegValue(m.regs[reg]);
            Run(Conditioned(reg, gs)[..n], m)
            == if 1 <= v <= n then m.(q := StepBits(gs[v - 1], m.q)) else m
  {
    var ops := Conditioned(reg, gs);
    if n > 0 {
      RunConditioned(reg, gs, m, n - 1);
      assert ops[..n] == ops[..n - 1] + [ops[n - 1]];
      RunAppend(ops[..n - 1], [ops[n - 1]], m);
    }
  }

  /** The whole conditioned list: gate v - 1 runs when the register holds v
      in 1..|gs|, and nothing runs otherwise. */
  lemma RunConditionedAll(reg: nat, gs: seq<Gate>, m: Machine)
    requires reg < |m.regs| && Fits(gs, |m.q|) && Classical(gs)
    ensures OpsFit(Conditioned(reg, gs), |m.q|, RegSizes(m.regs))
    ensures forall i | 0 <= i < |gs| :: ClassicalOp(Conditioned(reg, gs)[i])
    ensures var v := RegValue(m.regs[reg]);
            Run(Conditioned(reg, gs), m)
            == if 1 <= v <= |gs| then m.(q := StepBits(gs[v - 1], m.q)) else m
  {
    RunConditioned(reg, gs, m, |gs|);
    assert Conditioned(reg, gs)[..|gs|] == Conditioned(reg, gs);
  }
}
