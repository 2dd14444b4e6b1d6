/** Gates and circuit operations as data.

    A circuit program is an ordered list of operations over integer qubit
    indices.  The only gates the error-correcting codes use are H, X, Z and
    CX; every one of them is its own inverse.  Operations add the two
    classical constructs the correction routines emit: a measurement of one
    qubit into one bit of a classical register, and a gate conditioned on the
    whole register holding a given integer. */
module Gates {

  datatype Gate = H(q: nat) | X(q: nat) | Z(q: nat) | CX(c: nat, t: nat)

  datatype Op =
    | Apply(g: Gate)
    | Measure(qubit: nat, reg: nat, bit: nat)
    | IfTest(reg: nat, value: nat, body: Gate)

  /** A gate is placeable on an n-qubit register: indices in range and a CX
      whose control differs from its target. */
  predicate GateFits(g: Gate, n: nat)
  {
    match g
    case CX(c, t) => c < n && t < n && c != t
    case _ => g.q < n
  }

  predicate Fits(c: seq<Gate>, n: nat)
  {
    forall i | 0 <= i < |c| :: GateFits(c[i], n)
  }

  /** Whether the gate acts on qubit j. */
  predicate Touches(g: Gate, j: nat)
  {
    match g
    case CX(c, t) => j == c || j == t
    case _ => j == g.q
  }

  /** An operation is placeable on a circuit of n qubits whose classical
      registers have the sizes in regs. */
  predicate OpFits(op: Op, n: nat, regs: seq<nat>)
  {
    match op
    case Apply(g) => GateFits(g, n)
    case Measure(q, r, b) => q < n && r < |regs| && b < regs[r]
    case IfTest(r, _, g) => r < |regs| && GateFits(g, n)
  }

  predicate OpsFit(ops: seq<Op>, n: nat, regs: seq<nat>)
  {
    forall i | 0 <= i < |ops| :: OpFits(ops[i], n, regs)
  }

  /** The gate list as an operation list. */
  function Lift(c: seq<Gate>): (r: seq<Op>)
    ensures |r| == |c|
    ensures forall i | 0 <= i < |c| :: r[i] == Apply(c[i])
  {
    seq(|c|, i requires 0 <= i < |c| => Apply(c[i]))
  }

  lemma LiftAppend(a: seq<Gate>, b: seq<Gate>)
    ensures Lift(a + b) == Lift(a) + Lift(b)
  {
    assert forall i | 0 <= i < |a| + |b| :: Lift(a + b)[i] == (Lift(a) + Lift(b))[i];
  }

  lemma LiftFits(c: seq<Gate>, n: nat, regs: seq<nat>)
    requires Fits(c, n)
    ensures OpsFit(Lift(c), n, regs)
  {
  }

  /** Reversal of a sequence: element i of the result is element |s|-1-i. */
  function Reverse<T>(s: seq<T>): (r: seq<T>)
    ensures |r| == |s|
    ensures forall i | 0 <= i < |s| :: r[i] == s[|s| - 1 - i]
  {
    if s == [] then [] else Reverse(s[1..]) + [s[0]]
  }

  lemma ReverseFits(c: seq<Gate>, n: nat)
    requires Fits(c, n)
    ensures Fits(Reverse(c), n)
  {
  }

  lemma ReverseAppend<T>(a: seq<T>, b: seq<T>)
    ensures Reverse(a + b) == Reverse(b) + Reverse(a)
  {
    assert forall i | 0 <= i < |a| + |b| :: Reverse(a + b)[i] == (Reverse(b) + Reverse(a))[i];
  }

  lemma ReverseReverse<T>(s: seq<T>)
    ensures Reverse(Reverse(s)) == s
  {
  }

  lemma ReverseLift(c: seq<Gate>)
    ensures Lift(Reverse(c)) == Reverse(Lift(c))
  {
    assert forall i | 0 <= i < |c| :: Lift(Reverse(c))[i] == Reverse(Lift(c))[i];
  }

  /** A lifted gate list holds only gate applications, and reversing it
      lifts the reversed gate list. */
  lemma ReverseOfLifted(c: seq<Gate>, ops: seq<Op>)
    requires ops == Lift(c)
    ensures forall i | 0 <= i < |ops| :: ops[i].Apply?
    ensures Reverse(ops) == Lift(Reverse(c))
  {
    ReverseLift(c);
  }

  /** No two positions of the mapping name the same physical qubit. */
  predicate Injective(m: seq<nat>)
  {
    forall i, j | 0 <= i < j < |m| :: m[i] != m[j]
  }

  predicate MapsInto(m: seq<nat>, n: nat)
  {
    forall k | 0 <= k < |m| :: m[k] < n
  }

  /** Places sub-circuit qubit k on physical qubit m[k]. */
  function RemapGate(g: Gate, m: seq<nat>): Gate
    requires GateFits(g, |m|)
  {
    match g
    case H(q) => H(m[q])
    case X(q) => X(m[q])
    case Z(q) => Z(m[q])
    case CX(c, t) => CX(m[c], m[t])
  }

  function Remap(c: seq<Gate>, m: seq<nat>): (r: seq<Gate>)
    requires Fits(c, |m|)
    ensures |r| == |c|
  {
    seq(|c|, i requires 0 <= i < |c| => RemapGate(c[i], m))
  }

  /** An injective mapping into n qubits turns a circuit that fits the
      sub-register into one that fits the whole register: no CX ends up with
      its control equal to its target. */
  lemma RemapFits(c: seq<Gate>, m: seq<nat>, n: nat)
    requires Fits(c, |m|) && Injective(m) && MapsInto(m, n)
    ensures Fits(Remap(c, m), n)
  {
  }

  /** A remapped gate acts only on qubits of the mapping. */
  lemma RemapTouches(g: Gate, m: seq<nat>, j: nat)
    requires GateFits(g, |m|) && j !in m
    ensures !Touches(RemapGate(g, m), j)
  {
  }

  function RemapOp(op: Op, m: seq<nat>): Op
    requires OpFits(op, |m|, [])
  {
    match op
    case Apply(g) => Apply(RemapGate(g, m))
  }

  function RemapOps(ops: seq<Op>, m: seq<nat>): (r: seq<Op>)
    requires OpsFit(ops, |m|, [])
    ensures |r| == |ops|
  {
    seq(|ops|, i requires 0 <= i < |ops| => RemapOp(ops[i], m))
  }

  lemma RemapLift(c: seq<Gate>, m: seq<nat>)
    requires Fits(c, |m|)
    ensures OpsFit(Lift(c), |m|, [])
    ensures RemapOps(Lift(c), m) == Lift(Remap(c, m))
  {
  }

  /** The identity mapping on the first n qubits. */
  function Range(n: nat): (r: seq<nat>)
    ensures |r| == n && forall k | 0 <= k < n :: r[k] == k
  {
    seq(n, k => k)
  }

  lemma RemapIdentity(c: seq<Gate>, n: nat)
    requires Fits(c, n)
    ensures Remap(c, Range(n)) == c
  {
  }

  function Pow2(k: nat): (r: nat)
    ensures r >= 1
  {
    if k == 0 then 1 else 2 * Pow2(k - 1)
  }

  /** measure(qs, reg): qubit qs[k] into bit k of register reg. */
  function MeasureOps(qs: seq<nat>, reg: nat): (r: seq<Op>)
    ensures |r| == |qs|
    ensures forall k | 0 <= k < |qs| :: r[k] == Measure(qs[k], reg, k)
  {
    seq(|qs|, k requires 0 <= k < |qs| => Measure(qs[k], reg, k))
  }

  /** One if_test per gate: gate k is applied when register reg holds k + 1. */
  function Conditioned(reg: nat, gs: seq<Gate>): (r: seq<Op>)
    ensures |r| == |gs|
    ensures forall k | 0 <= k < |gs| :: r[k] == IfTest(reg, k + 1, gs[k])
  {
    seq(|gs|, k requires 0 <= k < |gs| => IfTest(reg, k + 1, gs[k]))
  }

  /** The integer a classical register holds, as if_test reads it: bit 0 is
      the least significant. */
  function RegValue(bits: seq<bool>): (v: nat)
    ensures v < Pow2(|bits|)
  {
    if bits == [] then 0 else (if bits[0] then 1 else 0) + 2 * RegValue(bits[1..])
  }

  function Zeros(n: nat): (r: seq<bool>)
    ensures |r| == n && forall k | 0 <= k < n :: !r[k]
  {
    seq(n, _ => false)
  }

  /** Zero bits below a register value scale it by a power of two. */
  lemma {:induction false} RegValueShift(k: nat, bits: seq<bool>)
    ensures RegValue(Zeros(k) + bits) == Pow2(k) * RegValue(bits)
  {
    if k == 0 {
      assert Zeros(k) + bits == bits;
    } else {
      var s := Zeros(k) + bits;
      assert s[0] == false && s[1..] == Zeros(k - 1) + bits;
      RegValueShift(k - 1, bits);
      var p, v, w := Pow2(k - 1), RegValue(bits), RegValue(s[1..]);
      assert RegValue(s) == 2 * w;
      assert w == p * v;
      MulAssoc2(p, v);
    }
  }

  lemma MulAssoc2(p: nat, v: nat)
    ensures 2 * (p * v) == (2 * p) * v
  {
  }

  /** Zero bits above a register value do not change it. */
  lemma {:induction false} RegValuePad(bits: seq<bool>, n: nat)
    ensures RegValue(bits + Zeros(n)) == RegValue(bits)
  {
    if bits == [] {
      if n > 0 {
        assert Zeros(n)[1..] == Zeros(n - 1);
        RegValuePad([], n - 1);
        assert [] + Zeros(n - 1) == Zeros(n - 1);
      }
      assert [] + Zeros(n) == Zeros(n);
    } else {
      assert (bits + Zeros(n))[1..] == bits[1..] + Zeros(n);
      RegValuePad(bits[1..], n);
    }
  }

  /** CX from one control onto each target in turn. */
  function FanOut(c: nat, ts: seq<nat>): (r: seq<Gate>)
    ensures |r| == |ts|
    ensures forall k | 0 <= k < |ts| :: r[k] == CX(c, ts[k])
  {
    if ts == [] then [] else [CX(c, ts[0])] + FanOut(c, ts[1..])
  }

  /** CX from each control in turn onto one target. */
  function FanIn(cs: seq<nat>, t: nat): (r: seq<Gate>)
    ensures |r| == |cs|
    ensures forall k | 0 <= k < |cs| :: r[k] == CX(cs[k], t)
  {
    if cs == [] then [] else [CX(cs[0], t)] + FanIn(cs[1..], t)
  }

  /** H on each qubit in turn. */
  function HLayer(qs: seq<nat>): (r: seq<Gate>)
    ensures |r| == |qs|
    ensures forall k | 0 <= k < |qs| :: r[k] == H(qs[k])
  {
    if qs == [] then [] else [H(qs[0])] + HLayer(qs[1..])
  }

  /** The XOR of the bits at the listed positions. */
  function Parity(bits: seq<bool>, idx: seq<nat>): bool
    requires MapsInto(idx, |bits|)
  {
    if idx == [] then false else bits[idx[0]] != Parity(bits, idx[1..])
  }

  /** The parity of a one-hot vector over distinct positions is whether the
      hot position is among them. */
  lemma {:induction false} ParityOneHot(bits: seq<bool>, idx: seq<nat>, i: nat)
    requires MapsInto(idx, |bits|) && Injective(idx)
    requires forall j | 0 <= j < |bits| :: bits[j] == (j == i)
    ensures Parity(bits, idx) == (i in idx)
  {
    if idx != [] {
      ParityOneHot(bits, idx[1..], i);
      assert i in idx <==> i == idx[0] || i in idx[1..];
    }
  }

  lemma ParityPair(bits: seq<bool>, a: nat, b: nat)
    requires a < |bits| && b < |bits|
    ensures Parity(bits, [a, b]) == (bits[a] != bits[b])
  {
    calc {
      Parity(bits, [a, b]);
      bits[a] != Parity(bits, [a, b][1..]);
      { assert [a, b][1..] == [b]; }
      bits[a] != Parity(bits, [b]);
      { assert [b][1..] == []; }
      bits[a] != (bits[b] != Parity(bits, []));
    }
  }

  lemma ParityQuad(bits: seq<bool>, a: nat, b: nat, c: nat, d: nat)
    requires a < |bits| && b < |bits| && c < |bits| && d < |bits|
    ensures Parity(bits, [a, b, c, d]) == (bits[a] != (bits[b] != (bits[c] != bits[d])))
  {
    assert [a, b, c, d][1..] == [b, c, d];
    assert [b, c, d][1..] == [c, d];
    ParityPair(bits, c, d);
  }

  /** Parity reads only the listed positions. */
  lemma {:induction false} ParityFrame(a: seq<bool>, b: seq<bool>, idx: seq<nat>)
    requires MapsInto(idx, |a|) && MapsInto(idx, |b|)
    requires forall k | 0 <= k < |idx| :: a[idx[k]] == b[idx[k]]
    ensures Parity(a, idx) == Parity(b, idx)
  {
    if idx != [] {
      ParityFrame(a, b, idx[1..]);
    }
  }
}
