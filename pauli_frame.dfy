/** Heisenberg-picture semantics of H/X/Z/CX circuits.

    A signed Pauli operator on n qubits is written (-1)^neg * P_0 ... P_{n-1}
    with P_j = X if only x[j], Z if only z[j], Y if both and I if neither.
    Conjugating by a Clifford gate maps signed Paulis to signed Paulis; the
    sign rules are those of the stabilizer tableau (Aaronson and Gottesman,
    2004).  A circuit U = g_k ... g_1 (g_1 applied first) acts by
    P |-> U P U^dagger, which is conjugation by g_1 first.

    Two circuits that conjugate every signed Pauli the same way are equal up
    to a global phase, so equalities of Conj give exact circuit identities.
    Without the sign the same map tracks an error frame: an error E inserted
    before U becomes U E U^dagger after it, and a Z-basis measurement of a
    qubit on which the ideal outcome is determined flips exactly when that
    error has an x-bit there. */
module PauliFrame {
  import opened Gates

  datatype Pauli = Pauli(x: seq<bool>, z: seq<bool>, neg: bool)

  predicate Sized(p: Pauli, n: nat)
  {
    |p.x| == n && |p.z| == n
  }

  function Identity(n: nat): (p: Pauli)
    ensures Sized(p, n) && !p.neg
    ensures forall j | 0 <= j < n :: !p.x[j] && !p.z[j]
  {
    Pauli(seq(n, _ => false), seq(n, _ => false), false)
  }

  /** X on qubit q alone. */
  function XOn(n: nat, q: nat): (p: Pauli)
    requires q < n
    ensures Sized(p, n) && !p.neg
    ensures forall j | 0 <= j < n :: p.x[j] == (j == q) && !p.z[j]
  {
    Pauli(seq(n, j => j == q), seq(n, _ => false), false)
  }

  /** Z on qubit q alone. */
  function ZOn(n: nat, q: nat): (p: Pauli)
    requires q < n
    ensures Sized(p, n) && !p.neg
    ensures forall j | 0 <= j < n :: !p.x[j] && p.z[j] == (j == q)
  {
    Pauli(seq(n, _ => false), seq(n, j => j == q), false)
  }

  /** X on the qubits marked in xs. */
  function XType(xs: seq<bool>): (p: Pauli)
    ensures Sized(p, |xs|) && p.x == xs && !p.neg
    ensures forall j | 0 <= j < |xs| :: !p.z[j]
  {
    Pauli(xs, seq(|xs|, _ => false), false)
  }

  /** Z on the qubits marked in zs. */
  function ZType(zs: seq<bool>): (p: Pauli)
    ensures Sized(p, |zs|) && p.z == zs && !p.neg
    ensures forall j | 0 <= j < |zs| :: !p.x[j]
  {
    Pauli(seq(|zs|, _ => false), zs, false)
  }

  /** The product of Z's on the qubits of qs. */
  function ZOnSet(n: nat, qs: set<nat>): (p: Pauli)
    ensures Sized(p, n) && !p.neg
    ensures forall j | 0 <= j < n :: !p.x[j] && p.z[j] == (j in qs)
  {
    ZType(seq(n, j => j in qs))
  }

  /** The product of two Paulis up to phase: the error frame of two errors. */
  function Combine(p: Pauli, r: Pauli): (s: Pauli)
    requires |p.x| == |r.x| && |p.z| == |r.z|
    ensures |s.x| == |p.x| && |s.z| == |p.z|
    ensures forall j | 0 <= j < |p.x| :: s.x[j] == (p.x[j] != r.x[j])
    ensures forall j | 0 <= j < |p.z| :: s.z[j] == (p.z[j] != r.z[j])
  {
    Pauli(seq(|p.x|, j requires 0 <= j < |p.x| => p.x[j] != r.x[j]),
          seq(|p.z|, j requires 0 <= j < |p.z| => p.z[j] != r.z[j]),
          p.neg != r.neg)
  }

  /** Equal up to sign: the same error frame. */
  predicate SameFrame(p: Pauli, r: Pauli)
  {
    p.x == r.x && p.z == r.z
  }

  /** g P g^dagger. */
  function ConjGate(g: Gate, p: Pauli): (r: Pauli)
    requires Sized(p, |p.x|) && GateFits(g, |p.x|)
    ensures Sized(r, |p.x|)
  {
    match g
    case H(q) => Pauli(p.x[q := p.z[q]], p.z[q := p.x[q]], p.neg != (p.x[q] && p.z[q]))
    case X(q) => Pauli(p.x, p.z, p.neg != p.z[q])
    case Z(q) => Pauli(p.x, p.z, p.neg != p.x[q])
    case CX(c, t) =>
      Pauli(p.x[t := p.x[t] != p.x[c]], p.z[c := p.z[c] != p.z[t]],
            p.neg != (p.x[c] && p.z[t] && p.x[t] == p.z[c]))
  }

  /** U P U^dagger for the circuit U that runs c[0] first. */
  function Conj(c: seq<Gate>, p: Pauli): (r: Pauli)
    requires Sized(p, |p.x|) && Fits(c, |p.x|)
    ensures Sized(r, |p.x|)
  {
    if c == [] then p else Conj(c[1..], ConjGate(c[0], p))
  }

  /** Running a + b is running a, then b. */
  lemma {:induction false} ConjAppend(a: seq<Gate>, b: seq<Gate>, p: Pauli)
    requires Sized(p, |p.x|) && Fits(a, |p.x|) && Fits(b, |p.x|)
    ensures Fits(a + b, |p.x|)
    ensures Conj(a + b, p) == Conj(b, Conj(a, p))
  {
    if a == [] {
      assert a + b == b;
    } else {
      var q := ConjGate(a[0], p);
      assert (a + b)[0] == a[0];
      assert (a + b)[1..] == a[1..] + b;
      ConjAppend(a[1..], b, q);
      calc {
        Conj(a + b, p);
        Conj(a[1..] + b, q);
        Conj(b, Conj(a[1..], q));
        Conj(b, Conj(a, p));
      }
    }
  }

  /** Every gate is self-inverse: conjugating twice gives back the Pauli,
      sign included. */
  lemma ConjGateInvolution(g: Gate, p: Pauli)
    requires Sized(p, |p.x|) && GateFits(g, |p.x|)
    ensures ConjGate(g, ConjGate(g, p)) == p
  {
    match g
    case H(q) =>
    case X(q) =>
    case Z(q) =>
    case CX(c, t) =>
  }

  /** The reversed gate list undoes the circuit: this is Qiskit's inverse()
      for circuits built only from self-inverse gates. */
  lemma {:induction false} ReverseUndoes(c: seq<Gate>, p: Pauli)
    requires Sized(p, |p.x|) && Fits(c, |p.x|)
    ensures Fits(Reverse(c), |p.x|)
    ensures Conj(Reverse(c), Conj(c, p)) == p
  {
    ReverseFits(c, |p.x|);
    if c != [] {
      var q := ConjGate(c[0], p);
      calc {
        Conj(Reverse(c), Conj(c, p));
        Conj(Reverse(c[1..]) + [c[0]], Conj(c[1..], q));
        { ReverseFits(c[1..], |p.x|); ConjAppend(Reverse(c[1..]), [c[0]], Conj(c[1..], q)); }
        Conj([c[0]], Conj(Reverse(c[1..]), Conj(c[1..], q)));
        { ReverseUndoes(c[1..], q); }
        Conj([c[0]], q);
        { ConjGateInvolution(c[0], p); }
        p;
      }
    }
  }

  /** Two gates commute as operators when they share no qubit, or when both
      are CXs and neither one's control is the other's target. */
  predicate Commute(g: Gate, h: Gate)
  {
    if g.CX? && h.CX? then g.c != h.t && h.c != g.t
    else if g.CX? then h.q != g.c && h.q != g.t
    else if h.CX? then g.q != h.c && g.q != h.t
    else g.q != h.q
  }

  lemma ConjGateCommute(g: Gate, h: Gate, p: Pauli)
    requires Sized(p, |p.x|) && GateFits(g, |p.x|) && GateFits(h, |p.x|)
    requires Commute(g, h)
    ensures ConjGate(h, ConjGate(g, p)) == ConjGate(g, ConjGate(h, p))
  {
    if g.CX? && h.CX? {
      ConjCommuteCX(g.c, g.t, h.c, h.t, p);
    } else if g.CX? {
      ConjCommuteSingleCX(h, g.c, g.t, p);
    } else if h.CX? {
      ConjCommuteSingleCX(g, h.c, h.t, p);
    } else {
      var a := ConjGate(h, ConjGate(g, p));
      var b := ConjGate(g, ConjGate(h, p));
      assert a.x == b.x && a.z == b.z;
    }
  }

  lemma ConjCommuteCX(c1: nat, t1: nat, c2: nat, t2: nat, p: Pauli)
    requires Sized(p, |p.x|) && GateFits(CX(c1, t1), |p.x|) && GateFits(CX(c2, t2), |p.x|)
    requires c1 != t2 && c2 != t1
    ensures ConjGate(CX(c2, t2), ConjGate(CX(c1, t1), p)) == ConjGate(CX(c1, t1), ConjGate(CX(c2, t2), p))
  {
    CommuteCXOnX(c1, t1, c2, t2, p);
    CommuteCXOnZ(c1, t1, c2, t2, p);
    // the sign of each gate reads only bits the other one leaves alone
    var q1 := ConjGate(CX(c1, t1), p);
    var q2 := ConjGate(CX(c2, t2), p);
    assert q1.x[c2] == p.x[c2] && q1.z[t2] == p.z[t2];
    assert q2.x[c1] == p.x[c1] && q2.z[t1] == p.z[t1];
  }

  lemma CommuteCXOnX(c1: nat, t1: nat, c2: nat, t2: nat, p: Pauli)
    requires Sized(p, |p.x|) && GateFits(CX(c1, t1), |p.x|) && GateFits(CX(c2, t2), |p.x|)
    requires c1 != t2 && c2 != t1
    ensures ConjGate(CX(c2, t2), ConjGate(CX(c1, t1), p)).x == ConjGate(CX(c1, t1), ConjGate(CX(c2, t2), p)).x
  {
    assert ConjGate(CX(c1, t1), p).x[c2] == p.x[c2];
    assert ConjGate(CX(c2, t2), p).x[c1] == p.x[c1];
  }

  lemma CommuteCXOnZ(c1: nat, t1: nat, c2: nat, t2: nat, p: Pauli)
    requires Sized(p, |p.x|) && GateFits(CX(c1, t1), |p.x|) && GateFits(CX(c2, t2), |p.x|)
    requires c1 != t2 && c2 != t1
    ensures ConjGate(CX(c2, t2), ConjGate(CX(c1, t1), p)).z == ConjGate(CX(c1, t1), ConjGate(CX(c2, t2), p)).z
  {
    assert ConjGate(CX(c1, t1), p).z[t2] == p.z[t2];
    assert ConjGate(CX(c2, t2), p).z[t1] == p.z[t1];
  }

  lemma ConjCommuteSingleCX(g: Gate, c: nat, t: nat, p: Pauli)
    requires Sized(p, |p.x|) && GateFits(g, |p.x|) && GateFits(CX(c, t), |p.x|)
    requires !g.CX? && g.q != c && g.q != t
    ensures ConjGate(g, ConjGate(CX(c, t), p)) == ConjGate(CX(c, t), ConjGate(g, p))
  {
    var a := ConjGate(g, ConjGate(CX(c, t), p));
    var b := ConjGate(CX(c, t), ConjGate(g, p));
    assert a.x == b.x;
    assert a.z == b.z;
  }

  /** A gate that commutes with every gate of a list can be moved from its
      front to its back. */
  lemma {:induction false} ConjMoveToBack(g: Gate, c: seq<Gate>, p: Pauli)
    requires Sized(p, |p.x|) && GateFits(g, |p.x|) && Fits(c, |p.x|)
    requires forall i | 0 <= i < |c| :: Commute(g, c[i])
    ensures Fits([g] + c, |p.x|) && Fits(c + [g], |p.x|)
    ensures Conj([g] + c, p) == Conj(c + [g], p)
  {
    if c != [] {
      var h := c[0];
      ConjGateCommute(g, h, p);
      calc {
        Conj([g] + c, p);
        { assert ([g] + c)[1..] == c; }
        Conj(c, ConjGate(g, p));
        Conj(c[1..], ConjGate(h, ConjGate(g, p)));
        Conj(c[1..], ConjGate(g, ConjGate(h, p)));
        { assert ([g] + c[1..])[1..] == c[1..]; }
        Conj([g] + c[1..], ConjGate(h, p));
        { ConjMoveToBack(g, c[1..], ConjGate(h, p)); }
        Conj(c[1..] + [g], ConjGate(h, p));
        { assert (c + [g])[1..] == c[1..] + [g]; }
        Conj(c + [g], p);
      }
    }
  }

  /** Every two gates of the list commute. */
  predicate PairwiseCommute(c: seq<Gate>)
  {
    forall i, j | 0 <= i < j < |c| :: Commute(c[i], c[j])
  }

  /** A list of pairwise commuting gates acts the same in either order:
      for such a list the reversed list, Qiskit's inverse(), is the same
      circuit. */
  lemma {:induction false} ReverseCommuting(c: seq<Gate>, p: Pauli)
    requires Sized(p, |p.x|) && Fits(c, |p.x|) && PairwiseCommute(c)
    ensures Fits(Reverse(c), |p.x|)
    ensures Conj(Reverse(c), p) == Conj(c, p)
  {
    ReverseFits(c, |p.x|);
    if c != [] {
      var g, rest := c[0], c[1..];
      assert c == [g] + rest;
      assert forall i | 0 <= i < |rest| :: Commute(g, rest[i]) by {
        forall i | 0 <= i < |rest| ensures Commute(g, rest[i]) {
          assert rest[i] == c[i + 1];
        }
      }
      ConjMoveToBack(g, rest, p);
      ConjAppend(rest, [g], p);
      ReverseFits(rest, |p.x|);
      ConjAppend(Reverse(rest), [g], p);
      assert PairwiseCommute(rest) by {
        forall i, j | 0 <= i < j < |rest| ensures Commute(rest[i], rest[j]) {
          assert rest[i] == c[i + 1] && rest[j] == c[j + 1];
        }
      }
      ReverseCommuting(rest, p);
    }
  }

  /** Two blocks of pairwise commuting gates, run in order, act as the
      reversal of the circuit that runs them the other way round. */
  lemma ReverseOfCommutingBlocks(a: seq<Gate>, b: seq<Gate>, p: Pauli)
    requires Sized(p, |p.x|) && Fits(a, |p.x|) && Fits(b, |p.x|)
    requires PairwiseCommute(a) && PairwiseCommute(b)
    ensures Fits(a + b, |p.x|) && Fits(Reverse(b + a), |p.x|)
    ensures Conj(a + b, p) == Conj(Reverse(b + a), p)
  {
    ReverseAppend(b, a);
    ConjAppend(a, b, p);
    ReverseCommuting(a, p);
    ReverseCommuting(b, Conj(a, p));
    ConjAppend(Reverse(a), Reverse(b), p);
  }

  /** Three blocks of pairwise commuting gates: running the last block
      first and the first two swapped acts as the reversal of a + b + c. */
  lemma ReverseOfCommutingBlocks3(a: seq<Gate>, b: seq<Gate>, c: seq<Gate>, p: Pauli)
    requires Sized(p, |p.x|) && Fits(a, |p.x|) && Fits(b, |p.x|) && Fits(c, |p.x|)
    requires PairwiseCommute(a) && PairwiseCommute(b) && PairwiseCommute(c)
    ensures Fits(c + (b + a), |p.x|) && Fits(Reverse(a + b + c), |p.x|)
    ensures Conj(c + (b + a), p) == Conj(Reverse(a + b + c), p)
  {
    ConjAppend(c, b + a, p);
    ReverseCommuting(c, p);
    ReverseOfCommutingBlocks(b, a, Conj(c, p));
    ReverseAppend(a + b, c);
    ConjAppend(Reverse(c), Reverse(a + b), p);
  }

  /** CXs whose controls all lie in one set and whose targets all lie
      outside it commute pairwise. */
  lemma ControlsApartFromTargets(c: seq<Gate>, controls: set<nat>)
    requires forall i | 0 <= i < |c| :: c[i].CX? && c[i].c in controls && c[i].t !in controls
    ensures PairwiseCommute(c)
  {
  }

  /** H gates on distinct qubits commute. */
  lemma HLayerCommutes(qs: seq<nat>)
    requires Injective(qs)
    ensures PairwiseCommute(HLayer(qs))
  {
  }

  /** CXs sharing their control commute when no target is the control. */
  lemma FanOutCommutes(c: nat, ts: seq<nat>)
    requires c !in ts
    ensures PairwiseCommute(FanOut(c, ts))
  {
    forall i, j | 0 <= i < j < |ts| ensures Commute(FanOut(c, ts)[i], FanOut(c, ts)[j]) {
      assert ts[i] in ts && ts[j] in ts;
    }
  }

  /** CXs sharing their target commute when no control is the target. */
  lemma FanInCommutes(cs: seq<nat>, t: nat)
    requires t !in cs
    ensures PairwiseCommute(FanIn(cs, t))
  {
    forall i, j | 0 <= i < j < |cs| ensures Commute(FanIn(cs, t)[i], FanIn(cs, t)[j]) {
      assert cs[i] in cs && cs[j] in cs;
    }
  }

  /** The x-parts of the error frame combine independently of the order of
      errors: conjugation is linear over the frame product. */
  lemma {:induction false} ConjCombine(c: seq<Gate>, p: Pauli, r: Pauli)
    requires Sized(p, |p.x|) && Sized(r, |p.x|) && Fits(c, |p.x|)
    ensures SameFrame(Conj(c, Combine(p, r)), Combine(Conj(c, p), Conj(c, r)))
  {
    if c != [] {
      var g := c[0];
      ConjGateCombine(g, p, r);
      ConjCombine(c[1..], ConjGate(g, p), ConjGate(g, r));
      ConjSameFrame(c[1..], ConjGate(g, Combine(p, r)), Combine(ConjGate(g, p), ConjGate(g, r)));
    }
  }

  lemma ConjGateCombine(g: Gate, p: Pauli, r: Pauli)
    requires Sized(p, |p.x|) && Sized(r, |p.x|) && GateFits(g, |p.x|)
    ensures SameFrame(ConjGate(g, Combine(p, r)), Combine(ConjGate(g, p), ConjGate(g, r)))
  {
    match g
    case H(q) => CombineH(q, p, r);
    case X(q) =>
    case Z(q) =>
    case CX(c, t) => CombineCX(c, t, p, r);
  }

  lemma CombineH(q: nat, p: Pauli, r: Pauli)
    requires Sized(p, |p.x|) && Sized(r, |p.x|) && q < |p.x|
    ensures SameFrame(ConjGate(H(q), Combine(p, r)), Combine(ConjGate(H(q), p), ConjGate(H(q), r)))
  {
    var a := ConjGate(H(q), Combine(p, r));
    var b := Combine(ConjGate(H(q), p), ConjGate(H(q), r));
    forall j | 0 <= j < |p.x|
      ensures a.x[j] == b.x[j] && a.z[j] == b.z[j]
    {
      if j == q {}
    }
    assert a.x == b.x && a.z == b.z;
  }

  lemma CombineCX(c: nat, t: nat, p: Pauli, r: Pauli)
    requires Sized(p, |p.x|) && Sized(r, |p.x|) && GateFits(CX(c, t), |p.x|)
    ensures SameFrame(ConjGate(CX(c, t), Combine(p, r)), Combine(ConjGate(CX(c, t), p), ConjGate(CX(c, t), r)))
  {
    var s := Combine(p, r);
    var a := ConjGate(CX(c, t), s);
    var b := Combine(ConjGate(CX(c, t), p), ConjGate(CX(c, t), r));
    assert a.x == s.x[t := s.x[t] != s.x[c]];
    forall j | 0 <= j < |p.x|
      ensures a.x[j] == b.x[j] && a.z[j] == b.z[j]
    {
      if j == t {} else if j == c {}
    }
    assert a.x == b.x && a.z == b.z;
  }

  /** The frame part of the result does not depend on the sign. */
  lemma {:induction false} ConjSameFrame(c: seq<Gate>, p: Pauli, r: Pauli)
    requires Sized(p, |p.x|) && SameFrame(p, r) && Fits(c, |p.x|)
    ensures SameFrame(Conj(c, p), Conj(c, r))
  {
    if c != [] {
      ConjSameFrame(c[1..], ConjGate(c[0], p), ConjGate(c[0], r));
    }
  }

  /** The sub-Pauli seen by qubits m[0], ..., m[|m|-1]. */
  function Restrict(p: Pauli, m: seq<nat>): (r: Pauli)
    requires Sized(p, |p.x|) && MapsInto(m, |p.x|)
    ensures Sized(r, |m|) && r.neg == p.neg
    ensures forall k | 0 <= k < |m| :: r.x[k] == p.x[m[k]] && r.z[k] == p.z[m[k]]
  {
    Pauli(seq(|m|, k requires 0 <= k < |m| => p.x[m[k]]),
          seq(|m|, k requires 0 <= k < |m| => p.z[m[k]]), p.neg)
  }

  lemma ConjGateRemap(g: Gate, m: seq<nat>, p: Pauli)
    requires Sized(p, |p.x|) && GateFits(g, |m|) && Injective(m) && MapsInto(m, |p.x|)
    ensures GateFits(RemapGate(g, m), |p.x|)
    ensures Restrict(ConjGate(RemapGate(g, m), p), m) == ConjGate(g, Restrict(p, m))
  {
    var a := Restrict(ConjGate(RemapGate(g, m), p), m);
    var b := ConjGate(g, Restrict(p, m));
    match g
    case H(q) =>
      assert a.x == b.x && a.z == b.z;
    case X(q) =>
      assert a.x == b.x && a.z == b.z;
    case Z(q) =>
      assert a.x == b.x && a.z == b.z;
    case CX(c, t) =>
      assert a.x == b.x && a.z == b.z;
  }

  /** A gate leaves the qubits it does not act on alone. */
  lemma ConjGateOff(g: Gate, p: Pauli, j: nat)
    requires Sized(p, |p.x|) && GateFits(g, |p.x|) && j < |p.x| && !Touches(g, j)
    ensures ConjGate(g, p).x[j] == p.x[j] && ConjGate(g, p).z[j] == p.z[j]
  {
  }

  /** Composing a sub-circuit onto qubits m acts on the restriction to m as
      the sub-circuit acts on its own register. */
  lemma {:induction false} ConjRemap(c: seq<Gate>, m: seq<nat>, p: Pauli)
    requires Sized(p, |p.x|) && Fits(c, |m|) && Injective(m) && MapsInto(m, |p.x|)
    ensures Fits(Remap(c, m), |p.x|)
    ensures Restrict(Conj(Remap(c, m), p), m) == Conj(c, Restrict(p, m))
  {
    RemapFits(c, m, |p.x|);
    if c != [] {
      ConjGateRemap(c[0], m, p);
      assert Remap(c, m)[1..] == Remap(c[1..], m);
      ConjRemap(c[1..], m, ConjGate(RemapGate(c[0], m), p));
    }
  }

  /** ... and leaves every qubit outside m alone. */
  lemma {:induction false} ConjRemapOutside(c: seq<Gate>, m: seq<nat>, p: Pauli, j: nat)
    requires Sized(p, |p.x|) && Fits(c, |m|) && Injective(m) && MapsInto(m, |p.x|)
    requires j < |p.x| && j !in m
    ensures Fits(Remap(c, m), |p.x|)
    ensures Conj(Remap(c, m), p).x[j] == p.x[j] && Conj(Remap(c, m), p).z[j] == p.z[j]
  {
    RemapFits(c, m, |p.x|);
    if c != [] {
      var g := RemapGate(c[0], m);
      RemapTouches(c[0], m, j);
      ConjGateOff(g, p, j);
      assert Remap(c, m)[1..] == Remap(c[1..], m);
      ConjRemapOutside(c[1..], m, ConjGate(g, p), j);
    }
  }

  /** Two adjacent commuting gates can trade places anywhere in a circuit. */
  lemma ConjSwap(a: seq<Gate>, g: Gate, h: Gate, b: seq<Gate>, p: Pauli)
    requires Sized(p, |p.x|) && Fits(a, |p.x|) && Fits(b, |p.x|)
    requires GateFits(g, |p.x|) && GateFits(h, |p.x|) && Commute(g, h)
    ensures Fits(a + [g, h] + b, |p.x|) && Fits(a + [h, g] + b, |p.x|)
    ensures Conj(a + [g, h] + b, p) == Conj(a + [h, g] + b, p)
  {
    var q := Conj(a, p);
    ConjAppend(a, [g, h], p);
    ConjAppend(a, [h, g], p);
    ConjAppend(a + [g, h], b, p);
    ConjAppend(a + [h, g], b, p);
    assert [g, h][1..] == [h] && [h, g][1..] == [g];
    ConjGateCommute(g, h, q);
  }

  lemma ConjAppend3(a: seq<Gate>, b: seq<Gate>, c: seq<Gate>, p: Pauli)
    requires Sized(p, |p.x|) && Fits(a, |p.x|) && Fits(b, |p.x|) && Fits(c, |p.x|)
    ensures Fits(a + b + c, |p.x|)
    ensures Conj(a + b + c, p) == Conj(c, Conj(b, Conj(a, p)))
  {
    ConjAppend(a, b, p);
    ConjAppend(a + b, c, p);
  }

  /** The middle two of four gates trade places when they commute. */
  lemma ConjSwapInner(g0: Gate, g1: Gate, g2: Gate, g3: Gate, p: Pauli)
    requires Sized(p, |p.x|) && GateFits(g0, |p.x|) && GateFits(g1, |p.x|)
    requires GateFits(g2, |p.x|) && GateFits(g3, |p.x|) && Commute(g1, g2)
    ensures Fits([g0, g1, g2, g3], |p.x|) && Fits([g0, g2, g1, g3], |p.x|)
    ensures Conj([g0, g1, g2, g3], p) == Conj([g0, g2, g1, g3], p)
  {
    ConjSwap([g0], g1, g2, [g3], p);
    assert [g0] + [g1, g2] + [g3] == [g0, g1, g2, g3];
    assert [g0] + [g2, g1] + [g3] == [g0, g2, g1, g3];
  }

  /** Conjugation through c[0] first and then the rest, as one step. */
  lemma ConjFirst(c: seq<Gate>, p: Pauli)
    requires Sized(p, |p.x|) && Fits(c, |p.x|) && c != []
    ensures Conj(c, p) == Conj(c[1..], ConjGate(c[0], p))
  {
  }

  /** A fan-out copies the control's X onto every target and collects the
      targets' Z onto the control. */
  lemma {:induction false} FanOutConj(c: nat, ts: seq<nat>, p: Pauli)
    requires Sized(p, |p.x|) && c < |p.x| && MapsInto(ts, |p.x|) && Injective(ts) && c !in ts
    ensures Fits(FanOut(c, ts), |p.x|)
    ensures forall j | 0 <= j < |p.x| ::
              Conj(FanOut(c, ts), p).x[j] == (p.x[j] != (j in ts && p.x[c]))
    ensures forall j | 0 <= j < |p.x| ::
              Conj(FanOut(c, ts), p).z[j] == (p.z[j] != (j == c && Parity(p.z, ts)))
  {
    if ts != [] {
      var t0, rest := ts[0], ts[1..];
      var q := ConjGate(CX(c, t0), p);
      assert FanOut(c, ts) == [CX(c, t0)] + FanOut(c, rest);
      FanOutConj(c, rest, q);
      ParityFrame(q.z, p.z, rest);
      forall j | 0 <= j < |p.x|
        ensures j in ts <==> j == t0 || j in rest
      {
      }
    }
  }

  /** No sign appears in a fan-out when the control has no X or the targets
      have no Z. */
  lemma {:induction false} FanOutSign(c: nat, ts: seq<nat>, p: Pauli)
    requires Sized(p, |p.x|) && c < |p.x| && MapsInto(ts, |p.x|) && Injective(ts) && c !in ts
    requires !p.x[c] || forall k | 0 <= k < |ts| :: !p.z[ts[k]]
    ensures Fits(FanOut(c, ts), |p.x|)
    ensures Conj(FanOut(c, ts), p).neg == p.neg
  {
    FanOutConj(c, ts, p);
    if ts != [] {
      var t0, rest := ts[0], ts[1..];
      var q := ConjGate(CX(c, t0), p);
      assert FanOut(c, ts) == [CX(c, t0)] + FanOut(c, rest);
      assert q.x[c] == p.x[c];
      assert forall k | 0 <= k < |rest| :: q.z[rest[k]] == p.z[ts[k + 1]];
      FanOutSign(c, rest, q);
    }
  }

  /** A fan-in collects the controls' X onto the target and copies the
      target's Z onto every control. */
  lemma {:induction false} FanInConj(cs: seq<nat>, t: nat, p: Pauli)
    requires Sized(p, |p.x|) && t < |p.x| && MapsInto(cs, |p.x|) && Injective(cs) && t !in cs
    ensures Fits(FanIn(cs, t), |p.x|)
    ensures forall j | 0 <= j < |p.x| ::
              Conj(FanIn(cs, t), p).x[j] == (p.x[j] != (j == t && Parity(p.x, cs)))
    ensures forall j | 0 <= j < |p.x| ::
              Conj(FanIn(cs, t), p).z[j] == (p.z[j] != (j in cs && p.z[t]))
  {
    if cs != [] {
      var c0, rest := cs[0], cs[1..];
      var q := ConjGate(CX(c0, t), p);
      assert FanIn(cs, t) == [CX(c0, t)] + FanIn(rest, t);
      FanInConj(rest, t, q);
      ParityFrame(q.x, p.x, rest);
      forall j | 0 <= j < |p.x|
        ensures j in cs <==> j == c0 || j in rest
      {
      }
    }
  }

  /** No sign appears in a fan-in when the target has no Z or the controls
      have no X. */
  lemma {:induction false} FanInSign(cs: seq<nat>, t: nat, p: Pauli)
    requires Sized(p, |p.x|) && t < |p.x| && MapsInto(cs, |p.x|) && Injective(cs) && t !in cs
    requires !p.z[t] || forall k | 0 <= k < |cs| :: !p.x[cs[k]]
    ensures Fits(FanIn(cs, t), |p.x|)
    ensures Conj(FanIn(cs, t), p).neg == p.neg
  {
    FanInConj(cs, t, p);
    if cs != [] {
      var c0, rest := cs[0], cs[1..];
      var q := ConjGate(CX(c0, t), p);
      assert FanIn(cs, t) == [CX(c0, t)] + FanIn(rest, t);
      assert q.z[t] == p.z[t];
      assert forall k | 0 <= k < |rest| :: q.x[rest[k]] == p.x[cs[k + 1]];
      FanInSign(rest, t, q);
    }
  }

  /** An H layer swaps the X and Z parts on its qubits. */
  lemma {:induction false} HLayerConj(qs: seq<nat>, p: Pauli)
    requires Sized(p, |p.x|) && MapsInto(qs, |p.x|) && Injective(qs)
    ensures Fits(HLayer(qs), |p.x|)
    ensures forall j | 0 <= j < |p.x| ::
              Conj(HLayer(qs), p).x[j] == (if j in qs then p.z[j] else p.x[j])
              && Conj(HLayer(qs), p).z[j] == (if j in qs then p.x[j] else p.z[j])
  {
    if qs != [] {
      var q := ConjGate(H(qs[0]), p);
      assert HLayer(qs) == [H(qs[0])] + HLayer(qs[1..]);
      HLayerConj(qs[1..], q);
      forall j | 0 <= j < |p.x|
        ensures j in qs <==> j == qs[0] || j in qs[1..]
      {
      }
    }
  }

  /** No sign appears in an H layer when none of its qubits carries Y. */
  lemma {:induction false} HLayerSign(qs: seq<nat>, p: Pauli)
    requires Sized(p, |p.x|) && MapsInto(qs, |p.x|) && Injective(qs)
    requires forall k | 0 <= k < |qs| :: !(p.x[qs[k]] && p.z[qs[k]])
    ensures Fits(HLayer(qs), |p.x|)
    ensures Conj(HLayer(qs), p).neg == p.neg
  {
    if qs != [] {
      var q := ConjGate(H(qs[0]), p);
      assert HLayer(qs) == [H(qs[0])] + HLayer(qs[1..]);
      assert forall k | 0 <= k < |qs| - 1 :: q.x[qs[1..][k]] == p.x[qs[k + 1]] && q.z[qs[1..][k]] == p.z[qs[k + 1]];
      HLayerSign(qs[1..], q);
    }
  }

  /** An H layer on the last qubits lo, lo + 1, ... of the frame. */
  lemma HLayerOnTail(qs: seq<nat>, lo: nat, p: Pauli)
    requires Sized(p, |p.x|) && lo + |qs| == |p.x| && forall k | 0 <= k < |qs| :: qs[k] == lo + k
    ensures Fits(HLayer(qs), |p.x|)
    ensures var r := Conj(HLayer(qs), p);
            forall j | 0 <= j < |p.x| ::
              r.x[j] == (if lo <= j then p.z[j] else p.x[j]) && r.z[j] == (if lo <= j then p.x[j] else p.z[j])
    ensures (forall j | lo <= j < |p.x| :: !(p.x[j] && p.z[j])) ==> Conj(HLayer(qs), p).neg == p.neg
  {
    assert MapsInto(qs, |p.x|) && Injective(qs);
    HLayerConj(qs, p);
    assert forall j | 0 <= j < |p.x| :: j in qs <==> lo <= j by {
      forall j | 0 <= j < |p.x| && lo <= j
        ensures j in qs
      {
        assert qs[j - lo] == j;
      }
    }
    if forall j | lo <= j < |p.x| :: !(p.x[j] && p.z[j]) {
      HLayerSign(qs, p);
    }
  }

  /** On a product of Z's a fan-out only adds the targets' parity to the
      control, and no sign appears. */
  lemma FanOutOnZ(c: nat, ts: seq<nat>, z: seq<bool>)
    requires c < |z| && MapsInto(ts, |z|) && Injective(ts) && c !in ts
    ensures Fits(FanOut(c, ts), |z|)
    ensures Conj(FanOut(c, ts), ZType(z)) == ZType(z[c := z[c] != Parity(z, ts)])
  {
    FanOutConj(c, ts, ZType(z));
    FanOutSign(c, ts, ZType(z));
    var r, want := Conj(FanOut(c, ts), ZType(z)), ZType(z[c := z[c] != Parity(z, ts)]);
    assert r.x == want.x;
    assert r.z == want.z;
  }

  /** A fan-in onto a target with no Z only adds the controls' X parity to
      the target, and no sign appears. */
  lemma FanInOntoCleanTarget(cs: seq<nat>, t: nat, p: Pauli)
    requires Sized(p, |p.x|) && t < |p.x| && MapsInto(cs, |p.x|) && Injective(cs) && t !in cs && !p.z[t]
    ensures Fits(FanIn(cs, t), |p.x|)
    ensures Conj(FanIn(cs, t), p) == p.(x := p.x[t := p.x[t] != Parity(p.x, cs)])
  {
    FanInConj(cs, t, p);
    FanInSign(cs, t, p);
    var r, want := Conj(FanIn(cs, t), p), p.(x := p.x[t := p.x[t] != Parity(p.x, cs)]);
    assert r.x == want.x;
    assert r.z == want.z;
  }

  /** A fan-out from a control with no X only adds the targets' Z parity to
      the control, and no sign appears. */
  lemma FanOutFromCleanControl(c: nat, ts: seq<nat>, p: Pauli)
    requires Sized(p, |p.x|) && c < |p.x| && MapsInto(ts, |p.x|) && Injective(ts) && c !in ts && !p.x[c]
    ensures Fits(FanOut(c, ts), |p.x|)
    ensures Conj(FanOut(c, ts), p) == p.(z := p.z[c := p.z[c] != Parity(p.z, ts)])
  {
    FanOutConj(c, ts, p);
    FanOutSign(c, ts, p);
    var r, want := Conj(FanOut(c, ts), p), p.(z := p.z[c := p.z[c] != Parity(p.z, ts)]);
    assert r.x == want.x;
    assert r.z == want.z;
  }

  /** An H layer leaves a product of Z's alone when none of its qubits
      carries a Z. */
  lemma {:induction false} HLayerOnZ(qs: seq<nat>, z: seq<bool>)
    requires MapsInto(qs, |z|)
    requires forall k | 0 <= k < |qs| :: !z[qs[k]]
    ensures Fits(HLayer(qs), |z|)
    ensures Conj(HLayer(qs), ZType(z)) == ZType(z)
  {
    if qs != [] {
      var p := ZType(z);
      assert HLayer(qs) == [H(qs[0])] + HLayer(qs[1..]);
      assert p.x[qs[0] := p.z[qs[0]]] == p.x;
      assert p.z[qs[0] := p.x[qs[0]]] == p.z;
      HLayerOnZ(qs[1..], z);
    }
  }
  /** On a product of X's a fan-out copies the control's X onto every
      target, and no sign appears. */
  lemma FanOutOnX(c: nat, ts: seq<nat>, xs: seq<bool>)
    requires c < |xs| && MapsInto(ts, |xs|) && Injective(ts) && c !in ts
    ensures Fits(FanOut(c, ts), |xs|)
    ensures Conj(FanOut(c, ts), XType(xs))
         == XType(seq(|xs|, j requires 0 <= j < |xs| => xs[j] != (j in ts && xs[c])))
  {
    var p := XType(xs);
    FanOutConj(c, ts, p);
    FanOutSign(c, ts, p);
    ParityOneHot(p.z, ts, |xs|);
    var r, want := Conj(FanOut(c, ts), p), XType(seq(|xs|, j requires 0 <= j < |xs| => xs[j] != (j in ts && xs[c])));
    assert r.x == want.x;
    assert r.z == want.z;
  }

  /** An H layer turns a product of Z's on its own qubits into the product
      of X's on the same qubits. */
  lemma HLayerZToX(qs: seq<nat>, z: seq<bool>)
    requires MapsInto(qs, |z|) && Injective(qs)
    requires forall j | 0 <= j < |z| && z[j] :: j in qs
    ensures Fits(HLayer(qs), |z|)
    ensures Conj(HLayer(qs), ZType(z)) == XType(z)
  {
    HLayerConj(qs, ZType(z));
    HLayerSign(qs, ZType(z));
    var r := Conj(HLayer(qs), ZType(z));
    assert r.x == z;
    assert r.z == XType(z).z;
  }

  /** An H layer turns a product of X's on its own qubits into the product
      of Z's on the same qubits. */
  lemma HLayerXToZ(qs: seq<nat>, xs: seq<bool>)
    requires MapsInto(qs, |xs|) && Injective(qs)
    requires forall j | 0 <= j < |xs| && xs[j] :: j in qs
    ensures Fits(HLayer(qs), |xs|)
    ensures Conj(HLayer(qs), XType(xs)) == ZType(xs)
  {
    HLayerConj(qs, XType(xs));
    HLayerSign(qs, XType(xs));
    var r := Conj(HLayer(qs), XType(xs));
    assert r.z == xs;
    assert r.x == ZType(xs).x;
  }
}
