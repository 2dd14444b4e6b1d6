/** The circuit builder the codes append to: a fixed number of qubits, an
    ordered list of classical registers, and the operations appended so far.
    Methods mirror the builder calls the codes make (cx, h, x, z, compose,
    measure, if_test, inverse); each one appends to the operation list and
    keeps every operation in range of the circuit's registers. */
module Circuits {
  import opened Gates

  class QuantumCircuit {
    const width: nat
    const cregs: seq<nat>
    var ops: seq<Op>

    ghost predicate Valid()
      reads this
    {
      OpsFit(ops, width, cregs)
    }

    constructor (width: nat, cregs: seq<nat>)
      ensures Valid()
      ensures this.width == width && this.cregs == cregs && ops == []
    {
      this.width := width;
      this.cregs := cregs;
      ops := [];
    }

    method Append(g: Gate)
      requires Valid() && GateFits(g, width)
      modifies this
      ensures Valid()
      ensures ops == old(ops) + [Apply(g)]
    {
      ops := ops + [Apply(g)];
    }

    method Cx(c: nat, t: nat)
      requires Valid() && c < width && t < width && c != t
      modifies this
      ensures Valid()
      ensures ops == old(ops) + [Apply(CX(c, t))]
    {
      Append(CX(c, t));
    }

    method H(q: nat)
      requires Valid() && q < width
      modifies this
      ensures Valid()
      ensures ops == old(ops) + [Apply(Gates.H(q))]
    {
      Append(Gates.H(q));
    }

    method X(q: nat)
      requires Valid() && q < width
      modifies this
      ensures Valid()
      ensures ops == old(ops) + [Apply(Gates.X(q))]
    {
      Append(Gates.X(q));
    }

    method Z(q: nat)
      requires Valid() && q < width
      modifies this
      ensures Valid()
      ensures ops == old(ops) + [Apply(Gates.Z(q))]
    {
      Append(Gates.Z(q));
    }

    /** compose(other, qubits=m, inplace=True): appends other's operations with
        other's qubit k placed on m[k].  The mapping must name one distinct
        qubit of this circuit for every qubit of other; a circuit with
        classical registers is not composed.  Otherwise nothing is appended
        and ok is false (the dimension-mismatch error). */
    method Compose(other: QuantumCircuit, m: seq<nat>) returns (ok: bool)
      requires Valid() && other.Valid()
      modifies this
      ensures Valid()
      ensures ok == (other.cregs == [] && |m| == other.width && Injective(m) && MapsInto(m, width))
      ensures ok ==> ops == old(ops) + RemapOps(old(other.ops), m)
      ensures !ok ==> ops == old(ops)
    {
      ok := other.cregs == [] && |m| == other.width && Injective(m) && MapsInto(m, width);
      if ok {
        var added := RemapOps(other.ops, m);
        forall i | 0 <= i < |added|
          ensures OpFits(added[i], width, cregs)
        {
          assert OpFits(other.ops[i], |m|, []);
        }
        ops := ops + added;
      }
    }

    /** measure(qubits, reg): qubit qs[k] into bit k of register reg. */
    method Measure(qs: seq<nat>, reg: nat)
      requires Valid() && reg < |cregs| && |qs| == cregs[reg] && MapsInto(qs, width)
      modifies this
      ensures Valid()
      ensures ops == old(ops) + MeasureOps(qs, reg)
    {
      var k := 0;
      while k < |qs|
        invariant 0 <= k <= |qs|
        invariant Valid()
        invariant ops == old(ops) + MeasureOps(qs, reg)[..k]
      {
        ops := ops + [Op.Measure(qs[k], reg, k)];
        k := k + 1;
      }
    }

    /** with if_test((reg, value)): g */
    method IfTest(reg: nat, value: nat, g: Gate)
      requires Valid() && reg < |cregs| && GateFits(g, width)
      modifies this
      ensures Valid()
      ensures ops == old(ops) + [Op.IfTest(reg, value, g)]
    {
      ops := ops + [Op.IfTest(reg, value, g)];
    }

    /** inverse(): a new circuit running the gates in reverse order.  Every
        gate here is self-inverse, so no gate is changed; a circuit holding a
        measurement or an if_test has no inverse. */
    method Inverse() returns (r: QuantumCircuit)
      requires Valid()
      requires forall i | 0 <= i < |ops| :: ops[i].Apply?
      ensures fresh(r) && r.Valid()
      ensures r.width == width && r.cregs == cregs && r.ops == Reverse(ops)
    {
      r := new QuantumCircuit(width, cregs);
      r.ops := Reverse(ops);
    }
  }
}
