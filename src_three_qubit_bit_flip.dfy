/** The stand-alone builder of the three-qubit bit-flip circuit that sits
    beside the package: it builds the package's encoding (and decoding)
    circuit again, on three qubits and no classical bits.  Its properties
    are stated about the operation list it builds, run on basis states. */
module SrcThreeQubitBitFlip {
  import opened Gates
  import opened BasisStates
  import opened Circuits
  import ThreeQubitBitFlip

  /** The circuit is the package's bit-flip encoder, gate for gate. */
  method GetEncodingDecodingCircuit() returns (out: QuantumCircuit)
    ensures fresh(out) && out.Valid()
    ensures out.width == 3 && out.cregs == [] && out.ops == Lift(ThreeQubitBitFlip.EncodingGates())
  {
    out := new QuantumCircuit(3, []);
    out.Cx(0, 1);
    out.Cx(0, 2);
  }

  /** On a basis state |s0 s1 s2> the circuit keeps qubit 0 and flips
      qubits 1 and 2 exactly when qubit 0 is set. */
  lemma OnBasisState(ops: seq<Op>, s: seq<bool>)
    requires ops == Lift(ThreeQubitBitFlip.EncodingGates()) && |s| == 3
    ensures OpsFit(ops, 3, []) && forall i | 0 <= i < |ops| :: ClassicalOp(ops[i])
    ensures Run(ops, Machine(s, [])) == Machine([s[0], s[1] != s[0], s[2] != s[0]], [])
  {
    RunLift(ThreeQubitBitFlip.EncodingGates(), Machine(s, []));
    ThreeQubitBitFlip.EncodingOnBasis(s);
  }

  /** |000> stays |000> and |100> becomes |111>. */
  lemma EncodesZeroAndOne(ops: seq<Op>)
    requires ops == Lift(ThreeQubitBitFlip.EncodingGates())
    ensures OpsFit(ops, 3, []) && forall i | 0 <= i < |ops| :: ClassicalOp(ops[i])
    ensures Run(ops, Machine([false, false, false], [])) == Machine([false, false, false], [])
    ensures Run(ops, Machine([true, false, false], [])) == Machine([true, true, true], [])
  {
    OnBasisState(ops, [false, false, false]);
    OnBasisState(ops, [true, false, false]);
  }

  /** Running the circuit twice gives back every 3-bit basis state: the
      circuit is its own decoder. */
  lemma TwiceIsIdentity(ops: seq<Op>, s: seq<bool>)
    requires ops == Lift(ThreeQubitBitFlip.EncodingGates()) && |s| == 3
    ensures OpsFit(ops + ops, 3, []) && forall i | 0 <= i < |ops + ops| :: ClassicalOp((ops + ops)[i])
    ensures Run(ops + ops, Machine(s, [])) == Machine(s, [])
  {
    var m := Machine(s, []);
    OnBasisState(ops, s);
    var once := Run(ops, m);
    OnBasisState(ops, once.q);
    RunAppend(ops, ops, m);
    assert forall i | 0 <= i < |ops + ops| :: (ops + ops)[i] == ops[i % 2];
  }
}
