/** `circuit_to_py` (src/lib.rs:88-105): every gate of the circuit buffer, in
    order, becomes one gate object. There is no filtering step and no check on
    control qubits; a measurement reaches `todo!()` and panics. */
module Transcribe {
  import opened Wrappers
  import opened GateObjects
  import Circuit

  /** The `transcribe_gate` closure, as written: note that `circuit::Gate::X`
      becomes an `HGate` object (src/lib.rs:90). */
  function TranscribeGate(g: Circuit.Gate): (r: Result<GateObj, Panic>)
    ensures r.Err? <==> g.M?
    ensures r.Err? ==> r.error == Todo
    ensures r.Ok? ==> r.value.WellFormed()
    ensures g.CX? ==> r == Ok(GateObj(CX, [g.ctrl, g.tgt], None))
    ensures g.T? ==> r == Ok(GateObj(T, [g.tgt], Some(g.conj)))
    ensures (g.H? || g.X?) ==> r == Ok(GateObj(H, [g.qb], None))
    ensures g.Z? ==> r == Ok(GateObj(Z, [g.qb], None))
  {
    match g
    case X(qb) => Ok(GateObj(H, [qb], None))
    case T(tgt, conj) => Ok(GateObj(T, [tgt], Some(conj)))
    case H(qb) => Ok(GateObj(H, [qb], None))
    case Z(qb) => Ok(GateObj(Z, [qb], None))
    case CX(tgt, ctrl) => Ok(GateObj(CX, [ctrl, tgt], None))
    case M(_) => Err(Todo)
  }

  /** `circ_buf.into_iter().map(transcribe_gate).collect()`: the gates are
      transcribed front to back, and the first measurement panics. */
  function TranscribeAll(buf: seq<Circuit.Gate>): (r: Result<seq<GateObj>, Panic>)
    ensures r.Ok? <==> forall i :: 0 <= i < |buf| ==> !buf[i].M?
    ensures r.Err? ==> r.error == Todo
    ensures r.Ok? ==> |r.value| == |buf|
    ensures r.Ok? ==> forall i :: 0 <= i < |buf| ==> Ok(r.value[i]) == TranscribeGate(buf[i])
  {
    if buf == [] then Ok([])
    else
      var first :- TranscribeGate(buf[0]);
      var rest :- TranscribeAll(buf[1..]);
      Ok([first] + rest)
  }

  /** `circuit_to_py`: one object per element of `circ_buf`, in order, or the
      `todo!()` panic when the buffer holds a measurement. */
  function CircuitToPy(circ: Circuit.Circuit): (r: Result<seq<GateObj>, Panic>)
    ensures r.Ok? <==> forall i :: 0 <= i < |circ.circBuf| ==> !circ.circBuf[i].M?
    ensures r.Err? ==> r.error == Todo
    ensures r.Ok? ==> |r.value| == |circ.circBuf|
    ensures r.Ok? ==> forall i :: 0 <= i < |circ.circBuf| ==>
                        r.value[i].WellFormed() && Ok(r.value[i]) == TranscribeGate(circ.circBuf[i])
  {
    TranscribeAll(circ.circBuf)
  }

  /** Every object the transcription returns is well formed. */
  lemma AllWellFormed(buf: seq<Circuit.Gate>)
    requires TranscribeAll(buf).Ok?
    ensures forall i :: 0 <= i < |buf| ==> TranscribeAll(buf).value[i].WellFormed()
  {
    var objs := TranscribeAll(buf).value;
    forall i | 0 <= i < |buf|
      ensures objs[i].WellFormed()
    {
      assert Ok(objs[i]) == TranscribeGate(buf[i]);
    }
  }

  /** The canonical strings of transcribed gates: an H gate on qubit 2, a
      conjugated T gate on qubit 0, and a CX with control 3 and target 1,
      rendered control first. */
  lemma TranscribedReprExamples()
    ensures Repr(TranscribeGate(Circuit.H(2)).value) == "H[2]"
    ensures Repr(TranscribeGate(Circuit.T(0, true)).value) == "T+[0]"
    ensures Repr(TranscribeGate(Circuit.CX(1, 3)).value) == "CX[3, 1]"
  {
    assert TranscribeGate(Circuit.H(2)).value == GateObj(H, [2], None);
    assert TranscribeGate(Circuit.T(0, true)).value == GateObj(T, [0], Some(true));
    assert TranscribeGate(Circuit.CX(1, 3)).value == GateObj(CX, [3, 1], None);
    ReprExamples();
    ReprSeparatorExamples();
  }

  // ----- the X gate -----

  /** Reads a well-formed gate object back as the internal gate it stands for,
      taking a CX object's array as control then target. */
  function GateOf(o: GateObj): (g: Circuit.Gate)
    requires o.WellFormed()
    ensures !g.M?
  {
    match o.kind
    case H => Circuit.H(o.qbs[0])
    case Z => Circuit.Z(o.qbs[0])
    case X => Circuit.X(o.qbs[0])
    case T => Circuit.T(o.qbs[0], o.inv.value)
    case CX => Circuit.CX(o.qbs[1], o.qbs[0])
  }

  /** As written, an internal X gate cannot be told apart from an H gate on the
      same qubit once transcribed: both become `H[0]`. */
  lemma XTranscribedAsH()
    ensures TranscribeGate(Circuit.X(0)) == TranscribeGate(Circuit.H(0))
    ensures GateOf(TranscribeGate(Circuit.X(0)).value) == Circuit.H(0) != Circuit.X(0)
    ensures Repr(TranscribeGate(Circuit.X(0)).value) == "H[0]"
  {
    ReprExamples();
    assert Dec(0) == "0";
  }

  /** The evidently intended closure: `circuit::Gate::X` becomes an `XGate`
      object; every other case as in `TranscribeGate`. */
  function TranscribeGateFixed(g: Circuit.Gate): (r: Result<GateObj, Panic>)
    ensures r.Err? <==> g.M?
    ensures r.Ok? ==> r.value.WellFormed() && GateOf(r.value) == g
    ensures !g.X? ==> r == TranscribeGate(g)
  {
    match g
    case X(qb) => Ok(GateObj(X, [qb], None))
    case _ => TranscribeGate(g)
  }

  /** With the fix, transcription loses nothing: distinct gates give distinct
      objects, hence distinct canonical strings. */
  lemma FixedTranscriptionInjective(g1: Circuit.Gate, g2: Circuit.Gate)
    requires !g1.M? && !g2.M?
    requires Repr(TranscribeGateFixed(g1).value) == Repr(TranscribeGateFixed(g2).value)
    ensures g1 == g2
  {
    ReprInjective(TranscribeGateFixed(g1).value, TranscribeGateFixed(g2).value);
  }
}
