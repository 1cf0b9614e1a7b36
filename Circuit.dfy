/** The compiler's internal circuit (`cavy::circuit`), as far as the binding
    sees it: a buffer of gates in execution order. */
module Circuit {

  /** `circuit::Gate`; qubit indices are `usize`, unbounded here. */
  datatype Gate =
    | X(qb: nat)
    | T(tgt: nat, conj: bool)
    | H(qb: nat)
    | Z(qb: nat)
    | CX(tgt: nat, ctrl: nat)
    | M(qb: nat)

  /** `Circuit`, of which the binding reads only `circ_buf`. */
  datatype Circuit = Circuit(circBuf: seq<Gate>)
}
