/** The gate objects that the `gates!` macro generates (src/lib.rs:32-86): one
    object type per entry `{name, qubit count, optional inv flag}` of the table
    `H[1], Z[1], X[1], T[1] inv, CX[2]`, each holding a fixed-size qubit array
    and, for `T` only, an `inv` flag, rendered by `__repr__` (and `__str__`,
    which delegates to it) as the name, `+` when `inv` is set, then the qubit
    array in Rust's debug notation, e.g. `T+[0]`, `CX[1, 0]`.

    `ParseRepr` reads a rendering back; the round trip shows that the canonical
    string determines the object. */
module GateObjects {
  import opened Wrappers
  import opened Strings

  /** One constructor per entry of the macro's table. */
  datatype GateKind = H | Z | X | T | CX

  /** `stringify!($name)` */
  function Name(k: GateKind): string
  {
    match k
    case H => "H"
    case Z => "Z"
    case X => "X"
    case T => "T"
    case CX => "CX"
  }

  /** The size of the `qbs: [usize; $qbs]` array. */
  function Arity(k: GateKind): nat
  {
    if k == CX then 2 else 1
  }

  /** Whether the entry carries the `inv` token, giving the type an `inv` field. */
  predicate HasInv(k: GateKind)
  {
    k == T
  }

  /** A gate object: its type, its qubit array and its `inv` field (`None` for
      the types the macro generates without one). */
  datatype GateObj = GateObj(kind: GateKind, qbs: seq<nat>, inv: Option<bool>) {
    /** What the generated Rust types guarantee: the array has the type's fixed
        length and the `inv` field exists exactly for the types that declare it. */
    predicate WellFormed()
    {
      |qbs| == Arity(kind) && (inv.Some? <==> HasInv(kind))
    }
  }

  // ----- decimal rendering of `usize` -----

  predicate IsDigit(c: char)
  {
    '0' <= c <= '9'
  }

  function DigitChar(d: nat): (c: char)
    requires d < 10
    ensures IsDigit(c) && c as int - '0' as int == d
  {
    ('0' as int + d) as char
  }

  /** Rust's `{:?}` of a `usize`: its decimal digits, no leading zeros. */
  function Dec(n: nat): (s: string)
    ensures |s| > 0
    ensures forall i :: 0 <= i < |s| ==> IsDigit(s[i])
    ensures |s| > 1 ==> s[0] != '0'
    ensures ',' !in s
  {
    if n < 10 then [DigitChar(n)] else Dec(n / 10) + [DigitChar(n % 10)]
  }

  /** Reads a non-empty string of decimal digits. */
  function ParseDec(s: string): (r: Option<nat>)
    ensures r.Some? <==> |s| > 0 && forall i :: 0 <= i < |s| ==> IsDigit(s[i])
  {
    if |s| == 0 || !IsDigit(s[|s| - 1]) then None
    else
      var d := s[|s| - 1] as int - '0' as int;
      if |s| == 1 then Some(d)
      else
        match ParseDec(s[..|s| - 1])
        case None => None
        case Some(high) => Some(high * 10 + d)
  }

  lemma {:induction false} DecRoundTrip(n: nat)
    ensures ParseDec(Dec(n)) == Some(n)
  {
    if n >= 10 {
      var s := Dec(n);
      assert s[..|s| - 1] == Dec(n / 10);
      DecRoundTrip(n / 10);
    }
  }

  // ----- the qubit array `[a, b, ...]` -----

  /** The elements of a qubit array separated by `", "`. */
  function Join(qbs: seq<nat>): (s: string)
    ensures qbs != [] ==> |s| > 0
  {
    if qbs == [] then ""
    else if |qbs| == 1 then Dec(qbs[0])
    else Dec(qbs[0]) + ", " + Join(qbs[1..])
  }

  /** Rust's `{:?}` of `[usize; N]`. */
  function QubitArray(qbs: seq<nat>): string
  {
    "[" + Join(qbs) + "]"
  }

  /** The generated `__repr__` (and `__str__`): name, `+` exactly when the type
      has an `inv` field and it is true, then the qubit array. */
  function Repr(g: GateObj): (s: string)
    ensures |s| > |Name(g.kind)| && s[..|Name(g.kind)|] == Name(g.kind)
    ensures s[|s| - 1] == ']'
    ensures (g.inv == Some(true)) <==> s[|Name(g.kind)|] == '+'
  {
    Name(g.kind) + (if g.inv == Some(true) then "+" else "") + QubitArray(g.qbs)
  }

  // ----- reading a rendering back -----

  /** Splits the inside of a qubit array at the `", "` separators. */
  function ParseList(inner: string): Option<seq<nat>>
    decreases |inner|
  {
    if inner == [] then Some([])
    else
      var comma := IndexOf(inner, ',');
      if comma.None? then
        var q :- ParseDec(inner);
        Some([q])
      else
        var i := comma.value;
        if i + 2 >= |inner| || inner[i + 1] != ' ' then None
        else
          var q :- ParseDec(inner[..i]);
          var rest :- ParseList(inner[i + 2..]);
          Some([q] + rest)
  }

  /** The gate type whose name starts the string, and what follows the name. */
  function ParseName(s: string): Option<(GateKind, string)>
  {
    if |s| >= 2 && s[..2] == "CX" then Some((CX, s[2..]))
    else if |s| == 0 then None
    else if s[0] == 'H' then Some((H, s[1..]))
    else if s[0] == 'Z' then Some((Z, s[1..]))
    else if s[0] == 'X' then Some((X, s[1..]))
    else if s[0] == 'T' then Some((T, s[1..]))
    else None
  }

  /** The `inv` field read from what follows the name: present exactly for the
      types that have one, true when a `+` comes next. */
  function ParseFlag(kind: GateKind, afterName: string): (Option<bool>, string)
  {
    if !HasInv(kind) then (None, afterName)
    else if |afterName| > 0 && afterName[0] == '+' then (Some(true), afterName[1..])
    else (Some(false), afterName)
  }

  /** The qubits of a bracketed array `[...]`. */
  function ParseArray(body: string): Option<seq<nat>>
  {
    if |body| < 2 || body[0] != '[' || body[|body| - 1] != ']' then None
    else ParseList(body[1..|body| - 1])
  }

  /** Reads a canonical string back into a gate object. */
  function ParseRepr(s: string): Option<GateObj>
  {
    var (kind, afterName) :- ParseName(s);
    var (inv, body) := ParseFlag(kind, afterName);
    var qbs :- ParseArray(body);
    if |qbs| == Arity(kind) then Some(GateObj(kind, qbs, inv)) else None
  }

  lemma {:induction false} JoinRoundTrip(qbs: seq<nat>)
    ensures ParseList(Join(qbs)) == Some(qbs)
  {
    if qbs == [] {
    } else if |qbs| == 1 {
      var d := Dec(qbs[0]);
      assert Join(qbs) == d;
      DecRoundTrip(qbs[0]);
      assert IndexOf(d, ',') == None;
      assert ParseList(d) == Some([qbs[0]]);
      assert [qbs[0]] == qbs;
    } else {
      var d, tail := Dec(qbs[0]), Join(qbs[1..]);
      assert Join(qbs) == d + ", " + tail;
      DecRoundTrip(qbs[0]);
      JoinRoundTrip(qbs[1..]);
      ParseListStep(d, tail, qbs[0], qbs[1..]);
      assert [qbs[0]] + qbs[1..] == qbs;
    }
  }

  /** One step of `ParseList`: a number, the separator, then a non-empty rest. */
  lemma ParseListStep(d: string, tail: string, q: nat, rest: seq<nat>)
    requires ',' !in d && ParseDec(d) == Some(q)
    requires |tail| > 0 && ParseList(tail) == Some(rest)
    ensures ParseList(d + ", " + tail) == Some([q] + rest)
  {
    Separator(d, tail);
    ParseListAt(d + ", " + tail, |d|, q, rest);
  }

  /** Where the first separator of `d + ", " + tail` is, and what it splits. */
  lemma Separator(d: string, tail: string)
    requires ',' !in d && |tail| > 0
    ensures var s := d + ", " + tail;
      && IndexOf(s, ',') == Some(|d|) && |d| + 2 < |s| && s[|d| + 1] == ' '
      && s[..|d|] == d && s[|d| + 2..] == tail
  {
    var s := d + ", " + tail;
    assert s == d + (", " + tail);
    IndexOfAfter(d, ", " + tail, ',');
  }

  /** `ParseList` at a separator found at index `i`. */
  lemma ParseListAt(s: string, i: nat, q: nat, rest: seq<nat>)
    requires IndexOf(s, ',') == Some(i) && i + 2 < |s| && s[i + 1] == ' '
    requires ParseDec(s[..i]) == Some(q) && ParseList(s[i + 2..]) == Some(rest)
    ensures ParseList(s) == Some([q] + rest)
  {
  }

  /** The canonical string determines the gate object: reading back the
      rendering of any well-formed gate object gives that object. */
  lemma ReprRoundTrip(g: GateObj)
    requires g.WellFormed()
    ensures ParseRepr(Repr(g)) == Some(g)
  {
    var flag := if g.inv == Some(true) then "+" else "";
    var arr := QubitArray(g.qbs);
    assert Repr(g) == Name(g.kind) + (flag + arr);
    ParseNameOf(g.kind, flag + arr);
    ParseFlagOf(g, arr);
    ParseArrayOf(g.qbs);
  }

  /** The flag is read back from what follows the name. */
  lemma ParseFlagOf(g: GateObj, arr: string)
    requires g.WellFormed() && |arr| > 0 && arr[0] == '['
    ensures ParseFlag(g.kind, (if g.inv == Some(true) then "+" else "") + arr) == (g.inv, arr)
  {
    var flag := if g.inv == Some(true) then "+" else "";
    if HasInv(g.kind) {
      if g.inv.value {
        assert (flag + arr)[1..] == arr;
      } else {
        assert flag + arr == arr;
      }
    } else {
      assert flag + arr == arr;
    }
  }

  /** The qubits are read back from their bracketed array. */
  lemma ParseArrayOf(qbs: seq<nat>)
    ensures ParseArray(QubitArray(qbs)) == Some(qbs)
  {
    var arr := QubitArray(qbs);
    assert arr[1..|arr| - 1] == Join(qbs);
    JoinRoundTrip(qbs);
  }

  lemma ParseNameOf(k: GateKind, rest: string)
    requires |rest| > 0 && (rest[0] == '+' || rest[0] == '[')
    ensures ParseName(Name(k) + rest) == Some((k, rest))
  {
    var s := Name(k) + rest;
    assert s[|Name(k)|..] == rest;
    if k == CX {
      assert s[..2] == Name(k);
    } else {
      assert s[0] == Name(k)[0];
      assert s[..2] != "CX" by { assert s[0] != 'C'; }
    }
  }

  /** Distinct well-formed gate objects have distinct canonical strings. */
  lemma ReprInjective(g1: GateObj, g2: GateObj)
    requires g1.WellFormed() && g2.WellFormed()
    requires Repr(g1) == Repr(g2)
    ensures g1 == g2
  {
    ReprRoundTrip(g1);
    ReprRoundTrip(g2);
  }

  /** Renderings of single-qubit gate objects: an H gate on qubit 2, and a T
      gate on qubit 0 with `inv` set and without. */
  lemma ReprExamples()
    ensures Repr(GateObj(H, [2], None)) == "H[2]"
    ensures Repr(GateObj(T, [0], Some(true))) == "T+[0]"
    ensures Repr(GateObj(T, [0], Some(false))) == "T[0]"
  {
    assert QubitArray([2]) == "[2]" && QubitArray([0]) == "[0]";
  }

  /** Renderings with a separator and with a multi-digit index: a CX gate on
      qubits 3 and 1, and a Z gate on qubit 12. */
  lemma ReprSeparatorExamples()
    ensures Repr(GateObj(CX, [3, 1], None)) == "CX[3, 1]"
    ensures Repr(GateObj(Z, [12], None)) == "Z[12]"
  {
    assert Join([3, 1]) == Dec(3) + ", " + Join([1]);
    assert Dec(12) == Dec(1) + [DigitChar(2)];
  }
}
