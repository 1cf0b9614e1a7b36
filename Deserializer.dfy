/** `Deserializer` (pycavy/compilation.py:209-256): decodes the tagged values
    of a program's bindings against the qubit measurements of one run. A value
    is a dict whose first entry maps a type tag to its data; the tag selects a
    handler from a fixed dispatch table, and an unknown tag raises
    `NotImplementedError`. */
module Deserializer {
  import opened Wrappers
  import opened PyValues

  /** The handlers the dispatch table can select. */
  datatype Handler = Classical | QBool | QUnsigned | ArrayOf | MeasuredOf

  /** `self.d_table`: the three unsigned widths share one handler. */
  const DispatchTable: map<string, Handler> := map[
    "Bool" := Classical,
    "Q_Bool" := QBool,
    "Q_U8" := QUnsigned,
    "Q_U16" := QUnsigned,
    "Q_U32" := QUnsigned,
    "Array" := ArrayOf,
    "Measured" := MeasuredOf
  ]

  function Pow2(n: nat): (p: nat)
    ensures p >= 1
  {
    if n == 0 then 1 else 2 * Pow2(n - 1)
  }

  function BitValue(b: bool): nat
  {
    if b then 1 else 0
  }

  /** The number whose i-th binary digit is the i-th bit: the sum over i of
      `bit_i * 2^i`, the first bit being the least significant. */
  function Unsigned(bits: seq<bool>): nat
  {
    if bits == [] then 0
    else Unsigned(bits[..|bits| - 1]) + Pow2(|bits| - 1) * BitValue(bits[|bits| - 1])
  }

  /** Extending a prefix of the bits by one adds that bit's place value. */
  lemma UnsignedPrefixStep(bits: seq<bool>, i: nat)
    requires i < |bits|
    ensures Unsigned(bits[..i + 1]) == Unsigned(bits[..i]) + Pow2(i) * BitValue(bits[i])
  {
    assert bits[..i + 1][..i] == bits[..i];
  }

  /** The first bit is the least-significant one. */
  lemma {:induction false} UnsignedLsbFirst(b: bool, rest: seq<bool>)
    ensures Unsigned([b] + rest) == BitValue(b) + 2 * Unsigned(rest)
  {
    if rest != [] {
      var s := [b] + rest;
      assert s[..|s| - 1] == [b] + rest[..|rest| - 1];
      UnsignedLsbFirst(b, rest[..|rest| - 1]);
    }
  }

  /** `n` bits decode to a number below `2^n`. */
  lemma {:induction false} UnsignedBound(bits: seq<bool>)
    ensures Unsigned(bits) < Pow2(|bits|)
  {
    if bits != [] {
      UnsignedBound(bits[..|bits| - 1]);
    }
  }

  /** The `w` least-significant binary digits of `n`, least significant first. */
  function ToBits(n: nat, w: nat): (bits: seq<bool>)
    ensures |bits| == w
  {
    if w == 0 then [] else [n % 2 == 1] + ToBits(n / 2, w - 1)
  }

  /** Decoding inverts encoding for every number that fits the width. */
  lemma {:induction false} UnsignedOfToBits(n: nat, w: nat)
    requires n < Pow2(w)
    ensures Unsigned(ToBits(n, w)) == n
  {
    if w > 0 {
      UnsignedOfToBits(n / 2, w - 1);
      UnsignedLsbFirst(n % 2 == 1, ToBits(n / 2, w - 1));
    }
  }

  /** Encoding inverts decoding: the bits are recovered from the number. */
  lemma {:induction false} ToBitsOfUnsigned(bits: seq<bool>)
    ensures ToBits(Unsigned(bits), |bits|) == bits
  {
    if bits != [] {
      var b, rest := bits[0], bits[1..];
      assert bits == [b] + rest;
      UnsignedLsbFirst(b, rest);
      var n := Unsigned(bits);
      assert n % 2 == BitValue(b) && n / 2 == Unsigned(rest);
      ToBitsOfUnsigned(rest);
    }
  }

  /** `Deserializer(measurements)`: the measured bit of each qubit index. */
  datatype Deserializer = Deserializer(measurements: map<int, bool>) {

    /** `split_value`: the first entry of a dict. */
    function SplitValue(value: Json): (r: Result<(string, Json), PyError>)
      ensures r.Ok? <==> value.JObject? && value.entries != []
      ensures r.Ok? ==> r.value == value.entries[0]
      ensures value.JObject? && value.entries == [] ==> r == Err(StopIteration)
      ensures !value.JObject? ==> r == Err(AttributeError)
    {
      match value
      case JObject(entries) => if entries == [] then Err(StopIteration) else Ok(entries[0])
      case _ => Err(AttributeError)
    }

    /** `self.measurements[data]`: JSON booleans hash like the integers 0 and
        1, containers are unhashable, and anything else without a
        measurement raises `KeyError`; nothing is defaulted. */
    function Lookup(key: Json): (r: Result<bool, PyError>)
      ensures key.JInt? ==> (r.Ok? <==> key.i in measurements)
      ensures key.JInt? && key.i in measurements ==> r == Ok(measurements[key.i])
      ensures key.JInt? && key.i !in measurements ==> r == Err(KeyError)
      ensures (key.JArray? || key.JObject?) ==> r == Err(TypeError)
    {
      match key
      case JInt(i) => if i in measurements then Ok(measurements[i]) else Err(KeyError)
      case JBool(b) =>
        var i := if b then 1 else 0;
        if i in measurements then Ok(measurements[i]) else Err(KeyError)
      case JNull => Err(KeyError)
      case JStr(_) => Err(KeyError)
      case JArray(_) => Err(TypeError)
      case JObject(_) => Err(TypeError)
    }

    /** `[self.measurements[qb] for qb in keys]`, stopping at the first failure. */
    function LookupAll(keys: seq<Json>): (r: Result<seq<bool>, PyError>)
      ensures r.Ok? <==> forall i :: 0 <= i < |keys| ==> Lookup(keys[i]).Ok?
      ensures r.Ok? ==> |r.value| == |keys|
      ensures r.Ok? ==> forall i :: 0 <= i < |keys| ==> r.value[i] == Lookup(keys[i]).value
    {
      if keys == [] then Ok([])
      else
        var b :- Lookup(keys[0]);
        var rest :- LookupAll(keys[1..]);
        Ok([b] + rest)
    }

    /** The keys a `for qb in data` loop visits: the items of a list, the
        characters of a string, the keys of a dict; scalars are not iterable. */
    function IterKeys(data: Json): (r: Result<seq<Json>, PyError>)
      ensures r.Ok? <==> data.JArray? || data.JStr? || data.JObject?
      ensures r.Err? ==> r.error == TypeError
      ensures data.JArray? ==> r == Ok(data.items)
      ensures data.JStr? ==> |r.value| == |data.s| && forall i :: 0 <= i < |data.s| ==> r.value[i] == JStr([data.s[i]])
      ensures data.JObject? ==>
        |r.value| == |data.entries| && forall i :: 0 <= i < |data.entries| ==> r.value[i] == JStr(data.entries[i].0)
    {
      match data
      case JArray(items) => Ok(items)
      case JStr(s) => Ok(seq(|s|, i requires 0 <= i < |s| => JStr([s[i]])))
      case JObject(entries) => Ok(seq(|entries|, i requires 0 <= i < |entries| => JStr(entries[i].0)))
      case _ => Err(TypeError)
    }

    /** `deserialize_q_bool` */
    function DecodeQBool(data: Json): (r: Result<PyObj, PyError>)
      ensures r.Ok? <==> Lookup(data).Ok?
      ensures r.Ok? ==> r == Ok(Bool(Lookup(data).value))
      ensures r.Err? ==> r.error == Lookup(data).error
    {
      var bit :- Lookup(data);
      Ok(Bool(bit))
    }

    /** `deserialize_q_unsigned`: look every qubit up, then assemble the bits
        little-endian. */
    function DecodeQUnsigned(data: Json): (r: Result<PyObj, PyError>)
      ensures r.Ok? <==> IterKeys(data).Ok? && LookupAll(IterKeys(data).value).Ok?
      ensures r.Ok? ==>
        && r.value.Int?
        && r.value.n < Pow2(|IterKeys(data).value|)
        && ToBits(r.value.n, |IterKeys(data).value|) == LookupAll(IterKeys(data).value).value
    {
      var keys :- IterKeys(data);
      var bits :- LookupAll(keys);
      UnsignedBound(bits);
      ToBitsOfUnsigned(bits);
      Ok(Int(Unsigned(bits)))
    }

    /** `deserialize_q_unsigned` as the source runs it: the accumulating loop
        `num += (1 << i) * bit` over the looked-up bits. */
    method DeserializeQUnsigned(data: Json) returns (r: Result<PyObj, PyError>)
      ensures r == DecodeQUnsigned(data)
      ensures r.Ok? ==> r.value.Int? && r.value.n < Pow2(|IterKeys(data).value|)
    {
      var keys := IterKeys(data);
      if keys.Err? {
        return Err(keys.error);
      }
      var looked := LookupAll(keys.value);
      if looked.Err? {
        return Err(looked.error);
      }
      var bits := looked.value;
      var num := 0;
      for i := 0 to |bits|
        invariant num == Unsigned(bits[..i])
      {
        UnsignedPrefixStep(bits, i);
        num := num + Pow2(i) * BitValue(bits[i]);
      }
      assert bits[..|bits|] == bits;
      UnsignedBound(bits);
      r := Ok(Int(num));
    }

    /** `deserialize`: dispatch on the first entry's tag. */
    function Deserialize(value: Json): (r: Result<PyObj, PyError>)
      ensures r.Ok? ==> value.JObject? && value.entries != [] && value.entries[0].0 in DispatchTable
      decreases value, 1
    {
      var (tag, data) :- SplitValue(value);
      if tag !in DispatchTable then Err(NotImplementedError)
      else
        match DispatchTable[tag]
        case Classical => Ok(Raw(data))
        case QBool => DecodeQBool(data)
        case QUnsigned => DecodeQUnsigned(data)
        case ArrayOf => DeserializeArray(data)
        case MeasuredOf => Deserialize(data)
    }

    /** `deserialize_array`: `[self.deserialize(item) for item in data]`. The
        characters of a string and the keys of a dict are strings, which
        `deserialize` rejects. */
    function DeserializeArray(data: Json): (r: Result<PyObj, PyError>)
      ensures data.JArray? ==> r == DeserializeAll(data, 0)
      decreases data, if data.JArray? then |data.items| + 1 else 0
    {
      match data
      case JArray(items) => DeserializeAll(data, 0)
      case JStr(s) => if s == "" then Ok(List([])) else Err(AttributeError)
      case JObject(entries) => if entries == [] then Ok(List([])) else Err(AttributeError)
      case _ => Err(TypeError)
    }

    /** The list comprehension from position `from` on: each element in
        order, the first failure propagating. */
    function DeserializeAll(data: Json, from: nat): (r: Result<PyObj, PyError>)
      requires data.JArray? && from <= |data.items|
      ensures r.Ok? <==> forall i :: from <= i < |data.items| ==> Deserialize(data.items[i]).Ok?
      ensures r.Ok? ==> r.value.List? && |r.value.elems| == |data.items| - from
      ensures r.Ok? ==> forall i :: from <= i < |data.items| ==>
                          r.value.elems[i - from] == Deserialize(data.items[i]).value
      decreases data, |data.items| - from
    {
      if from == |data.items| then Ok(List([]))
      else
        var first :- Deserialize(data.items[from]);
        var rest :- DeserializeAll(data, from + 1);
        Ok(List([first] + rest.elems))
    }
  }

  /** The value `{tag: data}`. */
  function Tagged(tag: string, data: Json): Json
  {
    JObject([(tag, data)])
  }

  /** Dispatch on the tag: `Bool` hands its data back unchanged, `Q_Bool` the
      measured bit, `Measured` decodes its inner value, an unknown tag raises
      `NotImplementedError`, and the three unsigned widths decode alike. */
  lemma DeserializeDispatch(d: Deserializer, tag: string, data: Json, rest: seq<(string, Json)>)
    ensures var value := JObject([(tag, data)] + rest);
      && (tag == "Bool" ==> d.Deserialize(value) == Ok(Raw(data)))
      && (tag == "Q_Bool" ==> d.Deserialize(value) == d.DecodeQBool(data))
      && (tag == "Measured" ==> d.Deserialize(value) == d.Deserialize(data))
      && (tag == "Array" ==> d.Deserialize(value) == d.DeserializeArray(data))
      && (tag !in {"Bool", "Q_Bool", "Q_U8", "Q_U16", "Q_U32", "Array", "Measured"} ==>
            d.Deserialize(value) == Err(NotImplementedError))
      && (tag in {"Q_U8", "Q_U16", "Q_U32"} ==>
            && d.Deserialize(value) == d.DecodeQUnsigned(data)
            && d.Deserialize(value) == d.Deserialize(JObject([("Q_U8", data)] + rest)))
  {
  }

  /** `Array` gives a list as long as its data, each element decoded in
      order, and fails exactly when some element fails. */
  lemma ArrayDecodesInOrder(d: Deserializer, items: seq<Json>)
    ensures var r := d.Deserialize(Tagged("Array", JArray(items)));
      && (r.Ok? <==> forall i :: 0 <= i < |items| ==> d.Deserialize(items[i]).Ok?)
      && (r.Ok? ==> r.value.List? && |r.value.elems| == |items|
                    && forall i :: 0 <= i < |items| ==> r.value.elems[i] == d.Deserialize(items[i]).value)
  {
    assert d.Deserialize(Tagged("Array", JArray(items))) == d.DeserializeAll(JArray(items), 0);
  }

  /** `Q_Bool` gives the truth value of the qubit's measurement, and fails
      with `KeyError` when the qubit was not measured. */
  lemma QBoolMeasured(d: Deserializer, q: int)
    ensures q in d.measurements ==> d.Deserialize(Tagged("Q_Bool", JInt(q))) == Ok(Bool(d.measurements[q]))
    ensures q !in d.measurements ==> d.Deserialize(Tagged("Q_Bool", JInt(q))) == Err(KeyError)
  {
  }

  /** A list of measured qubits decodes to a number below `2^n` for `n`
      qubits whose i-th binary digit is the measurement of the i-th listed
      qubit: the first qubit is the least-significant bit. */
  lemma QUnsignedMeasured(d: Deserializer, tag: string, keys: seq<Json>)
    requires tag in {"Q_U8", "Q_U16", "Q_U32"}
    requires forall i :: 0 <= i < |keys| ==> keys[i].JInt? && keys[i].i in d.measurements
    ensures var r := d.Deserialize(Tagged(tag, JArray(keys)));
      && r.Ok? && r.value.Int? && r.value.n < Pow2(|keys|)
      && forall i :: 0 <= i < |keys| ==> ToBits(r.value.n, |keys|)[i] == d.measurements[keys[i].i]
  {
    var bits := d.LookupAll(keys).value;
    assert d.Deserialize(Tagged(tag, JArray(keys))) == Ok(Int(Unsigned(bits)));
    UnsignedBound(bits);
    ToBitsOfUnsigned(bits);
  }

  /** One unmeasured qubit in the list makes the decoding fail with
      `KeyError` rather than default. */
  lemma QUnsignedUnmeasured(d: Deserializer, tag: string, keys: seq<Json>)
    requires tag in {"Q_U8", "Q_U16", "Q_U32"}
    requires forall i :: 0 <= i < |keys| ==> keys[i].JInt?
    requires exists i :: 0 <= i < |keys| && keys[i].i !in d.measurements
    ensures d.Deserialize(Tagged(tag, JArray(keys))) == Err(KeyError)
  {
    FirstFailure(d, keys);
  }

  /** The error of a failing lookup list is that of its first failing key. */
  lemma {:induction false} FirstFailure(d: Deserializer, keys: seq<Json>)
    requires forall i :: 0 <= i < |keys| ==> keys[i].JInt?
    requires exists i :: 0 <= i < |keys| && keys[i].i !in d.measurements
    ensures d.LookupAll(keys) == Err(KeyError)
  {
    if keys[0].i in d.measurements {
      var j :| 0 <= j < |keys| && keys[j].i !in d.measurements;
      assert keys[1..][j - 1] == keys[j];
      FirstFailure(d, keys[1..]);
    }
  }

  /** Bits that are all set decode to `2^n - 1`. */
  lemma {:induction false} UnsignedAllSet(bits: seq<bool>)
    requires forall i :: 0 <= i < |bits| ==> bits[i]
    ensures Unsigned(bits) == Pow2(|bits|) - 1
  {
    if bits != [] {
      UnsignedAllSet(bits[..|bits| - 1]);
    }
  }

  /** The only number below `2^w` whose `w` binary digits are all set. */
  lemma AllSetIsMax(n: nat, w: nat)
    requires n < Pow2(w) && forall i :: 0 <= i < w ==> ToBits(n, w)[i]
    ensures n == Pow2(w) - 1
  {
    UnsignedOfToBits(n, w);
    UnsignedAllSet(ToBits(n, w));
  }

  /** There is no width check: a `Q_U8` over nine qubits that were all
      measured true decodes to 511, which does not fit in eight bits. */
  lemma QU8HasNoWidthCheck(d: Deserializer)
    requires forall q :: 0 <= q < 9 ==> q in d.measurements && d.measurements[q]
    ensures d.Deserialize(Tagged("Q_U8", JArray(seq(9, i => JInt(i))))) == Ok(Int(511))
  {
    var keys := seq(9, i => JInt(i));
    QUnsignedMeasured(d, "Q_U8", keys);
    AllSetIsMax(d.Deserialize(Tagged("Q_U8", JArray(keys))).value.n, 9);
  }
}
