/** The Python values the result decoder handles: JSON data as `json.loads`
    produces it, the values the decoder returns, and the exceptions it raises. */
module PyValues {

  /** A JSON value. An object is its entries in insertion order. The type
      also admits objects with a repeated key, which `json.loads` never
      produces (see `Loaded`). Floating-point numbers are not modelled. */
  datatype Json =
    | JNull
    | JBool(b: bool)
    | JInt(i: int)
    | JStr(s: string)
    | JArray(items: seq<Json>)
    | JObject(entries: seq<(string, Json)>)

  /** No key occurs twice among the entries. */
  predicate DistinctKeys(entries: seq<(string, Json)>)
  {
    forall i, j :: 0 <= i < j < |entries| ==> entries[i].0 != entries[j].0
  }

  /** What `json.loads` returns: it builds each object as a Python dict, so a
      repeated key keeps one entry (its last value, at its first position),
      and every object, at any depth, has distinct keys. */
  predicate Loaded(j: Json)
  {
    match j
    case JArray(items) => forall i :: 0 <= i < |items| ==> Loaded(items[i])
    case JObject(entries) =>
      DistinctKeys(entries) && forall i :: 0 <= i < |entries| ==> Loaded(entries[i].1)
    case _ => true
  }

  /** A decoded value: JSON data handed back unchanged, a measured boolean, a
      measured unsigned number, or a list of decoded values. */
  datatype PyObj =
    | Raw(data: Json)
    | Bool(b: bool)
    | Int(n: nat)
    | List(elems: seq<PyObj>)

  /** The Python exceptions the decoder and the object-file reader can raise. */
  datatype PyError =
    | AttributeError      // `.items()` on something that is not a dict
    | StopIteration       // `next(iter(...))` on an empty dict
    | KeyError            // a qubit index with no measurement
    | TypeError           // iterating a scalar, or an unhashable key
    | NotImplementedError // a type tag outside the dispatch table
    | ValueError          // unpacking a split with too few parts, or bad JSON
}
