/** The rest of the Python-side result handling: `ObjectFile.__parse_asm`,
    which splits the bindings header off the compiler's object text
    (pycavy/compilation.py:77-83), and `CirqRunnable.run`, which decodes every
    binding against the measurements of a run (pycavy/compilation.py:156-162).
    `json.loads` is a parameter: any function from text to a JSON value or an
    error. */
module Compilation {
  import opened Wrappers
  import opened Strings
  import opened PyValues
  import opened Deserializer

  /** `text.split(sep='\n', maxsplit=1)` unpacked into two names: the text
      before the first newline and the text after it; with no newline there
      is only one part and the unpacking raises `ValueError`. */
  function SplitFirstLine(text: string): (r: Result<(string, string), PyError>)
    ensures r.Err? <==> '\n' !in text
    ensures r.Err? ==> r.error == ValueError
    ensures r.Ok? ==> '\n' !in r.value.0 && text == r.value.0 + "\n" + r.value.1
  {
    match IndexOf(text, '\n')
    case None => Err(ValueError)
    case Some(i) =>
      assert text == text[..i] + "\n" + text[i + 1..];
      Ok((text[..i], text[i + 1..]))
  }

  /** A first line and the rest, joined by a newline, split back apart. */
  lemma SplitFirstLineOfJoin(header: string, rest: string)
    requires '\n' !in header
    ensures SplitFirstLine(header + "\n" + rest) == Ok((header, rest))
  {
    var text := header + "\n" + rest;
    assert text == header + ("\n" + rest);
    IndexOfAfter(header, "\n" + rest, '\n');
    assert text[..|header|] == header;
    assert text[|header| + 1..] == rest;
  }

  /** `s.lstrip(c)`: every leading `c` removed, and nothing else. */
  function LStrip(s: string, c: char): (r: string)
    ensures |r| <= |s| && r == s[|s| - |r|..]
    ensures forall i :: 0 <= i < |s| - |r| ==> s[i] == c
    ensures r == [] || r[0] != c
  {
    if s != [] && s[0] == c then LStrip(s[1..], c) else s
  }

  /** `ObjectFile.__parse_asm`: the first line, stripped of its leading
      slashes (`lstrip('//')` strips every leading `/`), is read as the
      bindings; the rest of the text is the QASM program. */
  function ParseAsm(text: string, loads: string -> Result<Json, PyError>): (r: Result<(Json, string), PyError>)
    ensures '\n' !in text ==> r == Err(ValueError)
    ensures r.Ok? ==> exists header :: '\n' !in header && text == header + "\n" + r.value.1
  {
    var (header, qasm) :- SplitFirstLine(text);
    var bindings :- loads(LStrip(header, '/'));
    Ok((bindings, qasm))
  }

  /** For a header line and a program joined by a newline, the program comes
      back verbatim and the bindings are read from the header with its
      leading slashes stripped, whether it starts with one slash, two, or
      none. */
  lemma ParseAsmOfJoin(header: string, qasm: string, loads: string -> Result<Json, PyError>)
    requires '\n' !in header
    ensures var r := ParseAsm(header + "\n" + qasm, loads);
      && (r.Ok? <==> loads(LStrip(header, '/')).Ok?)
      && (r.Ok? ==> r.value == (loads(LStrip(header, '/')).value, qasm))
      && (r.Err? ==> r.error == loads(LStrip(header, '/')).error)
  {
    SplitFirstLineOfJoin(header, qasm);
  }

  /** `lstrip` removes every leading slash, not just a `//` prefix. */
  lemma LStripIsNotPrefixRemoval()
    ensures LStrip("///{}", '/') == "{}"
    ensures LStrip("/{}", '/') == "{}"
    ensures LStrip("{}", '/') == "{}"
  {
    assert LStrip("{}", '/') == "{}" by { assert "{}"[0] == '{'; }
    assert LStrip("/{}", '/') == LStrip("{}", '/') by { assert "/{}"[1..] == "{}"; }
    assert LStrip("//{}", '/') == LStrip("/{}", '/') by { assert "//{}"[1..] == "/{}"; }
    assert LStrip("///{}", '/') == LStrip("//{}", '/') by { assert "///{}"[1..] == "//{}"; }
  }

  // ----- CirqRunnable.run -----

  /** The dict comprehension over `entries`, in order: each value decoded,
      the first failure propagating. */
  function RunEntries(d: Deserializer, entries: seq<(string, Json)>): (r: Result<map<string, PyObj>, PyError>)
    ensures r.Ok? <==> forall i :: 0 <= i < |entries| ==> d.Deserialize(entries[i].1).Ok?
    ensures r.Ok? ==> r.value.Keys == set i | 0 <= i < |entries| :: entries[i].0
  {
    if entries == [] then Ok(map[])
    else
      var front := entries[..|entries| - 1];
      var (name, value) := entries[|entries| - 1];
      var m :- RunEntries(d, front);
      var v :- d.Deserialize(value);
      assert (set i | 0 <= i < |entries| :: entries[i].0)
          == (set i | 0 <= i < |front| :: front[i].0) + {name};
      Ok(m[name := v])
  }

  /** `CirqRunnable.run` once the circuit has been sampled: `bindings`, as
      `json.loads` returned it, must be a dict, and every binding is decoded
      against `measurements`. */
  function Run(bindings: Json, measurements: map<int, bool>): (r: Result<map<string, PyObj>, PyError>)
    requires Loaded(bindings)
    ensures r.Ok? ==> bindings.JObject?
    ensures bindings.JObject? ==> r == RunEntries(Deserializer(measurements), bindings.entries)
  {
    match bindings
    case JObject(entries) => RunEntries(Deserializer(measurements), entries)
    case _ => Err(AttributeError)
  }

  /** With distinct names, the result maps each binding's name to the
      decoding of its own value. */
  lemma {:induction false} RunDecodesEachBinding(d: Deserializer, entries: seq<(string, Json)>, k: nat)
    requires DistinctKeys(entries)
    requires RunEntries(d, entries).Ok?
    requires k < |entries|
    ensures entries[k].0 in RunEntries(d, entries).value
    ensures RunEntries(d, entries).value[entries[k].0] == d.Deserialize(entries[k].1).value
  {
    var n := |entries|;
    var front := entries[..n - 1];
    if k < n - 1 {
      assert front[k] == entries[k];
      RunDecodesEachBinding(d, front, k);
      assert entries[k].0 != entries[n - 1].0;
    }
  }

  /** A successful run maps every binding's name to the decoding of that
      binding's own value, and has no other names. */
  lemma RunDecodesLoadedBindings(bindings: Json, measurements: map<int, bool>)
    requires Loaded(bindings) && Run(bindings, measurements).Ok?
    ensures bindings.JObject?
    ensures var r := Run(bindings, measurements).value;
      && r.Keys == (set i | 0 <= i < |bindings.entries| :: bindings.entries[i].0)
      && forall k :: 0 <= k < |bindings.entries| ==>
           r[bindings.entries[k].0] == Deserializer(measurements).Deserialize(bindings.entries[k].1).value
  {
    forall k | 0 <= k < |bindings.entries|
      ensures Run(bindings, measurements).value[bindings.entries[k].0]
              == Deserializer(measurements).Deserialize(bindings.entries[k].1).value
    {
      RunDecodesEachBinding(Deserializer(measurements), bindings.entries, k);
    }
  }
}
