# pycavy, modelled in Dafny

pycavy is the Python interface to the Cavy quantum-language compiler. This
project models its two small sequential cores and proves properties about them.

**The Rust binding (`src/lib.rs`).**
- `Session::new` resolves the measurement mode by exact string match and builds
  the compiler configuration.
- `Session::compile_inner` runs the compiler's phases in order: tokenize, parse,
  lower, check, codegen. It stops at the first error and has two debug exits.
- `Session::compile` turns the outcome into a list of gate objects or a
  `CavyError`.
- `circuit_to_py` transcribes the circuit buffer gate by gate into the objects
  that the `gates!` macro generates, whose `__repr__` gives a canonical string
  such as `T+[0]` or `CX[3, 1]`.

**The Python result decoder (`pycavy/compilation.py`).**
- `Deserializer` decodes tagged binding values (`Bool`, `Q_Bool`,
  `Q_U8/16/32`, `Array`, `Measured`) against a map from qubit index to
  measured bit.
- `ObjectFile.__parse_asm` splits the bindings header line off the object text.
- `CirqRunnable.run` decodes every binding.

Files:
- `Wrappers.dfy`: `Option`, `Result` and the kinds of Rust panic.
- `Strings.dfy`: search in strings.
- `Session.dfy`: the configuration, `get_meas_mode` and `Session::new`.
- `Circuit.dfy`: the compiler's internal gates.
- `GateObjects.dfy`: the `gates!` table and `__repr__`, with a reader that
  inverts `__repr__`.
- `Transcribe.dfy`: `circuit_to_py`.
- `Pipeline.dfy`: `Context`, `compile_inner` and `compile`.
- `PyValues.dfy`: JSON values, decoded values and Python exceptions.
- `Deserializer.dfy`: the `Deserializer` class.
- `Compilation.dfy`: `__parse_asm` and `run`.

The five compiler phases are not part of this model. They are arbitrary
function-valued parameters (`Pipeline.Phases`), so the orchestration results
hold whatever the phases compute. Several things are parameters for the same
reason:
- `ErrorBuf::fmt_with` is the `fmt` parameter of `Pipeline.Compile`.
- `json.loads` is the `loads` parameter of `Compilation.ParseAsm`.
- The measurements from sampling a circuit are a parameter of `Compilation.Run`.

Facts about the code that the model keeps:
- `circuit_to_py` has no filtering step and no control check. Every element of
  `circ_buf` becomes one object, and only a measurement stops it (`todo!()`).
- `codegen::codegen` cannot fail (src/lib.rs:210 has no `?`), so the model's
  `codegen` returns a circuit.
- The last phase is checked only in debug mode, after parsing and after
  lowering (`Pipeline.DebugOffRunsAllPhases`).
- `Session::new` always sets `Evaluate` as the last phase, so the debug exits
  are never taken through the binding (`Pipeline.SessionNeverExitsEarly`).
- `Session::new` takes no phase, recursion or constant-propagation option.

## Model

| member | source | states |
|---|---|---|
| `Session.GetMeasMode` | src/lib.rs:107-116 | `"nondemolition"` gives Nondemolition and `"demolition"` gives Demolition, each if and only if the string is exactly that; every other string is `Err` |
| `Session.MeasModeRoundTrip` | src/lib.rs:107-116 | each mode's name resolves to that mode, and a string resolves to a mode only if it is that mode's name |
| `Session.MeasModeIsCaseSensitive` | src/lib.rs:108-113 | capitalised, upper-case, truncated and empty strings are rejected |
| `Session.NewSession` | src/lib.rs:136-167 | panics (`unwrap`) exactly when the measurement mode is rejected; otherwise `typecheck` is true, the last phase is `Evaluate`, `debug`, `opt`, `qb_count`, `qram_size` and `feedback` are copied unchanged, and the mode is the one named |
| `Session.DefaultSessionBuilds` | src/lib.rs:128-135 | the constructor's keyword defaults build a session, with the configuration those defaults give |
| `GateObjects.Repr` | src/lib.rs:60-77 | the canonical string starts with the type name, ends with `]`, and has `+` right after the name exactly when `inv` is set |
| `GateObjects.ReprRoundTrip` | src/lib.rs:60-77 | reading back the canonical string of any well-formed gate object gives that object |
| `GateObjects.ReprInjective` | src/lib.rs:60-77 | distinct well-formed gate objects have distinct canonical strings |
| `GateObjects.ReprExamples` | src/lib.rs:84-86 | an H object on qubit 2 renders as `H[2]`, a T object on qubit 0 as `T+[0]` with `inv` set and `T[0]` without |
| `GateObjects.ReprSeparatorExamples` | src/lib.rs:72 | a CX object on `[3, 1]` renders as `CX[3, 1]` and a Z object on qubit 12 as `Z[12]` |
| `GateObjects.Dec` | src/lib.rs:72 | a `usize` renders as a non-empty string of decimal digits with no leading zero and no comma |
| `Transcribe.TranscribeGate` | src/lib.rs:89-100 | `M` panics (`todo!()`) and nothing else does; `CX{tgt, ctrl}` becomes a CX object on `[ctrl, tgt]`; `T{tgt, conj}` a T object on `[tgt]` with `inv = conj`; `H(q)` and, as written, `X(q)` an H object on `[q]`; `Z(q)` a Z object on `[q]`; every result is well formed |
| `Transcribe.TranscribeAll` | src/lib.rs:102 | succeeds exactly when no gate is a measurement; then the output is as long as `circ_buf` and its i-th object is the transcription of the i-th gate |
| `Transcribe.CircuitToPy` | src/lib.rs:88-105 | panics (`todo!()`) exactly when `circ_buf` holds a measurement; otherwise one well-formed object per element of `circ_buf`, in order, each the transcription of its gate |
| `Transcribe.AllWellFormed` | src/lib.rs:102 | every object of a transcribed circuit is well formed |
| `Transcribe.TranscribedReprExamples` | src/lib.rs:89-97 | internal `H(2)`, `T(0, conj)` and `CX(tgt 1, ctrl 3)` render as `H[2]`, `T+[0]` and `CX[3, 1]` |
| `Transcribe.XTranscribedAsH` | src/lib.rs:90 | an internal X gate transcribes exactly like an H gate on the same qubit, reads back as H, and renders as `H[0]` |
| `Transcribe.TranscribeGateFixed` | src/lib.rs:89-100 | with `X` mapped to an X object, every non-measurement gate gives a well-formed object that reads back as that same gate; the other cases are unchanged |
| `Transcribe.FixedTranscriptionInjective` | src/lib.rs:89-100 | with the fix, distinct gates have distinct canonical strings |
| `Pipeline.Context.constructor` | src/lib.rs:170 | a fresh context holds the session's configuration and no sources |
| `Pipeline.Context.InsertInput` | src/lib.rs:192 | appends the source text to the source map and returns its index |
| `Pipeline.Pipeline` | src/lib.rs:194-211 | the phases called are a non-empty prefix of tokenize, parse, lower, check, codegen; a circuit is returned exactly when all five are called; `Ok(None)` only in debug mode |
| `Pipeline.CompileInner` | src/lib.rs:191-212 | inserts the source, then returns, and calls exactly the phases, that `Pipeline.Pipeline` describes for the new source id and context |
| `Pipeline.PipelineRunsInOrder` | src/lib.rs:194-210 | the phases called are a non-empty prefix of tokenize, parse, lower, check, codegen |
| `Pipeline.PipelineStopsAtFirstFailure` | src/lib.rs:194-208 | on `Err`, every earlier phase succeeded, the failing phase is the last one called, and its own error buffer is returned; on `Ok`, every phase called succeeded |
| `Pipeline.PipelineEarlyExit` | src/lib.rs:197-206 | `Ok(None)` if and only if debug is set and either the last phase is `Parse` and parsing succeeded, or it is `Typecheck` and lowering succeeded; lowering or analysis respectively is then not called |
| `Pipeline.EarlyExitIgnoresLaterPhases` | src/lib.rs:197-206 | on the `Parse` debug exit the result is the same whatever lowering, analysis and code generation do; on the `Typecheck` exit, whatever analysis and code generation do |
| `Pipeline.PipelineSuccess` | src/lib.rs:208-211 | `Ok(Some(_))` exactly when all five phases are called, and the circuit is codegen's output on the lowered program |
| `Pipeline.DebugOffRunsAllPhases` | src/lib.rs:197-206 | without debug, `Ok(None)` never occurs and all five phases run whenever none fails |
| `Pipeline.SessionNeverExitsEarly` | src/lib.rs:145-148 | a session built by `Session::new` never gets `Ok(None)` from the pipeline |
| `Pipeline.Compile` | src/lib.rs:169-181 | a `CavyError` exactly when the pipeline fails, carrying the formatted errors; an empty list for `Ok(None)`; the transcription, or its panic, for `Ok(Some(circ))` |
| `Deserializer.Deserializer.SplitValue` | pycavy/compilation.py:228-233 | the first entry of a non-empty dict; `StopIteration` on an empty dict, `AttributeError` on a non-dict |
| `Deserializer.Deserializer.Lookup` | pycavy/compilation.py:239 | an integer key gives its measurement if measured, else `KeyError` (no default); list and dict keys raise `TypeError` |
| `Deserializer.Deserializer.LookupAll` | pycavy/compilation.py:243 | succeeds exactly when every key's lookup does; the i-th bit is the i-th key's measurement |
| `Deserializer.Deserializer.IterKeys` | pycavy/compilation.py:243 | `for qb in data` visits the items of a list, the one-character strings of a string and the keys of a dict, in order; any other value raises `TypeError` |
| `Deserializer.Deserializer.DecodeQBool` | pycavy/compilation.py:238-240 | succeeds exactly when the lookup of `data` does, giving its bit as a boolean; otherwise the lookup's error |
| `Deserializer.Deserializer.DecodeQUnsigned` | pycavy/compilation.py:242-247 | succeeds exactly when `data` is iterable and every qubit in it is measured; the result is below `2^n` for `n` qubits and its `n` binary digits, least significant first, are the looked-up bits |
| `Deserializer.Deserializer.DeserializeQUnsigned` | pycavy/compilation.py:242-247 | the accumulating loop returns the little-endian value of the looked-up bits (`DecodeQUnsigned`), below `2^n` for `n` qubits |
| `Deserializer.Deserializer.Deserialize` | pycavy/compilation.py:223-226 | succeeds only on a non-empty dict whose first tag is in the dispatch table |
| `Deserializer.Deserializer.DeserializeArray` | pycavy/compilation.py:249-250 | list data is decoded element by element (`DeserializeAll`) |
| `Deserializer.Deserializer.DeserializeAll` | pycavy/compilation.py:250 | succeeds exactly when every element decodes; the list has one decoded element per item, in order |
| `Deserializer.UnsignedLsbFirst` | pycavy/compilation.py:245-246 | the first bit is the least significant: `Unsigned([b] + rest) == b + 2 * Unsigned(rest)` |
| `Deserializer.UnsignedBound` | pycavy/compilation.py:242-247 | `n` bits decode to a number below `2^n` |
| `Deserializer.UnsignedOfToBits` | pycavy/compilation.py:242-247 | decoding the `w` low binary digits of a number below `2^w` gives that number |
| `Deserializer.ToBitsOfUnsigned` | pycavy/compilation.py:242-247 | the bits are recovered from the number they decode to |
| `Deserializer.UnsignedAllSet` | pycavy/compilation.py:242-247 | `n` set bits decode to `2^n - 1` |
| `Deserializer.DeserializeDispatch` | pycavy/compilation.py:213-226 | `Bool` returns its data unchanged, `Q_Bool` decodes the bit, `Measured` decodes its inner value, `Array` decodes its list; `Q_U8`, `Q_U16` and `Q_U32` decode alike; any other tag raises `NotImplementedError` |
| `Deserializer.QBoolMeasured` | pycavy/compilation.py:238-240 | `Q_Bool` gives the measured bit of its qubit, or `KeyError` for an unmeasured one |
| `Deserializer.QUnsignedMeasured` | pycavy/compilation.py:242-247 | measured qubits decode to a number below `2^n` whose i-th binary digit is the i-th listed qubit's measurement |
| `Deserializer.QUnsignedUnmeasured` | pycavy/compilation.py:243 | one unmeasured qubit makes the decoding raise `KeyError` |
| `Deserializer.QU8HasNoWidthCheck` | pycavy/compilation.py:216-218 | a `Q_U8` over qubits 0 to 8, all measured true, decodes to 511, which does not fit in eight bits |
| `Deserializer.ArrayDecodesInOrder` | pycavy/compilation.py:249-250 | `Array` gives a list of the same length, each element decoded in order, failing exactly when some element fails |
| `Compilation.SplitFirstLine` | pycavy/compilation.py:81 | `ValueError` exactly when there is no newline; otherwise the text is the first part, a newline and the second part, and the first part has no newline |
| `Compilation.SplitFirstLineOfJoin` | pycavy/compilation.py:81 | a newline-free line and a rest, joined by a newline, split back apart |
| `Compilation.LStrip` | pycavy/compilation.py:82 | the result is a suffix of the input, everything removed is the stripped character, and the result does not start with it |
| `Compilation.LStripIsNotPrefixRemoval` | pycavy/compilation.py:82 | `///{}`, `/{}` and `{}` all strip to `{}` |
| `Compilation.ParseAsm` | pycavy/compilation.py:78-83 | fails with `ValueError` when there is no newline; on success the text is a newline-free header, a newline and the returned QASM |
| `Compilation.ParseAsmOfJoin` | pycavy/compilation.py:78-83 | for a header line and a program, the program comes back verbatim and the bindings are `loads` of the header with every leading `/` stripped, `loads`' error propagating |
| `Compilation.RunEntries` | pycavy/compilation.py:161-162 | succeeds exactly when every binding decodes; the keys are exactly the bindings' names |
| `Compilation.Run` | pycavy/compilation.py:156-162 | for bindings as `json.loads` returns them: fails unless they are a dict; a dict is decoded entry by entry with a decoder over the given measurements |
| `Compilation.RunDecodesEachBinding` | pycavy/compilation.py:161-162 | with distinct names, each name maps to the decoding of its own value |
| `Compilation.RunDecodesLoadedBindings` | pycavy/compilation.py:156-162 | a successful run has exactly the bindings' names as keys, and maps each to the decoding of that binding's own value |

## Findings

| source | as written | input that shows it | evidently intended | confidence | as-written member | corrected member |
|---|---|---|---|---|---|---|
| src/lib.rs:90 | `circuit::Gate::X(qb)` builds `HGate::new([qb])` | internal `X(0)` gives the same object as `H(0)`, rendered `H[0]` | `XGate::new([qb])`, the X object type the same macro table generates and the module registers | high; not executed | `Transcribe.XTranscribedAsH` | `Transcribe.TranscribeGateFixed` |

`Transcribe.TranscribeAll`, and through it `Pipeline.Compile`, keep the mapping
as written, because that is what the binding does. The corrected closure is
given beside it, with its round trip and injectivity proved.

## Left out

- pyo3 plumbing is not modelled. This covers `#[pyclass]`/`#[pymodule]`
  registration, the `Gate` base class, `PyCell::new`, `create_exception!` and
  the conversion of Rust panics into Python exceptions. A gate object is a plain
  value `{kind, qbs, inv}`, and a panic is the `Panicked` outcome of `Compile`.
- `__str__` is not a separate member. It returns `__repr__`, so both are
  `GateObjects.Repr`.
- The `target: NullTarget` field of `Config` is not modelled. No modelled
  operation reads it.
- `usize` values (qubit indices, `qb_count`, `qram_size`) are unbounded
  naturals. Nothing in the model does arithmetic on them. `opt` is a `u8`.
- The bodies of `scanner::tokenize`, `parser::parse`, `lowering::lower`,
  `analysis::check` and `codegen::codegen` are not modelled. They belong to the
  compiler and are parameters here.
- The phases' own changes to the `Context` are not modelled. Each phase sees the
  context as a value: the configuration and the source map after the input was
  inserted.
- `ErrorBuf::fmt_with` is not modelled. It is the formatting parameter `fmt`.
- The `println!` debug dumps are left out. They are output only.
- `Program.compile` is left out. It writes the source to a temporary file,
  runs the `cavy` binary and returns an `ObjectFile`. When the binary exits
  non-zero it raises `CavyError` with the process's stderr; that raise is not
  modelled.
- `ObjectFile.__init__` reads and deletes the object file. Its parsing step,
  `__parse_asm`, is `Compilation.ParseAsm`.
- `json.loads` is not modelled. It is the `loads` parameter of `ParseAsm`.
- JSON floating-point numbers are not modelled. This affects a float used as a
  qubit key.
- `CirqRunnable.sample_circuit` is left out. It samples a circuit through Cirq;
  its measurements are a parameter of `Run`.
- `to_qasm` is left out. It reads an attribute that is never set.
- `to_qiskit`, `to_cirq`, `to_labber`, `to_diagram`, `QiskitRunnable`,
  `Diagram.fixup_circuit` and `Diagram.to_pdf` are left out. They are thin
  wrappers over Qiskit, Cirq and pylatex, or a regular expression over their
  output.
- `dependencies.py`, `__init__.py` and `pycavy/__init__.py` are not part of this
  model. They hold import machinery, documentation and re-exports.
- Measurement values are modelled as booleans. In the code they are NumPy
  scalars taken from a pandas row, sampled with `dtype=bool`.
- `Deserializer.Deserializer.DecodeQUnsigned` and
  `Deserializer.Deserializer.DeserializeQUnsigned` sum `(1 << i) * bit`
  without bound. In the code, `bit` is a NumPy scalar, so the product and the
  sum use NumPy's fixed-width integers. From the 64th listed qubit on, `1 << 63`
  no longer fits in 64 bits, and the code no longer returns the exact sum: it
  raises, converts to a float or wraps, depending on the NumPy version.
  So `Deserializer.QUnsignedMeasured` matches the code only for fewer than 64
  qubits. The tags name at most 32 bits.
- `Deserializer.Deserializer.Deserialize` is defined on every JSON value,
  including objects with a repeated key. `json.loads` never produces those
  (`PyValues.Loaded`); on them the model reads the first entry, where Python
  would see one entry holding the last value. Only `Compilation.Run` requires
  `Loaded` of its input.
- `Compilation.RunEntries` and `Compilation.Run` return an unordered map. The
  dict comprehension's result also keeps the bindings' order, which the model
  does not capture.
