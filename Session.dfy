/** Configuration of a compilation session, as the Rust binding builds it:
    the measurement-mode resolver `get_meas_mode` and the `Session` constructor
    (src/lib.rs:107-167). */
module Session {
  import opened Wrappers

  /** Rust `u8`, the type of the optimization level. */
  newtype U8 = x: int | 0 <= x < 256

  datatype MeasurementMode = Nondemolition | Demolition

  /** The compiler's phases, in pipeline order; `Evaluate` is the terminal
      phase of pipelines that go on to run the circuit. */
  datatype Phase =
    | Tokenize | Parse | Typecheck | Analysis | Optimization | Translation | Codegen | Evaluate

  datatype PhaseConfig = PhaseConfig(typecheck: bool, lastPhase: Phase)

  /** Target architecture; `usize` quantities are unbounded naturals here. */
  datatype Arch = Arch(qbCount: Option<nat>, qramSize: nat, measMode: MeasurementMode, feedback: bool)

  datatype Config = Config(debug: bool, arch: Arch, opt: U8, phaseConfig: PhaseConfig)

  /** A session owns its configuration, which never changes after construction. */
  datatype Session = Session(conf: Config)

  /** The one spelling `get_meas_mode` accepts for each mode. */
  function ModeName(m: MeasurementMode): string
  {
    match m
    case Nondemolition => "nondemolition"
    case Demolition => "demolition"
  }

  /** `get_meas_mode`: exact, case-sensitive match against the two mode names. */
  function GetMeasMode(mode: string): (r: Result<MeasurementMode, ()>)
    ensures r == Ok(Nondemolition) <==> mode == "nondemolition"
    ensures r == Ok(Demolition) <==> mode == "demolition"
    ensures r.Err? <==> mode != "nondemolition" && mode != "demolition"
  {
    if mode == "nondemolition" then Ok(Nondemolition)
    else if mode == "demolition" then Ok(Demolition)
    else Err(())
  }

  /** `ModeName` and `GetMeasMode` are inverse: every mode's name resolves to
      that mode, and a string resolves to a mode only if it is that mode's name. */
  lemma MeasModeRoundTrip(m: MeasurementMode, s: string)
    ensures GetMeasMode(ModeName(m)) == Ok(m)
    ensures GetMeasMode(s) == Ok(m) ==> s == ModeName(m)
  {
  }

  /** Case variants and prefixes of the accepted names are rejected. */
  lemma MeasModeIsCaseSensitive()
    ensures GetMeasMode("Nondemolition").Err?
    ensures GetMeasMode("DEMOLITION").Err?
    ensures GetMeasMode("demol").Err?
    ensures GetMeasMode("").Err?
  {
  }

  /** `Session::new`. The phase configuration is fixed (typechecking on, run
      through `Evaluate`), the architecture and debug/optimization options are
      copied through, and an unaccepted measurement mode makes the `unwrap`
      panic. */
  function NewSession(opt: U8, debug: bool, qbCount: Option<nat>, qramSize: nat,
                      measMode: string, feedback: bool): (r: Result<Session, Panic>)
    ensures r.Err? <==> measMode != "nondemolition" && measMode != "demolition"
    ensures r.Err? ==> r.error == UnwrapOnErr
    ensures r.Ok? ==>
      && r.value.conf.phaseConfig.typecheck
      && r.value.conf.phaseConfig.lastPhase == Evaluate
      && r.value.conf.debug == debug
      && r.value.conf.opt == opt
      && r.value.conf.arch.qbCount == qbCount
      && r.value.conf.arch.qramSize == qramSize
      && r.value.conf.arch.feedback == feedback
      && ModeName(r.value.conf.arch.measMode) == measMode
  {
    var phaseConfig := PhaseConfig(true, Evaluate);
    match GetMeasMode(measMode)
    case Err(_) => Err(UnwrapOnErr)
    case Ok(mode) =>
      Ok(Session(Config(debug, Arch(qbCount, qramSize, mode, feedback), opt, phaseConfig)))
  }

  /** The keyword defaults of the Python constructor (`opt=3`, `debug=false`,
      `qb_count=None`, `qram_size=0`, `meas_mode="nondemolition"`,
      `feedback=false`) build a session without panicking. */
  lemma DefaultSessionBuilds()
    ensures var r := NewSession(3, false, None, 0, "nondemolition", false);
      && r.Ok?
      && r.value.conf == Config(false, Arch(None, 0, Nondemolition, false), 3, PhaseConfig(true, Evaluate))
  {
  }
}
