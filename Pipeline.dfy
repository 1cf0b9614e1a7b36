/** Phase orchestration of the Rust binding: `Session::compile_inner` runs
    tokenize, parse, lower, check and codegen over a fresh compilation context,
    with two debug exits, and `Session::compile` turns its three outcomes into
    a list of gate objects or a `CavyError` (src/lib.rs:169-212).

    The five phases are the compiler's own and are not modelled: they are
    arbitrary functions, gathered in `Phases`, so everything proved here holds
    whatever they compute. */
module Pipeline {
  import opened Wrappers
  import opened Session
  import opened GateObjects
  import Circuit
  import Transcribe

  /** `ErrorBuf`: the diagnostics a failing phase reports, kept together. */
  datatype ErrorBuf = ErrorBuf(errs: seq<string>)

  /** `SrcId`: the handle of a source text in the context's source map. */
  type SrcId = nat

  /** What the phases see of the context: the configuration and the sources. */
  datatype CtxView = CtxView(conf: Config, srcs: seq<string>)

  /** `Context`: created afresh by every `compile` call from the session's
      configuration; `srcs` is its source map. */
  class Context {
    const conf: Config
    var srcs: seq<string>

    /** `Context::new(&conf)` */
    constructor (conf: Config)
      ensures this.conf == conf && srcs == []
    {
      this.conf := conf;
      srcs := [];
    }

    /** `ctx.srcs.insert_input(&src)`: appends the text and returns its id. */
    method InsertInput(src: string) returns (id: SrcId)
      modifies this
      ensures srcs == old(srcs) + [src]
      ensures id == |old(srcs)| && srcs[id] == src
    {
      id := |srcs|;
      srcs := srcs + [src];
    }

    function View(): CtxView
      reads this
    {
      CtxView(conf, srcs)
    }
  }

  /** The compiler's phases: `scanner::tokenize`, `parser::parse`,
      `lowering::lower` and `analysis::check` may fail with an `ErrorBuf`;
      `codegen::codegen` returns its circuit unconditionally. */
  datatype Phases<!Tok, !Ast, !Mir> = Phases(
    tokenize: (SrcId, CtxView) -> Result<Tok, ErrorBuf>,
    parse: (Tok, CtxView) -> Result<Ast, ErrorBuf>,
    lower: (Ast, CtxView) -> Result<Mir, ErrorBuf>,
    check: (Mir, CtxView) -> Result<(), ErrorBuf>,
    codegen: (Mir, CtxView) -> Circuit.Circuit)

  /** The phase calls of `compile_inner`, in the order they appear. */
  datatype Step = TokenizeCall | ParseCall | LowerCall | CheckCall | CodegenCall

  const AllSteps: seq<Step> := [TokenizeCall, ParseCall, LowerCall, CheckCall, CodegenCall]

  /** What one `compile_inner` call returns, with the phases it called. */
  datatype Run = Run(result: Result<Option<Circuit.Circuit>, ErrorBuf>, ran: seq<Step>)

  /** `compile_inner` once the source is in the context under `id`. */
  function Pipeline<Tok, Ast, Mir>(ph: Phases<Tok, Ast, Mir>, id: SrcId, v: CtxView): (r: Run)
    ensures 0 < |r.ran| <= |AllSteps| && r.ran == AllSteps[..|r.ran|]
    ensures r.result.Ok? && r.result.value.Some? <==> r.ran == AllSteps
    ensures r.result == Ok(None) ==> v.conf.debug
  {
    var tokens := ph.tokenize(id, v);
    if tokens.Err? then Run(Err(tokens.error), [TokenizeCall])
    else
      var ast := ph.parse(tokens.value, v);
      if ast.Err? then Run(Err(ast.error), [TokenizeCall, ParseCall])
      else if v.conf.debug && v.conf.phaseConfig.lastPhase == Parse then
        Run(Ok(None), [TokenizeCall, ParseCall])
      else
        var mir := ph.lower(ast.value, v);
        if mir.Err? then Run(Err(mir.error), [TokenizeCall, ParseCall, LowerCall])
        else if v.conf.debug && v.conf.phaseConfig.lastPhase == Typecheck then
          Run(Ok(None), [TokenizeCall, ParseCall, LowerCall])
        else
          var checked := ph.check(mir.value, v);
          if checked.Err? then Run(Err(checked.error), [TokenizeCall, ParseCall, LowerCall, CheckCall])
          else Run(Ok(Some(ph.codegen(mir.value, v))), AllSteps)
  }

  /** `Session::compile_inner`. */
  method CompileInner<Tok, Ast, Mir>(ctx: Context, src: string, ph: Phases<Tok, Ast, Mir>)
    returns (r: Result<Option<Circuit.Circuit>, ErrorBuf>, ghost ran: seq<Step>)
    modifies ctx
    ensures ctx.srcs == old(ctx.srcs) + [src]
    ensures Run(r, ran) == Pipeline(ph, |old(ctx.srcs)|, ctx.View())
  {
    var id := ctx.InsertInput(src);
    var v := ctx.View();

    ran := [TokenizeCall];
    var tokens := ph.tokenize(id, v);
    if tokens.Err? {
      return Err(tokens.error), ran;
    }

    ran := ran + [ParseCall];
    var ast := ph.parse(tokens.value, v);
    if ast.Err? {
      return Err(ast.error), ran;
    }
    if ctx.conf.debug && ctx.conf.phaseConfig.lastPhase == Parse {
      return Ok(None), ran;
    }

    ran := ran + [LowerCall];
    var mir := ph.lower(ast.value, v);
    if mir.Err? {
      return Err(mir.error), ran;
    }
    if ctx.conf.debug && ctx.conf.phaseConfig.lastPhase == Typecheck {
      return Ok(None), ran;
    }

    ran := ran + [CheckCall];
    var checked := ph.check(mir.value, v);
    if checked.Err? {
      return Err(checked.error), ran;
    }

    ran := ran + [CodegenCall];
    var circ := ph.codegen(mir.value, v);
    r := Ok(Some(circ));
  }

  // ----- the phases chained without the debug exits -----

  /** The abstract syntax tree that tokenizing then parsing gives. */
  function AstOf<Tok, Ast, Mir>(ph: Phases<Tok, Ast, Mir>, id: SrcId, v: CtxView): Result<Ast, ErrorBuf>
  {
    var tokens :- ph.tokenize(id, v);
    ph.parse(tokens, v)
  }

  /** The lowered program that tokenizing, parsing then lowering gives. */
  function MirOf<Tok, Ast, Mir>(ph: Phases<Tok, Ast, Mir>, id: SrcId, v: CtxView): Result<Mir, ErrorBuf>
  {
    var ast :- AstOf(ph, id, v);
    ph.lower(ast, v)
  }

  /** Whether the phases up to and including `s`, run one after another, all
      succeed, and otherwise the first error. */
  function Reached<Tok, Ast, Mir>(ph: Phases<Tok, Ast, Mir>, id: SrcId, v: CtxView, s: Step): Result<(), ErrorBuf>
  {
    match s
    case TokenizeCall => var _ :- ph.tokenize(id, v); Ok(())
    case ParseCall => var _ :- AstOf(ph, id, v); Ok(())
    case LowerCall => var _ :- MirOf(ph, id, v); Ok(())
    case CheckCall => var mir :- MirOf(ph, id, v); ph.check(mir, v)
    case CodegenCall => var mir :- MirOf(ph, id, v); ph.check(mir, v)
  }

  function Last<T>(s: seq<T>): T
    requires s != []
  {
    s[|s| - 1]
  }

  /** The phases run in the fixed order, starting with tokenizing and never
      skipping one: the calls made are a non-empty prefix of
      tokenize, parse, lower, check, codegen. */
  lemma PipelineRunsInOrder<Tok, Ast, Mir>(ph: Phases<Tok, Ast, Mir>, id: SrcId, v: CtxView)
    ensures var run := Pipeline(ph, id, v);
      0 < |run.ran| <= |AllSteps| && run.ran == AllSteps[..|run.ran|]
  {
  }

  /** A failing phase stops the pipeline: every phase before it succeeded, it
      is the last one called, and its own error buffer is what is returned. */
  lemma PipelineStopsAtFirstFailure<Tok, Ast, Mir>(ph: Phases<Tok, Ast, Mir>, id: SrcId, v: CtxView)
    ensures var run := Pipeline(ph, id, v);
      run.result.Err? ==>
        && Reached(ph, id, v, Last(run.ran)) == Err(run.result.error)
        && forall i :: 0 <= i < |run.ran| - 1 ==> Reached(ph, id, v, run.ran[i]).Ok?
    ensures var run := Pipeline(ph, id, v);
      run.result.Ok? ==> forall i :: 0 <= i < |run.ran| ==> Reached(ph, id, v, run.ran[i]).Ok?
  {
    var run := Pipeline(ph, id, v);
    assert run.ran == AllSteps[..|run.ran|];
  }

  /** `Ok(None)` comes from the two debug exits and nothing else: in debug mode
      with `Parse` as the last phase once parsing succeeds (lowering is not
      called), and in debug mode with `Typecheck` as the last phase once
      lowering succeeds (analysis is not called). */
  lemma PipelineEarlyExit<Tok, Ast, Mir>(ph: Phases<Tok, Ast, Mir>, id: SrcId, v: CtxView)
    ensures var run := Pipeline(ph, id, v);
      run.result == Ok(None) <==>
        || (v.conf.debug && v.conf.phaseConfig.lastPhase == Parse && AstOf(ph, id, v).Ok?)
        || (v.conf.debug && v.conf.phaseConfig.lastPhase == Typecheck && MirOf(ph, id, v).Ok?)
    ensures var run := Pipeline(ph, id, v);
      run.result == Ok(None) ==>
        run.ran == if v.conf.phaseConfig.lastPhase == Parse then [TokenizeCall, ParseCall] else [TokenizeCall, ParseCall, LowerCall]
  {
  }

  /** The skipped phases really are skipped: on the `Parse` exit the result
      does not depend on lowering, checking or code generation, and on the
      `Typecheck` exit it does not depend on checking or code generation. */
  lemma EarlyExitIgnoresLaterPhases<Tok, Ast, Mir>(
    ph: Phases<Tok, Ast, Mir>, id: SrcId, v: CtxView,
    lower: (Ast, CtxView) -> Result<Mir, ErrorBuf>,
    check: (Mir, CtxView) -> Result<(), ErrorBuf>,
    codegen: (Mir, CtxView) -> Circuit.Circuit)
    ensures v.conf.debug && v.conf.phaseConfig.lastPhase == Parse ==>
      Pipeline(ph.(lower := lower, check := check, codegen := codegen), id, v) == Pipeline(ph, id, v)
    ensures v.conf.debug && v.conf.phaseConfig.lastPhase == Typecheck ==>
      Pipeline(ph.(check := check, codegen := codegen), id, v) == Pipeline(ph, id, v)
  {
  }

  /** Every other success calls all five phases and returns the circuit that
      code generation makes from the lowered program. */
  lemma PipelineSuccess<Tok, Ast, Mir>(ph: Phases<Tok, Ast, Mir>, id: SrcId, v: CtxView)
    ensures var run := Pipeline(ph, id, v);
      (run.result.Ok? && run.result.value.Some?) <==> run.ran == AllSteps
    ensures var run := Pipeline(ph, id, v);
      run.result.Ok? && run.result.value.Some? ==>
        MirOf(ph, id, v).Ok? && run.result.value.value == ph.codegen(MirOf(ph, id, v).value, v)
  {
  }

  /** Without `debug` the configured last phase is never consulted: the
      pipeline never returns `Ok(None)`, and it calls all five phases whenever
      none fails. */
  lemma DebugOffRunsAllPhases<Tok, Ast, Mir>(ph: Phases<Tok, Ast, Mir>, id: SrcId, v: CtxView)
    requires !v.conf.debug
    ensures Pipeline(ph, id, v).result != Ok(None)
    ensures Reached(ph, id, v, CheckCall).Ok? ==> Pipeline(ph, id, v).ran == AllSteps
  {
  }

  /** A session built by `Session::new` always sets `Evaluate` as the last
      phase, so neither debug exit is ever taken through the binding. */
  lemma SessionNeverExitsEarly<Tok, Ast, Mir>(
    ph: Phases<Tok, Ast, Mir>, id: SrcId, srcs: seq<string>,
    opt: U8, debug: bool, qbCount: Option<nat>, qramSize: nat, measMode: string, feedback: bool)
    requires NewSession(opt, debug, qbCount, qramSize, measMode, feedback).Ok?
    ensures var s := NewSession(opt, debug, qbCount, qramSize, measMode, feedback).value;
      Pipeline(ph, id, CtxView(s.conf, srcs)).result != Ok(None)
  {
  }

  // ----- Session::compile -----

  /** What `Session::compile` hands back to Python: a list of gate objects, a
      raised `CavyError` carrying the formatted diagnostics, or a Rust panic. */
  datatype CompileOutcome = Gates(objs: seq<GateObj>) | CavyError(msg: string) | Panicked(panic: Panic)

  /** `Session::compile`: a fresh context, then `compile_inner`; `Ok(None)`
      gives an empty list, `Ok(Some(circ))` its transcription, and `Err(errs)`
      a `CavyError` whose message is `errs` formatted against the context
      (`fmt` stands for `ErrorBuf::fmt_with`). */
  method Compile<Tok, Ast, Mir>(session: Session, src: string, ph: Phases<Tok, Ast, Mir>,
                                fmt: (ErrorBuf, CtxView) -> string)
    returns (out: CompileOutcome)
    ensures var v := CtxView(session.conf, [src]);
      var result := Pipeline(ph, 0, v).result;
      && (out.CavyError? <==> result.Err?)
      && (result.Err? ==> out == CavyError(fmt(result.error, v)))
      && (result == Ok(None) ==> out == Gates([]))
      && (result.Ok? && result.value.Some? ==>
            match Transcribe.CircuitToPy(result.value.value)
            case Ok(objs) => out == Gates(objs)
            case Err(p) => out == Panicked(p))
  {
    var ctx := new Context(session.conf);
    var r, ran := CompileInner(ctx, src, ph);
    assert ctx.View() == CtxView(session.conf, [src]);
    match r {
      case Ok(Some(circ)) =>
        match Transcribe.CircuitToPy(circ) {
          case Ok(objs) => out := Gates(objs);
          case Err(p) => out := Panicked(p);
        }
      case Ok(None) =>
        out := Gates([]);
      case Err(errs) =>
        out := CavyError(fmt(errs, ctx.View()));
    }
  }
}
