/** The tracing wrappers of redis_opentracing/__init__.py: the configuration
    written by `init_tracing`, the command wrapper `tracing_execute_command`
    and the pipeline wrapper `tracing_execute`. Each wrapper is a pure
    function of the configuration, its arguments and the wrapped method
    (given as a function from the forwarded call to its outcome); it returns
    the outcome seen by the caller and the event log of the call. */
module Tracing {
  import opened Common
  import opened Strings
  import opened Statements
  import opened Spans

  /** The module globals `g_tracer`, `g_trace_all_classes`, `g_trace_prefix`. */
  datatype Config = Config(tracer: Option<TracerObj>, traceAllClasses: bool, prefix: Option<string>)

  /** The globals before any `init_tracing`. */
  const Unconfigured := Config(None, true, None)

  /** `init_tracing`'s default prefix. */
  const DefaultPrefix: Option<string> := Some("Redis")

  /** `init_tracing`: stores the flag and the prefix as given, and the tracer
      after one level of `_tracer` unwrapping. The configuration does not
      depend on any earlier one: the last call wins. */
  function InitTracing(tracer: Option<TracerObj>, traceAllClasses: bool, prefix: Option<string>): (c: Config)
    ensures c.traceAllClasses == traceAllClasses && c.prefix == prefix
    ensures tracer.Some? && tracer.value.Wrapping? ==> c.tracer == tracer.value.inner
    ensures tracer.Some? && tracer.value.Plain? ==> c.tracer == tracer
    ensures tracer.None? ==> c.tracer.None?
  {
    var stored := match tracer
      case Some(Wrapping(_, inner)) => inner
      case _ => tracer;
    Config(stored, traceAllClasses, prefix)
  }

  /** How a call ends: a value returned, an `Exception` raised, or another
      `BaseException` (such as `KeyboardInterrupt`) raised. */
  datatype Outcome<+V> = Ok(value: V) | Exc(error: Throwable) | Other(error: Throwable)

  /** What a traced call gives back: the caller's outcome and the event log. */
  datatype Traced<+V> = Traced(outcome: Outcome<V>, log: seq<Event>)

  /** `reported_args[0]` on an empty tuple. */
  const IndexError := Throwable("IndexError", "tuple index out of range")

  /** `g_tracer.start_span` while `g_tracer` is `None`. */
  const NoTracerError := Throwable("AttributeError", "'NoneType' object has no attribute 'start_span'")

  /** The four base tags every span carries. */
  function BaseTags(stmt: string): map<string, TagValue>
  {
    map["component" := Text("redis-py"), "db.type" := Text("redis"),
        "db.statement" := Text(stmt), "span.kind" := Text("client")]
  }

  /** The contract of one traced call, read off its log: before anything else,
      a single span named `name` is started on `tracer`; the base tags with statement `stmt` are all set, and
      nothing else, when the wrapped method receives `call`, its one and only
      call; the span is finished exactly once, after the call, and nothing
      follows; at the finish it carries `error` and `error.object` exactly when
      the outcome is an `Exception`. */
  predicate SpanContract<V>(log: seq<Event>, tracer: TracerObj, name: string, stmt: string, call: Call, outcome: Outcome<V>)
  {
    var s := Replay(log);
    && s.early == 0
    && s.starts == 1
    && s.tracer == Some(tracer)
    && s.name == name
    && s.calls == [call]
    && s.tagsAtCall == BaseTags(stmt)
    && FinishedOnce(s)
    && (outcome.Exc? ==>
          s.tagsAtFinish == BaseTags(stmt)["error" := Text("true")]["error.object" := Object(outcome.error)])
    && (!outcome.Exc? ==> s.tagsAtFinish == BaseTags(stmt))
  }

  /** A log obeying the span contract opens with the `Start` and closes with
      its only `Finish`. */
  lemma SpanContractShape<V>(log: seq<Event>, tracer: TracerObj, name: string, stmt: string, call: Call,
                             outcome: Outcome<V>)
    requires SpanContract(log, tracer, name, stmt, call, outcome)
    ensures |log| > 0 && log[0].Start?
    ensures log[|log| - 1] == Finish && Finish !in log[..|log| - 1]
  {
    StartedFirstIff(log);
    FinishedOnceIff(log);
  }

  /** `_set_base_span_tags`: the four `set_tag` calls, in order. Each sets
      one of the base tags to its value, and no tag is set twice, so together
      they set exactly the base tags. */
  function BaseTagEvents(stmt: string): (r: seq<Event>)
    ensures |r| == |BaseTags(stmt)|
    ensures forall i :: 0 <= i < |r| ==>
              r[i].SetTag? && r[i].key in BaseTags(stmt) && BaseTags(stmt)[r[i].key] == r[i].value
    ensures forall i, j :: 0 <= i < j < |r| ==> r[i].key != r[j].key
  {
    [SetTag("component", Text("redis-py")), SetTag("db.type", Text("redis")),
     SetTag("db.statement", Text(stmt)), SetTag("span.kind", Text("client"))]
  }

  /** Replaying the start, the base tags and the call: one span, started
      first, holding exactly the base tags when the call is made. */
  lemma CalledReplay(tracer: TracerObj, name: string, stmt: string, call: Call)
    ensures Replay([Start(tracer, name)] + BaseTagEvents(stmt) + [Delegate(call)])
            == SpanState(0, 1, Some(tracer), name, BaseTags(stmt), [call], BaseTags(stmt), 0, map[], 0)
  {
    var e0 := Start(tracer, name);
    var tags := BaseTagEvents(stmt);
    var l0: seq<Event> := [];
    ReplaySnoc(l0, e0);
    var l1 := l0 + [e0];
    ReplaySnoc(l1, tags[0]);
    var l2 := l1 + [tags[0]];
    ReplaySnoc(l2, tags[1]);
    var l3 := l2 + [tags[1]];
    ReplaySnoc(l3, tags[2]);
    var l4 := l3 + [tags[2]];
    ReplaySnoc(l4, tags[3]);
    var l5 := l4 + [tags[3]];
    assert l5 == [e0] + tags;
    assert Replay(l5).tags == BaseTags(stmt);
    ReplaySnoc(l5, Delegate(call));
  }

  /** The `except Exception` branch: an `Exception` adds `error` and
      `error.object` to a started, unfinished span; a returned value or
      another `BaseException` adds nothing. */
  function WithErrorTags<V>(log: seq<Event>, outcome: Outcome<V>): (r: seq<Event>)
    ensures var s := Replay(log);
            s.starts > 0 && s.finishes == 0 ==>
              Replay(r) == if outcome.Exc? then
                             s.(tags := s.tags["error" := Text("true")]["error.object" := Object(outcome.error)])
                           else s
  {
    if outcome.Exc? then
      var flagged := log + [SetTag("error", Text("true"))];
      ReplaySnoc(log, SetTag("error", Text("true")));
      ReplaySnoc(flagged, SetTag("error.object", Object(outcome.error)));
      flagged + [SetTag("error.object", Object(outcome.error))]
    else log
  }

  /** The events of one traced call once the span is started: start, base
      tags, the call, the error tags of an `Exception`, and the finish of the
      `finally` block. They obey the span contract. */
  function SpanEvents<V>(tracer: TracerObj, name: string, stmt: string, call: Call, outcome: Outcome<V>): (r: seq<Event>)
    ensures SpanContract(r, tracer, name, stmt, call, outcome)
  {
    var called := [Start(tracer, name)] + BaseTagEvents(stmt) + [Delegate(call)];
    CalledReplay(tracer, name, stmt, call);
    var tagged := WithErrorTags(called, outcome);
    ReplaySnoc(tagged, Finish);
    tagged + [Finish]
  }

  /** Whether the wrapper was installed on the class (`is_klass`), where the
      first positional argument is the client itself, or on one instance. */
  datatype PatchMode = ClassWide | Instance

  /** The arguments the span reports: all of them on an instance, all but the
      receiver when installed class-wide. */
  function ReportedArgs(mode: PatchMode, args: seq<string>): (r: seq<string>)
    ensures mode.Instance? ==> r == args
    ensures mode.ClassWide? && |args| > 0 ==> [args[0]] + r == args
    ensures mode.ClassWide? && |args| == 0 ==> r == []
  {
    match mode
    case Instance => args
    case ClassWide => if |args| == 0 then [] else args[1..]
  }

  /** `tracing_execute_command`. Without a reported argument the lookup of the
      command raises `IndexError`, and without a tracer `start_span` raises
      `AttributeError`; either way nothing is logged and the wrapped method is
      not called. Otherwise the caller sees exactly the wrapped method's
      outcome for the unchanged arguments, and the log obeys the span
      contract with the command's name and statement. */
  function TraceCommand<V>(cfg: Config, mode: PatchMode, args: seq<string>, kwargs: map<string, string>,
                           execute: (seq<string>, map<string, string>) -> Outcome<V>): (r: Traced<V>)
    ensures ReportedArgs(mode, args) == [] ==> r.outcome == Exc(IndexError) && r.log == []
    ensures ReportedArgs(mode, args) != [] && cfg.tracer.None? ==>
              r.outcome == Exc(NoTracerError) && r.log == []
    ensures ReportedArgs(mode, args) != [] && cfg.tracer.Some? ==>
              && r.outcome == execute(args, kwargs)
              && SpanContract(r.log, cfg.tracer.value, OperationName(cfg.prefix, ReportedArgs(mode, args)[0]),
                              NormalizeStmt(ReportedArgs(mode, args)), CommandCall(args, kwargs), r.outcome)
  {
    var reported := ReportedArgs(mode, args);
    if |reported| == 0 then Traced(Exc(IndexError), [])
    else if cfg.tracer.None? then Traced(Exc(NoTracerError), [])
    else
      var name := OperationName(cfg.prefix, reported[0]);
      var stmt := NormalizeStmt(reported);
      var outcome := execute(args, kwargs);
      Traced(outcome, SpanEvents(cfg.tracer.value, name, stmt, CommandCall(args, kwargs), outcome))
  }

  /** What the wrapped `execute` does: its outcome and the command stack it
      leaves behind (redis-py empties it). */
  datatype Executed<+V> = Executed(outcome: Outcome<V>, stackAfter: seq<StackEntry>)

  /** A traced pipeline execution: the traced outcome and the stack after it. */
  datatype PipelineRun<+V> = PipelineRun(traced: Traced<V>, stackAfter: seq<StackEntry>)

  /** `tracing_execute`. Without a tracer it raises `AttributeError`, logs
      nothing and leaves the stack alone. Otherwise it forwards
      `raise_on_error` (`True` when the caller omits it), passes the wrapped
      method's outcome and resulting stack through unchanged, and the log
      obeys the span contract with name `MULTI` under the prefix and the
      statement of the stack as it was BEFORE the execution. */
  function TracePipelineExecute<V>(cfg: Config, stack: seq<StackEntry>, raiseOnError: Option<bool>,
                                   execute: bool -> Executed<V>): (r: PipelineRun<V>)
    ensures cfg.tracer.None? ==> r == PipelineRun(Traced(Exc(NoTracerError), []), stack)
    ensures cfg.tracer.Some? ==>
              var flag := if raiseOnError.Some? then raiseOnError.value else true;
              && r.traced.outcome == execute(flag).outcome
              && r.stackAfter == execute(flag).stackAfter
              && SpanContract(r.traced.log, cfg.tracer.value, OperationName(cfg.prefix, "MULTI"), NormalizeStmts(stack),
                              ExecuteCall(flag), r.traced.outcome)
  {
    if cfg.tracer.None? then PipelineRun(Traced(Exc(NoTracerError), []), stack)
    else
      var flag := raiseOnError.GetOr(true);
      var name := OperationName(cfg.prefix, "MULTI");
      var stmt := NormalizeStmts(stack);
      var done := execute(flag);
      PipelineRun(Traced(done.outcome, SpanEvents(cfg.tracer.value, name, stmt, ExecuteCall(flag), done.outcome)), done.stackAfter)
  }

  /** Tracing is transparent: with a tracer and a command, the traced call and
      the plain call end the same way, whatever that way is. */
  lemma CommandTransparent<V>(cfg: Config, mode: PatchMode, args: seq<string>, kwargs: map<string, string>,
                              execute: (seq<string>, map<string, string>) -> Outcome<V>)
    requires cfg.tracer.Some? && ReportedArgs(mode, args) != []
    ensures TraceCommand(cfg, mode, args, kwargs, execute).outcome == execute(args, kwargs)
    ensures execute(args, kwargs).Ok? ==> !("error" in Replay(TraceCommand(cfg, mode, args, kwargs, execute).log).tagsAtFinish)
    ensures execute(args, kwargs).Other? ==> !("error" in Replay(TraceCommand(cfg, mode, args, kwargs, execute).log).tagsAtFinish)
  {
  }

  /** Installing class-wide or on an instance reports the same span for the
      same command: the receiver is the only difference. */
  lemma ClassWideDropsReceiver<V>(cfg: Config, client: string, args: seq<string>, kwargs: map<string, string>,
                                  execute: (seq<string>, map<string, string>) -> Outcome<V>,
                                  executeBound: (seq<string>, map<string, string>) -> Outcome<V>)
    requires forall a, k :: executeBound(a, k) == execute([client] + a, k)
    ensures TraceCommand(cfg, ClassWide, [client] + args, kwargs, execute).outcome
            == TraceCommand(cfg, Instance, args, kwargs, executeBound).outcome
    ensures Replay(TraceCommand(cfg, ClassWide, [client] + args, kwargs, execute).log).tagsAtFinish
            == Replay(TraceCommand(cfg, Instance, args, kwargs, executeBound).log).tagsAtFinish
    ensures Replay(TraceCommand(cfg, ClassWide, [client] + args, kwargs, execute).log).name
            == Replay(TraceCommand(cfg, Instance, args, kwargs, executeBound).log).name
  {
    assert ReportedArgs(ClassWide, [client] + args) == args;
  }

  /** A client traced with `trace_client` before any `init_tracing` fails on
      every command with `AttributeError`, opens no span and never reaches
      the server. */
  lemma UnconfiguredCommandFails<V>(args: seq<string>, kwargs: map<string, string>,
                                    execute: (seq<string>, map<string, string>) -> Outcome<V>)
    requires |args| > 0
    ensures TraceCommand(Unconfigured, Instance, args, kwargs, execute) == Traced(Exc(NoTracerError), [])
  {
  }

  /** After `init_tracing` with a tracer that wraps another, every span is
      started on the inner tracer, never on the wrapper; a wrapper whose inner
      tracer is `None` leaves the layer without a tracer. */
  lemma WrappedTracerUnwrapped<V>(id: string, inner: Option<TracerObj>, traceAll: bool, prefix: Option<string>,
                                  mode: PatchMode, args: seq<string>, kwargs: map<string, string>,
                                  execute: (seq<string>, map<string, string>) -> Outcome<V>)
    requires ReportedArgs(mode, args) != []
    ensures var r := TraceCommand(InitTracing(Some(Wrapping(id, inner)), traceAll, prefix), mode, args, kwargs, execute);
            && (inner.Some? ==> Replay(r.log).tracer == inner)
            && (inner.None? ==> r == Traced(Exc(NoTracerError), []))
  {
  }

  /** `GET foo` on a client traced after `init_tracing` with a plain tracer and
      the default prefix, answered by the server with `bar`. */
  lemma GetExample(cfg: Config, execute: (seq<string>, map<string, string>) -> Outcome<string>)
    requires cfg == InitTracing(Some(Plain("mock")), true, DefaultPrefix)
    requires execute(["GET", "foo"], map[]) == Ok("bar")
    ensures var r := TraceCommand(cfg, Instance, ["GET", "foo"], map[], execute);
            && r.outcome == Ok("bar")
            && SpanContract(r.log, Plain("mock"), "Redis/GET", "GET foo", CommandCall(["GET", "foo"], map[]), r.outcome)
  {
    assert OperationName(DefaultPrefix, "GET") == "Redis/GET" by {
      assert "Redis" + "/" + "GET" == "Redis/GET";
    }
    assert NormalizeStmt(["GET", "foo"]) == "GET foo" by {
      assert ["GET", "foo"][1..] == ["foo"];
      assert Join(["foo"], ' ') == "foo";
      assert "GET" + [' '] + "foo" == "GET foo";
    }
  }

  /** Pipelines are named `Redis/MULTI` under the default prefix. */
  lemma DefaultMultiName()
    ensures OperationName(DefaultPrefix, "MULTI") == "Redis/MULTI"
  {
    assert "Redis" + "/" + "MULTI" == "Redis/MULTI";
  }

  /** A pipeline holding `SET a 1` and `SET b 2`, executed without arguments
      under the default prefix by a server that accepts both commands. */
  lemma PipelineExample(cfg: Config, stack: seq<StackEntry>, execute: bool -> Executed<seq<bool>>)
    requires cfg.tracer.Some? && cfg.prefix == DefaultPrefix
    requires stack == [StackEntry(["SET", "a", "1"], map[]), StackEntry(["SET", "b", "2"], map[])]
    requires execute(true) == Executed(Ok([true, true]), [])
    ensures var r := TracePipelineExecute(cfg, stack, None, execute);
            && r.traced.outcome == Ok([true, true])
            && SpanContract(r.traced.log, cfg.tracer.value, "Redis/MULTI", "SET a 1;SET b 2", ExecuteCall(true), r.traced.outcome)
            && r.stackAfter == []
  {
    BatchStatementExample(stack);
    DefaultMultiName();
  }
}
