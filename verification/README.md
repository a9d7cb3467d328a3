# redis_opentracing: the span lifecycle of traced Redis calls

This project models, in Dafny, the tracing layer of `redis_opentracing`. The
layer wraps a Redis client's `execute_command` and a pipeline's `execute` so
that every command, and every pipelined batch, runs inside one OpenTracing
span. The model covers:

- the configuration written by `init_tracing`: the tracer after one level of
  `_tracer` unwrapping, the class-wide flag and the span-name prefix;
- span naming (`_get_operation_name`) and statement rendering
  (`_normalize_stmt`, `_normalize_stmts`);
- the command wrapper `tracing_execute_command`, installed class-wide or on
  one instance;
- the pipeline wrapper `tracing_execute`.

Each wrapper is a pure function. It takes the configuration, the caller's
arguments and the wrapped method. The wrapped method is a function from the
forwarded call to its outcome: a value (`Ok`), an `Exception` (`Exc`), or
another `BaseException` (`Other`). The wrapper returns the outcome the caller
sees and an event log.

The log records the wrapper's calls on the tracer and the span: `Start`,
`SetTag` and `Finish`. Between them it records a `Delegate` event, the moment
control passes to the wrapped method. `Spans.Replay` reads a log back into the
state of its span: whether anything came before the start, how often it was started, on which tracer and under which name, which tags
it carried when the wrapped method was called and when it was finished, and
whether anything followed the finish. The lifecycle properties are stated
over that state.

Modules:

- `Common`: `Option` and `Throwable`.
- `Strings`: `Join`, the model of Python's `sep.join`, with `Split` as its
  inverse.
- `Statements`: span names and statements.
- `Spans`: events and `Replay`.
- `Tracing`: configuration, outcomes and the two wrappers.

Facts about the code that shape the model:

- The `component` tag is `redis-py` (redis_opentracing/__init__.py:41).
- `init_tracing` has no start-span callback, no ambient-tracer fallback and
  no `ValueError`, and its tracer argument has no default
  (redis_opentracing/__init__.py:9).

## Model

| member | source | states |
|---|---|---|
| `Tracing.InitTracing` | redis_opentracing/__init__.py:9-16 | The flag and prefix are stored as given. A tracer exposing `_tracer` is replaced by that inner object, even when it is `None`; any other tracer, or `None`, is stored as is. |
| `Statements.OperationName` | redis_opentracing/__init__.py:27-31 | With no prefix the name is the raw command. With any prefix, the empty one included, the name starts with `prefix/` and ends with the command. |
| `Statements.OperationNameRoundTrip` | redis_opentracing/__init__.py:27-31 | The command can be recovered from the span name under the same prefix, so naming loses nothing. |
| `Statements.OperationNameInjective` | redis_opentracing/__init__.py:27-31 | Two different commands never get the same span name under one prefix. |
| `Statements.EmptyPrefixName` | redis_opentracing/__init__.py:28-29 | An empty prefix still produces the slash: `"" + "/" + command`. |
| `Strings.Join` | redis_opentracing/__init__.py:34 | No parts give `""`. n parts give a string whose length is the parts' total plus n - 1, and which holds the parts' separators plus exactly n - 1 more. |
| `Strings.SplitJoin` | redis_opentracing/__init__.py:34 | If no part holds the separator, splitting the joined string gives back exactly the parts, in order. |
| `Strings.JoinSplit` | redis_opentracing/__init__.py:34 | For every string, joining its split pieces gives the string back; join and split are inverse. |
| `Strings.JoinSnoc` | redis_opentracing/__init__.py:38 | Joining one more part appends exactly one separator and that part. |
| `Strings.JoinExcludes` | redis_opentracing/__init__.py:37-38 | A character that is not the separator appears in the join only if it appears in some part. |
| `Statements.NormalizeStmt` | redis_opentracing/__init__.py:33-34 | No arguments give `""`. n arguments give a statement whose length is theirs plus n - 1, with n - 1 spaces added. |
| `Statements.StatementRoundTrip` | redis_opentracing/__init__.py:33-34 | Arguments without spaces are exactly the space-separated words of the statement, in order. |
| `Statements.StatementSeparators` | redis_opentracing/__init__.py:33-34 | n space-free arguments give exactly n - 1 spaces; no arguments give the empty statement. |
| `Statements.StatementOfThree` | redis_opentracing/__init__.py:33-34 | A three-argument command renders as its words with one space between each. |
| `Statements.EntryStatements` | redis_opentracing/__init__.py:37 | One statement per stack entry, in stack order, each rendered from the entry's first component (its arguments). |
| `Statements.NormalizeStmts` | redis_opentracing/__init__.py:36-38 | An empty stack gives `""`. A one-entry stack gives that entry's statement, with no `;`. n entries give the statements' total length plus n - 1 separators. |
| `Statements.BatchRoundTrip` | redis_opentracing/__init__.py:36-38 | Take a non-empty stack of non-empty commands whose words hold neither space nor `;`. Splitting its batch statement at `;` and then at spaces gives back every command's arguments, in order. |
| `Statements.BatchSnoc` | redis_opentracing/__init__.py:36-38 | Queuing one more command appends `;` and that command's statement to the batch statement. |
| `Statements.BatchOfTwo` | redis_opentracing/__init__.py:36-38 | Two queued commands render as the first one's statement, `;`, then the second one's statement. |
| `Statements.BatchStatementExample` | redis_opentracing/__init__.py:36-38 | `SET a 1` then `SET b 2` render as `SET a 1;SET b 2`. |
| `Spans.UnfinishedWithoutFinish` | redis_opentracing/__init__.py:93-94 | A fact about reading a log, used by `FinishedOnceIff`: the replayed span is unfinished exactly when the log holds no `Finish`, and an unfinished span has no late events. |
| `Spans.FinishedOnceIff` | redis_opentracing/__init__.py:93-94 | A span counts as finished exactly once if and only if its log holds exactly one `Finish` and that event is the last one, as the `finally` block's `span.finish()` is the wrapper's last call on the span. |
| `Spans.UnstartedMeansEarly` | redis_opentracing/__init__.py:84-85 | A fact about reading a log, used by `StartedFirstIff`: if a non-empty log never starts its span, the replay counts at least one event as coming before any start. |
| `Spans.StartedFirstIff` | redis_opentracing/__init__.py:84-85 | A span counts as started with nothing before the start if and only if the log opens with a `Start`, as `start_span` is the wrapper's first call on the tracer. |
| `Tracing.BaseTagEvents` | redis_opentracing/__init__.py:40-44 | `_set_base_span_tags` makes four `set_tag` calls. Each sets one of the base tags (`component`, `db.type`, `db.statement` = the statement, `span.kind`) to its value, and no key is set twice, so together they set exactly the base tags. |
| `Tracing.WithErrorTags` | redis_opentracing/__init__.py:119-122 | On a started, unfinished span, an `Exception` adds `error='true'` and `error.object` = the exception to the tags and changes nothing else. A returned value or another `BaseException` leaves the span as it is. |
| `Tracing.SpanEvents` | redis_opentracing/__init__.py:114-124 | The events of one traced call obey the span contract. Before any other event, one span with the given name is started on the given tracer. When the wrapped method gets its single call, the four base tags are in place and nothing else is. The span is finished exactly once, with nothing after. At the finish it holds `error='true'` and `error.object` = the exception exactly when the outcome is an `Exception`. |
| `Tracing.SpanContractShape` | redis_opentracing/__init__.py:114-124 | A log that obeys the span contract opens with its `Start` and ends with its only `Finish`, as `start_span` runs first and `finish` runs last in the `finally`. |
| `Tracing.ReportedArgs` | redis_opentracing/__init__.py:106-110 | On an instance, all arguments are reported. Class-wide, everything after the first argument (the client) is reported; with no arguments at all, nothing is reported. |
| `Tracing.TraceCommand` | redis_opentracing/__init__.py:105-126 | With no reported argument the result is `IndexError`: no event, no call. With no tracer it is `AttributeError`: no event, no call. Otherwise the caller gets exactly the wrapped method's outcome for the unchanged arguments. The log then obeys the span contract on the configured tracer: start first, tags, call, finish last. The span is named after the first reported argument under the prefix, with statement = the reported arguments joined by spaces. |
| `Tracing.TracePipelineExecute` | redis_opentracing/__init__.py:83-96 | With no tracer the result is `AttributeError`: no event, stack untouched. Otherwise `raise_on_error` is forwarded, `True` when omitted. The outcome and the resulting stack pass through unchanged. The log obeys the span contract on the configured tracer: start first, tags, call, finish last. The span is named `MULTI` under the prefix, with the statement of the stack as it was before execution. |
| `Tracing.CommandTransparent` | redis_opentracing/__init__.py:117-126 | The traced command ends exactly as the plain one does. A returned value or a non-`Exception` throwable leaves no `error` tag on the finished span. |
| `Tracing.ClassWideDropsReceiver` | redis_opentracing/__init__.py:106-110 | Installing class-wide and calling with the client as first argument gives the same outcome, span name and tags as installing on that instance. |
| `Tracing.UnconfiguredCommandFails` | redis_opentracing/__init__.py:5-7 | A client traced before any `init_tracing` fails every command with `AttributeError`. It starts no span and never calls the server. |
| `Tracing.WrappedTracerUnwrapped` | redis_opentracing/__init__.py:11-14 | After `init_tracing` with a tracer that wraps another, command spans are started on the inner tracer, never on the wrapper. If the inner tracer is `None`, commands fail with `AttributeError` and start no span. |
| `Tracing.GetExample` | redis_opentracing/__init__.py:112-126 | `GET foo` under the default prefix returns the server's value. The call obeys the span contract with name `Redis/GET` and statement `GET foo`, so no error tag is set. |
| `Tracing.DefaultMultiName` | redis_opentracing/__init__.py:84 | Under the default prefix, pipeline spans are named `Redis/MULTI`. |
| `Tracing.PipelineExample` | redis_opentracing/__init__.py:83-96 | A pipeline holding `SET a 1` and `SET b 2`, executed without arguments, calls `execute(True)` once. The call obeys the span contract with name `Redis/MULTI` and statement `SET a 1;SET b 2`. The result and the emptied stack pass through. |

## Left out

- The rebinding itself is not modelled. This is the attribute assignment that installs the wrappers on `redis.StrictRedis` or on an instance (`_patch_redis_classes`, `_patch_client`, `_patch_pipe_execute`, `trace_client`, `trace_pipeline`, and the class patch triggered by `init_tracing`). The wrappers are modelled as explicit functions of the method they wrap.
- The `tracing_pipeline` factories are not modelled. Each wraps the pipeline it creates with the pipeline wrapper, which is modelled. The instance-level one is stored on the instance, where it is not bound, yet it declares a leading `self`. Its calling convention is unclear, so no behaviour is claimed for it.
- Installing twice, which wraps twice, is not modelled. It follows from the rebinding, which is left out.
- The Redis client, the tracer and span objects are foreign code. The tracer is reduced to the event log. Failures raised by the tracer or the span themselves are not modelled: `start_span`, `set_tag` and `finish` are assumed to return normally.
- `str()` of arbitrary objects is not modelled: arguments are already-converted strings. In class-wide mode the first argument stands for the client and is only ever dropped.
- Keyword arguments of the command wrapper are a string map, passed through unchanged. Other keyword arguments of the pipeline wrapper do not exist in the source.
- The configuration is one global, and the model does not treat it as such. It is an explicit value passed to each wrapper; concurrent writes to the globals are out of scope.
- `Tracing.InitTracing` does not model Python's `hasattr` on arbitrary objects: only a tracer value explicitly marked as wrapping another counts as having `_tracer`.
- Tracing.InitTracing: the defaults of `init_tracing` (`trace_all_classes=True`, `prefix='Redis'`) are not modelled as omitted arguments. Callers pass `true` and `DefaultPrefix` (`Some("Redis")`) explicitly.
- Tracing.TracePipelineExecute: `raise_on_error` is either omitted or a boolean. The source forwards whatever value it receives, including an explicit `None` or a non-boolean; those values cannot be represented.
