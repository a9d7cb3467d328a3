/** The observable side of one traced call, as an append-only event log: the
    calls the wrapper makes on the tracer and its span (`start_span`,
    `set_tag`, `finish`), interleaved with the moment it hands control to the
    wrapped method. `Replay` reads such a log back into the state of the one
    span it describes. */
module Spans {
  import opened Common

  /** A tracer object: a plain tracer, or a wrapper exposing an inner tracer
      (possibly `None`) as its `_tracer` attribute. */
  datatype TracerObj = Plain(id: string) | Wrapping(id: string, inner: Option<TracerObj>)

  /** A tag value: a string, or the raised object itself (`error.object`). */
  datatype TagValue = Text(text: string) | Object(thrown: Throwable)

  /** What the wrapper forwards to the method it wraps. */
  datatype Call =
    | CommandCall(args: seq<string>, kwargs: map<string, string>)
    | ExecuteCall(raiseOnError: bool)

  datatype Event =
    | Start(tracer: TracerObj, name: string)
    | SetTag(key: string, value: TagValue)
    | Delegate(call: Call)
    | Finish

  /** What the log has done to its span so far: how many events came before
      any start, how often it was started, on which tracer and under which
      name, its tags, the calls handed to the wrapped method and
      the tags in place when the (last) one was made, how often it was
      finished and the tags in place then, and how many events came after
      the finish. */
  datatype SpanState = SpanState(
    early: nat,
    starts: nat,
    tracer: Option<TracerObj>,
    name: string,
    tags: map<string, TagValue>,
    calls: seq<Call>,
    tagsAtCall: map<string, TagValue>,
    finishes: nat,
    tagsAtFinish: map<string, TagValue>,
    late: nat)

  const Untouched := SpanState(0, 0, None, "", map[], [], map[], 0, map[], 0)

  /** The effect of one event. Any other event before the first `Start` is
      counted as early. A finished span takes nothing more: every later event,
      a second `Finish` included, is counted as late. */
  function Apply(s: SpanState, e: Event): SpanState
  {
    if s.finishes > 0 then s.(late := s.late + 1)
    else
      var t := if !e.Start? && s.starts == 0 then s.(early := s.early + 1) else s;
      match e
      case Start(tr, n) => t.(starts := t.starts + 1, tracer := Some(tr), name := n)
      case SetTag(k, v) => t.(tags := t.tags[k := v])
      case Delegate(c) => t.(calls := t.calls + [c], tagsAtCall := t.tags)
      case Finish => t.(finishes := t.finishes + 1, tagsAtFinish := t.tags)
  }

  function Replay(log: seq<Event>): SpanState
  {
    if |log| == 0 then Untouched else Apply(Replay(log[..|log| - 1]), log[|log| - 1])
  }

  lemma ReplaySnoc(log: seq<Event>, e: Event)
    ensures Replay(log + [e]) == Apply(Replay(log), e)
  {
  }

  /** Finished exactly once: one `Finish` and nothing after it. */
  predicate FinishedOnce(s: SpanState)
  {
    s.finishes == 1 && s.late == 0
  }

  /** The span is unfinished exactly when the log holds no `Finish`, and an
      unfinished span has no late events. */
  lemma {:induction false} UnfinishedWithoutFinish(log: seq<Event>)
    ensures Replay(log).finishes == 0 <==> Finish !in log
    ensures Finish !in log ==> Replay(log).late == 0
  {
    if |log| > 0 {
      var front := log[..|log| - 1];
      var e := log[|log| - 1];
      UnfinishedWithoutFinish(front);
      assert log == front + [e];
      assert Replay(log) == Apply(Replay(front), e);
      assert (Finish in log) <==> (Finish in front || e == Finish);
    }
  }

  /** Finished exactly once means exactly one `Finish` event, and it is the
      last event of the log. */
  lemma {:induction false} FinishedOnceIff(log: seq<Event>)
    ensures FinishedOnce(Replay(log)) <==>
            |log| > 0 && log[|log| - 1] == Finish && Finish !in log[..|log| - 1]
  {
    if |log| > 0 {
      UnfinishedWithoutFinish(log[..|log| - 1]);
    }
  }

  /** A span with no starts has counted every event of a non-empty log as
      early or late, and its early count is positive. */
  lemma {:induction false} UnstartedMeansEarly(log: seq<Event>)
    requires |log| > 0 && Replay(log).starts == 0
    ensures Replay(log).early > 0
  {
    var front := log[..|log| - 1];
    if |front| > 0 && Replay(front).starts == 0 {
      UnstartedMeansEarly(front);
    }
  }

  /** Started with nothing early means the log opens with a `Start`. */
  lemma {:induction false} StartedFirstIff(log: seq<Event>)
    ensures (Replay(log).starts > 0 && Replay(log).early == 0) <==> (|log| > 0 && log[0].Start?)
  {
    if |log| > 1 {
      var front := log[..|log| - 1];
      StartedFirstIff(front);
      assert front[0] == log[0];
      if Replay(front).starts == 0 {
        UnstartedMeansEarly(front);
      }
    }
  }
}
