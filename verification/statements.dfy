/** How the tracing layer names spans and renders the `db.statement` tag
    (redis_opentracing/__init__.py, lines 27-38). Arguments are modelled as
    already converted by `str`. */
module Statements {
  import opened Common
  import opened Strings

  /** The span name for `command`: the raw command when no prefix is
      configured, otherwise prefix, `/`, command. An empty prefix still adds
      the slash (`"/GET"`). */
  function OperationName(prefix: Option<string>, command: string): (r: string)
    ensures prefix.None? ==> r == command
    ensures prefix.Some? ==> prefix.value + "/" <= r && r[|prefix.value| + 1..] == command
  {
    match prefix
    case None => command
    case Some(p) => p + "/" + command
  }

  /** Recovers the command from a span name produced under `prefix`; `None`
      when the name does not carry that prefix. */
  function CommandOf(prefix: Option<string>, name: string): (r: Option<string>)
  {
    match prefix
    case None => Some(name)
    case Some(p) =>
      if p + "/" <= name then Some(name[|p| + 1..]) else None
  }

  /** Naming loses nothing: the command is recoverable from its span name, so
      two commands under one prefix never share a name. */
  lemma OperationNameRoundTrip(prefix: Option<string>, command: string)
    ensures CommandOf(prefix, OperationName(prefix, command)) == Some(command)
  {
  }

  /** An empty prefix is still a prefix: the name gains a leading slash. */
  lemma EmptyPrefixName(command: string)
    ensures OperationName(Some(""), command) == "/" + command
  {
  }

  /** Two commands under one prefix never share a span name. */
  lemma OperationNameInjective(prefix: Option<string>, a: string, b: string)
    requires OperationName(prefix, a) == OperationName(prefix, b)
    ensures a == b
  {
    OperationNameRoundTrip(prefix, a);
    OperationNameRoundTrip(prefix, b);
  }

  /** `_normalize_stmt`: one command's arguments joined by single spaces. */
  function NormalizeStmt(args: seq<string>): (r: string)
    ensures |args| == 0 ==> r == ""
    ensures |args| > 0 ==> |r| == TotalLength(args) + |args| - 1
    ensures |args| > 0 ==> Occurrences(r, ' ') == OccurrencesIn(args, ' ') + |args| - 1
  {
    Join(args, ' ')
  }

  /** Arguments free of spaces are exactly the space-separated words of the
      statement, in order. */
  lemma StatementRoundTrip(args: seq<string>)
    requires |args| > 0
    requires forall i :: 0 <= i < |args| ==> ' ' !in args[i]
    ensures Split(NormalizeStmt(args), ' ') == args
  {
    SplitJoin(args, ' ');
  }

  /** n space-free arguments give exactly n - 1 separating spaces. */
  lemma {:induction false} StatementSeparators(args: seq<string>)
    requires forall i :: 0 <= i < |args| ==> ' ' !in args[i]
    ensures |args| > 0 ==> Occurrences(NormalizeStmt(args), ' ') == |args| - 1
    ensures |args| == 0 ==> NormalizeStmt(args) == ""
  {
    if |args| > 0 {
      StatementRoundTrip(args);
      assert |Split(NormalizeStmt(args), ' ')| == Occurrences(NormalizeStmt(args), ' ') + 1;
    }
  }

  /** A three-word command renders as its words with two spaces between. */
  lemma StatementOfThree(a: string, b: string, c: string)
    ensures NormalizeStmt([a, b, c]) == a + " " + b + " " + c
  {
    assert [a, b, c][1..] == [b, c];
    assert [b, c][1..] == [c];
    assert Join([c], ' ') == c;
    assert Join([b, c], ' ') == b + [' '] + c;
    assert Join([a, b, c], ' ') == a + [' '] + (b + [' '] + c);
  }

  /** One entry of a pipeline's command stack: the command's arguments and its
      option dictionary (the tuple `(args, options)` whose first component the
      renderer reads). */
  datatype StackEntry = StackEntry(args: seq<string>, options: map<string, string>)

  /** The statement of each entry, in stack order. */
  function EntryStatements(stack: seq<StackEntry>): (r: seq<string>)
    ensures |r| == |stack|
    ensures forall i :: 0 <= i < |stack| ==> r[i] == NormalizeStmt(stack[i].args)
  {
    if |stack| == 0 then [] else [NormalizeStmt(stack[0].args)] + EntryStatements(stack[1..])
  }

  /** `_normalize_stmts`: the entries' statements joined by `;`. */
  function NormalizeStmts(stack: seq<StackEntry>): (r: string)
    ensures |stack| == 0 ==> r == ""
    ensures |stack| == 1 ==> r == NormalizeStmt(stack[0].args)
    ensures |stack| > 0 ==> |r| == TotalLength(EntryStatements(stack)) + |stack| - 1
  {
    Join(EntryStatements(stack), ';')
  }

  /** The argument lists of a stack, in order. */
  function CommandsOf(stack: seq<StackEntry>): (r: seq<seq<string>>)
    ensures |r| == |stack|
    ensures forall i :: 0 <= i < |stack| ==> r[i] == stack[i].args
  {
    if |stack| == 0 then [] else [stack[0].args] + CommandsOf(stack[1..])
  }

  /** Reads a batch statement back: split at `;`, then each piece at spaces. */
  function ParseBatch(s: string): seq<seq<string>>
  {
    SplitWords(Split(s, ';'))
  }

  function SplitWords(stmts: seq<string>): (r: seq<seq<string>>)
    ensures |r| == |stmts|
    ensures forall i :: 0 <= i < |stmts| ==> r[i] == Split(stmts[i], ' ')
  {
    if |stmts| == 0 then [] else [Split(stmts[0], ' ')] + SplitWords(stmts[1..])
  }

  /** Words admitted by the renderer without ambiguity: free of both separators. */
  predicate PlainWord(w: string)
  {
    ' ' !in w && ';' !in w
  }

  /** A non-empty stack of non-empty commands built from plain words is
      recovered, command by command and argument by argument, from its batch
      statement. */
  lemma BatchRoundTrip(stack: seq<StackEntry>)
    requires |stack| > 0
    requires forall i :: 0 <= i < |stack| ==> |stack[i].args| > 0
    requires forall i, j :: 0 <= i < |stack| && 0 <= j < |stack[i].args| ==> PlainWord(stack[i].args[j])
    ensures ParseBatch(NormalizeStmts(stack)) == CommandsOf(stack)
  {
    var stmts := EntryStatements(stack);
    forall i | 0 <= i < |stmts|
      ensures ';' !in stmts[i]
    {
      JoinExcludes(stack[i].args, ' ', ';');
    }
    SplitJoin(stmts, ';');
    forall i | 0 <= i < |stack|
      ensures Split(stmts[i], ' ') == stack[i].args
    {
      StatementRoundTrip(stack[i].args);
    }
  }

  /** Queuing one more command appends `;` and its statement. */
  lemma BatchSnoc(stack: seq<StackEntry>, entry: StackEntry)
    requires |stack| > 0
    ensures NormalizeStmts(stack + [entry]) == NormalizeStmts(stack) + ";" + NormalizeStmt(entry.args)
  {
    var stmts := EntryStatements(stack);
    assert EntryStatements(stack + [entry]) == stmts + [NormalizeStmt(entry.args)];
    JoinSnoc(stmts, NormalizeStmt(entry.args), ';');
  }

  /** Two queued commands render as their statements around one `;`. */
  lemma BatchOfTwo(first: StackEntry, second: StackEntry)
    ensures NormalizeStmts([first, second]) == NormalizeStmt(first.args) + ";" + NormalizeStmt(second.args)
  {
    assert [first] + [second] == [first, second];
    BatchSnoc([first], second);
    assert EntryStatements([first]) == [NormalizeStmt(first.args)];
  }

  /** The batch statement of a stack holding `SET a 1` and `SET b 2`. */
  lemma BatchStatementExample(stack: seq<StackEntry>)
    requires stack == [StackEntry(["SET", "a", "1"], map[]), StackEntry(["SET", "b", "2"], map[])]
    ensures NormalizeStmts(stack) == "SET a 1;SET b 2"
  {
    var s0 := NormalizeStmt(stack[0].args);
    var s1 := NormalizeStmt(stack[1].args);
    assert s0 == "SET a 1" by {
      StatementOfThree("SET", "a", "1");
      assert "SET" + " " + "a" + " " + "1" == "SET a 1";
    }
    assert s1 == "SET b 2" by {
      StatementOfThree("SET", "b", "2");
      assert "SET" + " " + "b" + " " + "2" == "SET b 2";
    }
    BatchOfTwo(stack[0], stack[1]);
    assert NormalizeStmts(stack) == s0 + ";" + s1;
  }
}
