/** The migration runner (scripts/apply-migration.ts): the SQL file is cut at every ';',
    each piece trimmed, empty pieces and pieces that begin with a `--` comment dropped, and
    the remaining statements sent one by one with ';' put back. Reading the file and the
    `exec_sql` remote call are outside the model: the call's outcome for each statement is
    an argument. */
module ApplyMigration {
  import opened Common

  // ===========================================================================
  // String.prototype.split(';')

  const Separator: char := ';'

  // ===========================================================================
  // .map(s => s.trim()).filter(s => s.length > 0 && !s.startsWith('--'))

  function TrimAll(pieces: seq<string>): (r: seq<string>)
    ensures |r| == |pieces|
  {
    seq(|pieces|, i requires 0 <= i < |pieces| => Trim(pieces[i]))
  }

  /** The filter's test: non-empty and not beginning with a `--` comment. */
  predicate IsStatement(t: string) {
    |t| > 0 && !StartsWith(t, "--")
  }

  /** The statements the script runs, in file order. */
  function Statements(sql: string): seq<string> {
    Filter(IsStatement, TrimAll(Split(sql, Separator)))
  }

  lemma TrimKeepsNoSeparator(p: string)
    requires Separator !in p
    ensures Separator !in Trim(p)
  {
    TrimIsSlice(p);
    var a := SkipSpaces(p, 0);
    forall k | 0 <= k < |Trim(p)|
      ensures Trim(p)[k] != Separator
    {
      assert Trim(p)[k] == p[a + k];
    }
  }

  /** A text is a statement exactly when some piece trims to it and it passes the filter;
      every statement is non-empty, has no surrounding white space, holds no ';' and does
      not begin with `--`. */
  lemma StatementsFacts(sql: string)
    ensures forall t :: t in Statements(sql) <==>
              (exists p :: p in Split(sql, Separator) && Trim(p) == t) && IsStatement(t)
    ensures forall t :: t in Statements(sql) ==>
              |t| > 0 && !StartsWith(t, "--") && Separator !in t &&
              !IsJsSpace(t[0]) && !IsJsSpace(t[|t| - 1])
  {
    var pieces := Split(sql, Separator);
    FilterMembers(IsStatement, TrimAll(pieces));
    SplitJoinRoundTrip(sql, Separator);
    forall t
      ensures t in TrimAll(pieces) <==> exists p :: p in pieces && Trim(p) == t
    {
      if t in TrimAll(pieces) {
        var i :| 0 <= i < |pieces| && TrimAll(pieces)[i] == t;
        assert pieces[i] in pieces;
      }
      if exists p :: p in pieces && Trim(p) == t {
        var p :| p in pieces && Trim(p) == t;
        var i :| 0 <= i < |pieces| && pieces[i] == p;
        assert TrimAll(pieces)[i] == t;
      }
    }
    forall t | t in Statements(sql)
      ensures Separator !in t && !IsJsSpace(t[0]) && !IsJsSpace(t[|t| - 1])
    {
      var p :| p in pieces && Trim(p) == t;
      TrimKeepsNoSeparator(p);
      TrimEnds(p);
    }
  }

  /** A piece whose first line is a comment is dropped whole, even when SQL follows on the
      next line. */
  lemma CommentHeadedPieceDropped(sql: string, comment: string, statement: string)
    ensures "--" + comment + "\n" + statement !in Statements(sql)
  {
    var t := "--" + comment + "\n" + statement;
    StatementsFacts(sql);
    assert t[..2] == "--";
  }

  // ===========================================================================
  // The execution loop

  /** What `supabase.rpc('exec_sql', ...)` did with one statement. */
  datatype RpcOutcome = Succeeded | RpcError(message: string) | Threw

  /** The console line written for one statement; `number` is the 1-based position. */
  datatype LogLine =
    | Executed(number: nat, total: nat)
    | StatementError(number: nat, message: string, excerpt: string)
    | StatementFailed(number: nat)

  /** `statement.substring(0, 100)`. */
  function Excerpt(statement: string): (r: string)
    ensures |r| <= 100 && StartsWith(statement, r)
  {
    statement[..if |statement| < 100 then |statement| else 100]
  }

  /** The console line for the statement at index `i` of `total`. */
  function Report(i: nat, total: nat, statement: string, outcome: RpcOutcome): (line: LogLine)
    ensures line.Executed? <==> outcome.Succeeded?
    ensures line.number == i + 1
  {
    match outcome
    case Succeeded => Executed(i + 1, total)
    case RpcError(message) => StatementError(i + 1, message, Excerpt(statement))
    case Threw => StatementFailed(i + 1)
  }

  /** The SQL texts sent for the first `n` statements: each non-empty one with ';' re-appended. */
  function SentUpTo(statements: seq<string>, n: nat): (r: seq<string>)
    requires n <= |statements|
    ensures |r| <= n
  {
    if n == 0 then []
    else SentUpTo(statements, n - 1) + (if statements[n - 1] != "" then [statements[n - 1] + [Separator]] else [])
  }

  /** The console lines for the first `n` statements. */
  function LogUpTo(statements: seq<string>, outcomes: seq<RpcOutcome>, n: nat): (r: seq<LogLine>)
    requires n <= |statements| == |outcomes|
    ensures |r| <= n
  {
    if n == 0 then []
    else
      LogUpTo(statements, outcomes, n - 1) +
        (if statements[n - 1] != "" then [Report(n - 1, |statements|, statements[n - 1], outcomes[n - 1])] else [])
  }

  /** Runs every statement in order. `outcomes[i]` is what the remote call does with the
      i-th statement; an error or exception is logged and the loop goes on. */
  method ApplyStatements(statements: seq<string>, outcomes: seq<RpcOutcome>)
    returns (sent: seq<string>, log: seq<LogLine>)
    requires |outcomes| == |statements|
    ensures sent == SentUpTo(statements, |statements|)
    ensures log == LogUpTo(statements, outcomes, |statements|)
  {
    sent, log := [], [];
    for i := 0 to |statements|
      invariant sent == SentUpTo(statements, i)
      invariant log == LogUpTo(statements, outcomes, i)
    {
      var statement := statements[i];
      if statement != "" {
        sent := sent + [statement + [Separator]];
        var line;
        match outcomes[i] {
          case Succeeded =>
            line := Executed(i + 1, |statements|);
          case RpcError(message) =>
            line := StatementError(i + 1, message, statement[..if |statement| < 100 then |statement| else 100]);
          case Threw =>
            line := StatementFailed(i + 1);
        }
        log := log + [line];
      }
    }
  }

  lemma {:induction false} AttemptsUpTo(statements: seq<string>, outcomes: seq<RpcOutcome>, n: nat)
    requires n <= |statements| == |outcomes|
    requires forall k :: 0 <= k < |statements| ==> statements[k] != ""
    ensures |SentUpTo(statements, n)| == n && |LogUpTo(statements, outcomes, n)| == n
    ensures forall k :: 0 <= k < n ==> SentUpTo(statements, n)[k] == statements[k] + [Separator]
    ensures forall k :: 0 <= k < n ==>
              LogUpTo(statements, outcomes, n)[k] == Report(k, |statements|, statements[k], outcomes[k])
  {
    if n > 0 {
      AttemptsUpTo(statements, outcomes, n - 1);
    }
  }

  /** Every statement of the file is sent exactly once, in order and with ';' re-appended,
      and gets its own console line whatever the earlier statements did: a failure does not
      stop the run. */
  lemma EveryStatementAttempted(sql: string, outcomes: seq<RpcOutcome>)
    requires |outcomes| == |Statements(sql)|
    ensures var statements := Statements(sql);
            var n := |statements|;
            |SentUpTo(statements, n)| == n && |LogUpTo(statements, outcomes, n)| == n &&
            (forall k :: 0 <= k < n ==> SentUpTo(statements, n)[k] == statements[k] + [Separator]) &&
            (forall k :: 0 <= k < n ==>
               LogUpTo(statements, outcomes, n)[k] == Report(k, n, statements[k], outcomes[k]))
  {
    var statements := Statements(sql);
    StatementsFacts(sql);
    forall k | 0 <= k < |statements|
      ensures statements[k] != ""
    {
      assert statements[k] in statements;
    }
    AttemptsUpTo(statements, outcomes, |statements|);
  }
}
