/**
 * The initialisation script: the schema file is cut into statements at `;`
 * and at a stand-alone upper-case `GO`, every fragment is trimmed, empty and
 * comment-led fragments are dropped, and the statements run one after the
 * other, a failing statement never stopping the ones after it.
 */
module InitDb {
  import opened Wrappers
  import opened JsText
  import opened SqlScript

  /** The filter's condition on a trimmed fragment. */
  predicate Kept(t: string) {
    |t| > 0 && !StartsWith(t, "--")
  }

  /** No white space at either end. */
  predicate Trimmed(t: string) {
    |t| > 0 ==> !IsWhiteSpace(t[0]) && !IsWhiteSpace(t[|t| - 1])
  }

  /** `.map(stmt => stmt.trim()).filter(...)`. */
  function KeepTrimmed(fs: seq<string>): (r: seq<string>)
    ensures |r| <= |fs|
    ensures forall x :: x in r ==> Kept(x) && Trimmed(x)
  {
    if |fs| == 0 then []
    else
      var t := Trim(fs[0]);
      (if Kept(t) then [t] else []) + KeepTrimmed(fs[1..])
  }

  /** The statements of a schema file, in file order. */
  function Statements(schema: string): seq<string> {
    KeepTrimmed(Fragments(StatementSplitter, schema))
  }

  /** A statement is kept exactly when it is the trimmed form of some
      fragment that is non-empty and does not begin with `--`; a fragment
      whose trimmed text begins with a comment is dropped even if SQL
      follows the comment on a later line. */
  lemma {:induction false} KeepTrimmedIff(fs: seq<string>, x: string)
    ensures x in KeepTrimmed(fs) <==> Kept(x) && exists f :: f in fs && Trim(f) == x
  {
    if |fs| > 0 {
      KeepTrimmedIff(fs[1..], x);
      assert forall f :: f in fs <==> f == fs[0] || f in fs[1..] by {
        assert fs == [fs[0]] + fs[1..];
      }
    }
  }

  /** Filtering keeps the order of the fragments. */
  lemma {:induction false} KeepTrimmedAppend(a: seq<string>, b: seq<string>)
    ensures KeepTrimmed(a + b) == KeepTrimmed(a) + KeepTrimmed(b)
  {
    if |a| == 0 {
      assert a + b == b;
    } else {
      assert (a + b)[0] == a[0];
      assert (a + b)[1..] == a[1..] + b;
      KeepTrimmedAppend(a[1..], b);
    }
  }

  /** What happened to one statement. */
  datatype StatementOutcome = Executed | Skipped | Failed(message: string) | NotRun

  /** The `catch` around one query: a message containing "already exists"
      counts as skipped, any other as failed.  `None` is a query that
      succeeded. */
  function Classify(reply: Option<string>): (r: StatementOutcome)
    ensures r.Skipped? <==> reply.Some? && Contains(reply.value, "already exists")
    ensures r.Failed? <==> reply.Some? && !Contains(reply.value, "already exists")
    ensures r.Failed? ==> r.message == reply.value
    ensures r != NotRun
  {
    match reply
    case None => Executed
    case Some(m) => if Contains(m, "already exists") then Skipped else Failed(m)
  }

  /** One pass of the loop body, with its `if (statement.trim())` guard. */
  function OutcomeOf(statement: string, reply: Option<string>): StatementOutcome {
    if Trim(statement) == "" then NotRun else Classify(reply)
  }

  /** The outcome of every statement, each on its own; `reply(i)` is the
      database's answer to the statement at index `i`. */
  function Outcomes(statements: seq<string>, reply: nat -> Option<string>): seq<StatementOutcome> {
    seq(|statements|, i requires 0 <= i < |statements| => OutcomeOf(statements[i], reply(i)))
  }

  /** The loop over the statements: it tries them one after the other and
      ends with exactly the outcomes above, a failure never stopping it. */
  method RunStatements(statements: seq<string>, reply: nat -> Option<string>) returns (outcomes: seq<StatementOutcome>)
    ensures |outcomes| == |statements|
    ensures forall i :: 0 <= i < |statements| ==> outcomes[i] == OutcomeOf(statements[i], reply(i))
    ensures outcomes == Outcomes(statements, reply)
  {
    outcomes := [];
    var i := 0;
    while i < |statements|
      invariant 0 <= i <= |statements|
      invariant |outcomes| == i
      invariant forall j :: 0 <= j < i ==> outcomes[j] == OutcomeOf(statements[j], reply(j))
    {
      outcomes := outcomes + [OutcomeOf(statements[i], reply(i))];
      i := i + 1;
    }
  }

  /** Every statement the filter produced passes the loop's guard. */
  lemma StatementsAreRun(schema: string, reply: nat -> Option<string>)
    ensures forall i :: 0 <= i < |Statements(schema)| ==>
      OutcomeOf(Statements(schema)[i], reply(i)) == Classify(reply(i))
  {
    var st := Statements(schema);
    forall i | 0 <= i < |st|
      ensures Trim(st[i]) != ""
    {
      assert st[i] in st;
      assert !IsWhiteSpace(st[i][0]);
      assert !AllWhiteSpace(st[i]);
    }
  }

  /** The result of `initializeDatabase`. */
  datatype InitResult = InitResult(outcomes: seq<StatementOutcome>, exitCode: Option<int>, disconnected: bool)

  /** `connected` is what `testConnection` answered and `schema` the file
      text, `None` when it could not be read.  The outer `catch` calls
      `process.exit(1)`, which ends the process before `finally` can
      disconnect. */
  function Initialize(connected: bool, schema: Option<string>, reply: nat -> Option<string>): (r: InitResult)
    ensures r.exitCode.None? <==> connected && schema.Some?
    ensures r.exitCode.Some? ==> r.exitCode == Some(1) && r.outcomes == []
    ensures r.disconnected <==> r.exitCode.None?
    ensures r.exitCode.None? ==> |r.outcomes| == |Statements(schema.value)|
  {
    if !connected then InitResult([], Some(1), false)
    else if schema.None? then InitResult([], Some(1), false)
    else
      var st := Statements(schema.value);
      InitResult(Outcomes(st, reply), None, true)
  }

  /** When the schema runs, every statement is tried in order, whatever the
      statements before it did. */
  lemma InitializeRunsEveryStatement(schema: string, reply: nat -> Option<string>)
    ensures var r := Initialize(true, Some(schema), reply);
            forall i :: 0 <= i < |r.outcomes| ==> r.outcomes[i] == Classify(reply(i))
  {
    StatementsAreRun(schema, reply);
  }

  /** A failed connection test runs nothing. */
  lemma NoConnectionNoStatements(schema: Option<string>, reply: nat -> Option<string>)
    ensures Initialize(false, schema, reply).outcomes == []
    ensures Initialize(false, schema, reply).exitCode == Some(1)
  {
  }
}
