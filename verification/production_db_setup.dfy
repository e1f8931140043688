/**
 * The production setup script: the schema runs, batch by batch, only when
 * the Vendor table is missing; batches are cut at a stand-alone `GO` in any
 * case, blank batches are dropped and the kept ones are sent untrimmed; the
 * first failing batch ends the run.
 */
module ProductionDbSetup {
  import opened Wrappers
  import opened JsText
  import opened SqlScript

  /** `.filter(batch => batch.trim())`: a batch is kept when it is not blank. */
  function KeepNonBlank(fs: seq<string>): (r: seq<string>)
    ensures |r| <= |fs|
    ensures forall b :: b in r ==> b in fs && !AllWhiteSpace(b)
  {
    if |fs| == 0 then []
    else (if Trim(fs[0]) != "" then [fs[0]] else []) + KeepNonBlank(fs[1..])
  }

  function Batches(schema: string): seq<string> {
    KeepNonBlank(Fragments(BatchSplitter, schema))
  }

  /** A fragment is a batch exactly when it is not blank, and it is kept as
      it stands, white space included. */
  lemma {:induction false} KeepNonBlankIff(fs: seq<string>, b: string)
    ensures b in KeepNonBlank(fs) <==> b in fs && !AllWhiteSpace(b)
  {
    if |fs| > 0 {
      KeepNonBlankIff(fs[1..], b);
      assert forall f :: f in fs <==> f == fs[0] || f in fs[1..] by {
        assert fs == [fs[0]] + fs[1..];
      }
    }
  }

  /** Filtering keeps the order of the fragments. */
  lemma {:induction false} KeepNonBlankAppend(a: seq<string>, b: seq<string>)
    ensures KeepNonBlank(a + b) == KeepNonBlank(a) + KeepNonBlank(b)
  {
    if |a| == 0 {
      assert a + b == b;
    } else {
      assert (a + b)[0] == a[0];
      assert (a + b)[1..] == a[1..] + b;
      KeepNonBlankAppend(a[1..], b);
    }
  }

  /** What the batch loop did: the batches sent, in order, and whether the
      last one failed. */
  datatype BatchRun = BatchRun(sent: seq<string>, failed: bool)

  /** The loop from index `i`; `ok(i)` is whether batch `i` succeeds.  A
      failure is thrown out of the loop, so no later batch is sent. */
  function RunBatchesFrom(batches: seq<string>, ok: nat -> bool, i: nat): (r: BatchRun)
    requires i <= |batches|
    ensures |r.sent| <= |batches| - i
    ensures forall b :: b in r.sent ==> b in batches[i..]
    ensures r.failed ==> |r.sent| > 0
    decreases |batches| - i
  {
    if i == |batches| then BatchRun([], false)
    else if Trim(batches[i]) == "" then RunBatchesFrom(batches, ok, i + 1)
    else if !ok(i) then BatchRun([batches[i]], true)
    else
      var rest := RunBatchesFrom(batches, ok, i + 1);
      BatchRun([batches[i]] + rest.sent, rest.failed)
  }

  function RunBatches(batches: seq<string>, ok: nat -> bool): BatchRun {
    RunBatchesFrom(batches, ok, 0)
  }

  /** The first index from `i` on whose batch fails, `|batches|` when none does. */
  function FirstFailure(batches: seq<string>, ok: nat -> bool, i: nat): (k: nat)
    requires i <= |batches|
    ensures i <= k <= |batches|
    ensures forall j :: i <= j < k ==> ok(j)
    ensures k < |batches| ==> !ok(k)
    decreases |batches| - i
  {
    if i == |batches| || !ok(i) then i else FirstFailure(batches, ok, i + 1)
  }

  /** The end of the prefix the loop sends when the first failure from `i`
      on is at `k`. */
  function SentEnd(batches: seq<string>, k: nat): nat {
    if k < |batches| then k + 1 else k
  }

  /** On non-blank batches the loop sends every batch up to and including
      the first failing one, in order, and fails exactly when one fails. */
  lemma {:induction false} RunNonBlank(batches: seq<string>, ok: nat -> bool, i: nat)
    requires i <= |batches|
    requires forall j :: i <= j < |batches| ==> Trim(batches[j]) != ""
    ensures RunBatchesFrom(batches, ok, i).failed == (FirstFailure(batches, ok, i) < |batches|)
    ensures RunBatchesFrom(batches, ok, i).sent == batches[i..SentEnd(batches, FirstFailure(batches, ok, i))]
    decreases |batches| - i
  {
    if i < |batches| {
      if ok(i) {
        RunNonBlank(batches, ok, i + 1);
        RunStep(batches, ok, i);
      } else {
        assert batches[i..i + 1] == [batches[i]];
      }
    }
  }

  lemma RunStep(batches: seq<string>, ok: nat -> bool, i: nat)
    requires i < |batches| && Trim(batches[i]) != "" && ok(i)
    requires RunBatchesFrom(batches, ok, i + 1).sent == batches[i + 1..SentEnd(batches, FirstFailure(batches, ok, i + 1))]
    ensures RunBatchesFrom(batches, ok, i).failed == RunBatchesFrom(batches, ok, i + 1).failed
    ensures RunBatchesFrom(batches, ok, i).sent == batches[i..SentEnd(batches, FirstFailure(batches, ok, i))]
  {
    var e := SentEnd(batches, FirstFailure(batches, ok, i + 1));
    assert FirstFailure(batches, ok, i) == FirstFailure(batches, ok, i + 1);
    assert batches[i..e] == [batches[i]] + batches[i + 1..e];
  }

  /** Every kept batch passes the loop's own `batch.trim()` guard. */
  lemma BatchesAreNonBlank(schema: string)
    ensures forall j :: 0 <= j < |Batches(schema)| ==> Trim(Batches(schema)[j]) != ""
  {
    var bs := Batches(schema);
    forall j | 0 <= j < |bs|
      ensures Trim(bs[j]) != ""
    {
      assert bs[j] in bs;
    }
  }

  /** The result of `setupProductionDatabase`. */
  datatype SetupResult = SetupResult(sent: seq<string>, exitCode: Option<int>, poolClosed: bool)

  /** `connected`: the pool opened; `vendorTable`: the answer of the table
      check, `None` when that query failed; `schema`: the file text, `None`
      when it could not be read; `ok`: which batches succeed; `countOk`: the
      final `SELECT COUNT(*)`.  The `catch` calls `process.exit(1)`, so the
      `finally` that closes the pool runs only on success. */
  function Setup(connected: bool, vendorTable: Option<bool>, schema: Option<string>, ok: nat -> bool, countOk: bool): (r: SetupResult)
    ensures r.poolClosed <==> r.exitCode.None?
    ensures r.exitCode.Some? ==> r.exitCode == Some(1)
    ensures vendorTable != Some(false) ==> r.sent == []
  {
    if !connected then SetupResult([], Some(1), false)
    else
      match vendorTable
      case None => SetupResult([], Some(1), false)
      case Some(true) =>
        if countOk then SetupResult([], None, true) else SetupResult([], Some(1), false)
      case Some(false) =>
        if schema.None? then SetupResult([], Some(1), false)
        else
          var run := RunBatches(Batches(schema.value), ok);
          if run.failed || !countOk then SetupResult(run.sent, Some(1), false)
          else SetupResult(run.sent, None, true)
  }

  /** Schema batches run only when the Vendor table is missing. */
  lemma SchemaOnlyWhenMissing(connected: bool, vendorTable: Option<bool>, schema: Option<string>, ok: nat -> bool, countOk: bool)
    ensures |Setup(connected, vendorTable, schema, ok, countOk).sent| > 0 ==> connected && vendorTable == Some(false)
  {
  }

  /** A successful setup of a missing table has sent every batch of the
      schema, in file order. */
  lemma SuccessSendsAllBatches(schema: string, ok: nat -> bool)
    requires Setup(true, Some(false), Some(schema), ok, true).exitCode.None?
    ensures Setup(true, Some(false), Some(schema), ok, true).sent == Batches(schema)
  {
    var bs := Batches(schema);
    BatchesAreNonBlank(schema);
    RunNonBlank(bs, ok, 0);
    assert bs[0..|bs|] == bs;
  }

  /** A failing batch stops the run: nothing after it is sent. */
  lemma FailureStopsAtBatch(schema: string, ok: nat -> bool)
    requires Setup(true, Some(false), Some(schema), ok, true).exitCode.Some?
    ensures var bs := Batches(schema);
            var k := FirstFailure(bs, ok, 0);
            k < |bs| && Setup(true, Some(false), Some(schema), ok, true).sent == bs[..k + 1]
  {
    var bs := Batches(schema);
    BatchesAreNonBlank(schema);
    RunNonBlank(bs, ok, 0);
  }
}
