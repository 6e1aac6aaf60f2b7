/** The query data (values, records, summary, EagerResult) and RunQuery, the unit of
    work handed to the session's transaction-function API. */
module Work {
  import opened Wrappers

  datatype Error = Error(message: string)

  /** A stand-in for the database's dynamically typed values. */
  datatype Value = Null | Boolean(b: bool) | Integer(i: int) | Text(s: string) | List(items: seq<Value>)

  /** A record: its keys in projection order, and what `Get` finds for a key
      (a key missing from `values` is one whose lookup reports "not found"). */
  datatype Record = Record(keys: seq<string>, values: map<string, Value>)
  {
    function Get(key: string): Option<Value>
    {
      if key in values then Some(values[key]) else None
    }
  }

  /** The parts of neo4j's ResultSummary that the formatting reads. */
  datatype Summary = Summary(database: string, address: string, protocolMajor: int, protocolMinor: int, agent: string)

  datatype EagerResult = EagerResult(keys: seq<string>, records: seq<Record>, summary: Summary)

  /** What the database answers to each call on one managed transaction: the result
      of `tx.Run` and, on the cursor it returns, of `Keys`, `Collect` and `Consume`. */
  datatype Cursor = Cursor(keys: Result<seq<string>, Error>, records: Result<seq<Record>, Error>, summary: Result<Summary, Error>)
  datatype Transaction = Transaction(run: Result<Cursor, Error>)

  /** The calls the unit of work makes on the transaction and its cursor. */
  datatype Call = Run(query: string, params: map<string, Value>) | Keys | Collect | Consume

  /** The calls made, in order, and what the unit of work returns. */
  datatype WorkRun = WorkRun(calls: seq<Call>, outcome: Result<EagerResult, Error>)

  function AllSteps(query: string, params: map<string, Value>): seq<Call>
  {
    [Run(query, params), Keys, Collect, Consume]
  }

  /** The error (if any) the k-th of the four steps reports on `tx`; a step after a
      failed Run has no cursor and reports none. */
  function StepError(tx: Transaction, k: nat): Option<Error>
    requires k < 4
  {
    match tx.run
    case Failure(e) => if k == 0 then Some(e) else None
    case Success(c) =>
      if k == 0 then None
      else if k == 1 then ErrorOf(c.keys)
      else if k == 2 then ErrorOf(c.records)
      else ErrorOf(c.summary)
  }

  /** RunQuery(ctx, query, params) applied to a transaction: Run, Keys, Collect and
      Consume in order, stopping at the first error. */
  function RunQuery(query: string, params: map<string, Value>, tx: Transaction): (w: WorkRun)
    ensures 1 <= |w.calls| <= 4 && w.calls == AllSteps(query, params)[..|w.calls|]
    ensures forall k :: 0 <= k < |w.calls| - 1 ==> StepError(tx, k).None?
    ensures w.outcome.Failure? <==> StepError(tx, |w.calls| - 1).Some?
    ensures w.outcome.Failure? ==> StepError(tx, |w.calls| - 1) == Some(w.outcome.error)
    ensures w.outcome.Success? ==>
      |w.calls| == 4 && tx.run.Success? &&
      tx.run.value.keys.Success? && tx.run.value.records.Success? && tx.run.value.summary.Success? &&
      w.outcome.value == EagerResult(tx.run.value.keys.value, tx.run.value.records.value, tx.run.value.summary.value)
  {
    var steps := AllSteps(query, params);
    match tx.run
    case Failure(e) => WorkRun(steps[..1], Failure(e))
    case Success(cursor) =>
      match cursor.keys
      case Failure(e) => WorkRun(steps[..2], Failure(e))
      case Success(keys) =>
        match cursor.records
        case Failure(e) => WorkRun(steps[..3], Failure(e))
        case Success(records) =>
          match cursor.summary
          case Failure(e) => WorkRun(steps, Failure(e))
          case Success(summary) => WorkRun(steps, Success(EagerResult(keys, records, summary)))
  }

  /** The unit of work fails exactly when one of the four steps fails, and then with
      the error of the earliest failing step. */
  lemma FirstFailureIsReturned(query: string, params: map<string, Value>, tx: Transaction)
    ensures RunQuery(query, params, tx).outcome.Success? <==> forall k :: 0 <= k < 4 ==> StepError(tx, k).None?
    ensures forall j :: 0 <= j < 4 && StepError(tx, j).Some? && (forall k :: 0 <= k < j ==> StepError(tx, k).None?) ==>
      RunQuery(query, params, tx) == WorkRun(AllSteps(query, params)[..j + 1], Failure(StepError(tx, j).value))
  {
  }
}
