/** driver.ExecuteQuery: fold the options, open one session, dispatch the unit of
    work to the session's write or read API, and close the session in a deferred
    call whose result overwrites the named error result. */
module Facade {
  import opened Wrappers
  import opened Config
  import opened Routing
  import opened Work

  /** neo4j.SessionConfig as ExecuteQuery fills it. */
  datatype SessionConfig = SessionConfig(databaseName: string, impersonatedUser: string, bookmarkManager: Option<BookmarkManager>)

  function SessionConfigOf(c: QueryConfig): SessionConfig
  {
    SessionConfig(c.database, c.impersonatedUser, c.bookmarkManager)
  }

  /** What the session's transaction-function API does with the unit of work: its
      final attempt ran the work on a managed transaction and returns what the work
      returned, or it fails without a work result (no connection, commit failure,
      retries exhausted). Its retry policy is not visible here. */
  datatype ExecutorRun = Completed(tx: Transaction) | Aborted(err: Error)

  type UnitOfWork = Transaction -> WorkRun

  function Execute(run: ExecutorRun, work: UnitOfWork): Result<EagerResult, Error>
  {
    match run
    case Completed(tx) => work(tx).outcome
    case Aborted(e) => Failure(e)
  }

  /** The unit of work ExecuteQuery submits: RunQuery(ctx, query, params). */
  function QueryWork(query: string, params: map<string, Value>): UnitOfWork
  {
    tx => RunQuery(query, params, tx)
  }

  datatype SessionCall = ExecuteWrite | ExecuteRead | Close

  /** A session: the config it was opened with and the calls made on it. */
  class Session {
    const config: SessionConfig
    var calls: seq<SessionCall>

    constructor (config: SessionConfig)
      ensures this.config == config && calls == []
    {
      this.config := config;
      calls := [];
    }

    method ExecuteWrite(work: UnitOfWork, run: ExecutorRun) returns (r: Result<EagerResult, Error>)
      modifies this
      ensures calls == old(calls) + [SessionCall.ExecuteWrite]
      ensures r == Execute(run, work)
    {
      calls := calls + [SessionCall.ExecuteWrite];
      r := Execute(run, work);
    }

    method ExecuteRead(work: UnitOfWork, run: ExecutorRun) returns (r: Result<EagerResult, Error>)
      modifies this
      ensures calls == old(calls) + [SessionCall.ExecuteRead]
      ensures r == Execute(run, work)
    {
      calls := calls + [SessionCall.ExecuteRead];
      r := Execute(run, work);
    }

    /** `closeResult` is what the underlying session reports (None for nil). */
    method Close(closeResult: Option<Error>) returns (err: Option<Error>)
      modifies this
      ensures calls == old(calls) + [SessionCall.Close]
      ensures err == closeResult
    {
      calls := calls + [SessionCall.Close];
      err := closeResult;
    }
  }

  /** The wrapped neo4j driver, seen through the sessions it has opened. */
  class SessionProvider {
    var sessions: seq<Session>

    constructor ()
      ensures sessions == []
    {
      sessions := [];
    }

    method NewSession(config: SessionConfig) returns (s: Session)
      modifies this
      ensures fresh(s) && s.config == config && s.calls == []
      ensures sessions == old(sessions) + [s]
    {
      s := new Session(config);
      sessions := sessions + [s];
    }
  }

  /** How an ExecuteQuery call ends: it returns (result, err), or it panics. */
  datatype QueryOutcome = Returned(result: Option<EagerResult>, err: Option<Error>) | Panicked(message: string)

  /** The calls ExecuteQuery makes on its session for a given routing value. */
  function SessionCalls(rc: RoutingControl): (calls: seq<SessionCall>)
    ensures |calls| >= 1 && calls[|calls| - 1] == Close
    ensures forall i :: 0 <= i < |calls| - 1 ==> calls[i] != Close
    ensures rc == Writers ==> calls == [SessionCall.ExecuteWrite, Close]
    ensures rc == Readers ==> calls == [SessionCall.ExecuteRead, Close]
    ensures rc != Writers && rc != Readers ==> calls == [Close]
  {
    match ResolveTxFuncApi(rc)
    case ExecuteWriteApi => [SessionCall.ExecuteWrite, Close]
    case ExecuteReadApi => [SessionCall.ExecuteRead, Close]
    case Panic(_) => [Close]
  }

  /** The outcome of ExecuteQuery, as the code is written: a nil option panics in
      the option loop; otherwise the deferred `err = session.Close(ctx)` replaces
      whatever error was being returned. */
  function QueryOutcomeOf(options: seq<QueryConfigOption>, query: string, params: map<string, Value>,
                          run: ExecutorRun, closeResult: Option<Error>): (o: QueryOutcome)
    ensures !NoNilOption(options) ==> o == Panicked(NilDereference)
    ensures NoNilOption(options) ==>
      (o.Panicked? <==> ResolveTxFuncApi(Fold(options).routingControl).Panic?)
    ensures NoNilOption(options) && o.Panicked? ==>
      o.message == ResolveTxFuncApi(Fold(options).routingControl).message
    ensures o.Returned? ==> o.err == closeResult
    ensures o.Returned? ==> (o.result.None? <==> Execute(run, QueryWork(query, params)).Failure?)
    ensures o.Returned? && Execute(run, QueryWork(query, params)).Success? ==>
      o.result == Some(Execute(run, QueryWork(query, params)).value)
  {
    if !NoNilOption(options) then Panicked(NilDereference)
    else
      match ResolveTxFuncApi(Fold(options).routingControl)
      case Panic(message) => Panicked(message)
      case _ =>
        match Execute(run, QueryWork(query, params))
        case Failure(_) => Returned(None, closeResult)
        case Success(result) => Returned(Some(result), closeResult)
  }

  class Driver {
    const delegate: SessionProvider

    constructor (delegate: SessionProvider)
      ensures this.delegate == delegate
    {
      this.delegate := delegate;
    }

    /** `run` is what the session's ExecuteWrite/ExecuteRead does with the unit of
        work, `closeResult` what session.Close reports. */
    method ExecuteQuery(query: string, params: map<string, Value>, options: seq<QueryConfigOption>,
                        run: ExecutorRun, closeResult: Option<Error>) returns (outcome: QueryOutcome)
      modifies delegate
      ensures !NoNilOption(options) ==> delegate.sessions == old(delegate.sessions)
      ensures NoNilOption(options) ==>
        && |delegate.sessions| == |old(delegate.sessions)| + 1
        && delegate.sessions[..|old(delegate.sessions)|] == old(delegate.sessions)
        && var s := delegate.sessions[|delegate.sessions| - 1];
           fresh(s) && s.config == SessionConfigOf(Fold(options)) && s.calls == SessionCalls(Fold(options).routingControl)
      ensures outcome == QueryOutcomeOf(options, query, params, run, closeResult)
    {
      var folded := ApplyOptions(options);
      if folded.NilOptionCalled? {
        // the panic leaves ExecuteQuery before any session exists
        outcome := Panicked(NilDereference);
        return;
      }
      var queryConfig := folded.config;
      var session := delegate.NewSession(SessionConfig(queryConfig.database, queryConfig.impersonatedUser, queryConfig.bookmarkManager));
      var txFuncApi := ResolveTxFuncApi(queryConfig.routingControl);
      var result: Option<EagerResult>;
      var err: Option<Error>;
      match txFuncApi {
        case Panic(message) =>
          // the deferred close runs while the panic unwinds
          err := session.Close(closeResult);
          outcome := Panicked(message);
          return;
        case ExecuteWriteApi =>
          var r := session.ExecuteWrite(QueryWork(query, params), run);
          result, err := if r.Success? then Some(r.value) else None, ErrorOf(r);
        case ExecuteReadApi =>
          var r := session.ExecuteRead(QueryWork(query, params), run);
          result, err := if r.Success? then Some(r.value) else None, ErrorOf(r);
      }
      // deferred: err = session.Close(ctx)
      err := session.Close(closeResult);
      outcome := Returned(result, err);
    }
  }

  /** A work failure is hidden when the session closes cleanly: (nil, nil). */
  lemma WorkErrorMaskedByCleanClose(options: seq<QueryConfigOption>, query: string, params: map<string, Value>, run: ExecutorRun)
    requires NoNilOption(options) && !ResolveTxFuncApi(Fold(options).routingControl).Panic?
    requires Execute(run, QueryWork(query, params)).Failure?
    ensures QueryOutcomeOf(options, query, params, run, None) == Returned(None, None)
  {
  }

  /** A successful result is returned even when close fails, paired with the close error. */
  lemma ResultKeptDespiteCloseError(options: seq<QueryConfigOption>, query: string, params: map<string, Value>,
                                    run: ExecutorRun, closeError: Error)
    requires NoNilOption(options) && !ResolveTxFuncApi(Fold(options).routingControl).Panic?
    requires Execute(run, QueryWork(query, params)).Success?
    ensures QueryOutcomeOf(options, query, params, run, Some(closeError))
         == Returned(Some(Execute(run, QueryWork(query, params)).value), Some(closeError))
  {
  }

  /** A nil option panics in the option loop, whether or not later options are valid. */
  lemma NilOptionPanicsBeforeSession(options: seq<QueryConfigOption>, query: string, params: map<string, Value>,
                                     run: ExecutorRun, closeResult: Option<Error>, k: nat)
    requires k < |options| && options[k].Nil?
    ensures QueryOutcomeOf(options, query, params, run, closeResult) == Panicked(NilDereference)
  {
  }

  /** With the package's own options ExecuteQuery never panics, and on success its
      result holds exactly what Keys, Collect and Consume produced. */
  lemma PackageOptionsReturnWorkResult(options: seq<QueryConfigOption>, query: string, params: map<string, Value>,
                                       tx: Transaction, closeResult: Option<Error>)
    requires forall k :: 0 <= k < |options| ==> options[k].IsPackageOption()
    requires tx.run.Success? && tx.run.value.keys.Success? && tx.run.value.records.Success? && tx.run.value.summary.Success?
    ensures QueryOutcomeOf(options, query, params, Completed(tx), closeResult) ==
      Returned(Some(EagerResult(tx.run.value.keys.value, tx.run.value.records.value, tx.run.value.summary.value)), closeResult)
  {
    PackageOptionsNeverPanic(options);
  }
}
