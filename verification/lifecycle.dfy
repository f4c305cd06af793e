/** The reporting lifecycle as a state machine. The only state is the
    run identifier kept on the test session; each hook takes the API's
    response to the request it would make as an input and yields the
    requests it issued, the errors it logged and, for the two hooks that
    bracket the session, a fatal error (an exception the hook raises).

    The per-test hook wraps report creation; here it is split into the
    part before the report exists (acquire a test id) and the part after
    (submit the outcome). */
module Lifecycle {
  import opened Common
  import opened Api
  import Options
  import PyText

  /** `session._run_id`. */
  datatype Session = Session(runId: Option<string>)

  /** `call.when`: the test phase a report is being made for. */
  datatype Phase = Setup | Call | Teardown

  /** The errors the per-test hook logs instead of raising. */
  datatype LogEntry =
    | BeginTestRejected(name: string, status: int)
    | TestIdMissing(name: string)
    | FinishTestRejected(name: string, testId: string, status: int)

  /** The exceptions the session-level hooks raise. */
  datatype Fatal =
    | BeginRunRejected(status: int)
    | RunIdMissing
    | FinishRunRejected(runId: string, status: int)

  function Send(cfg: Options.Config, call: ApiCall): Request {
    Request(cfg.url, call, cfg.headers)
  }

  /** Begin-run raises: an error status, or a body without `run_id`. */
  predicate BeginRunFails(resp: Response) {
    RaisesForStatus(resp.status) || "run_id" !in resp.fields
  }

  /** Begin-run leaves a run id behind: reporting is on, the call did not
      raise and `run_id` is not `null`. */
  predicate RunRegistered(cfg: Options.Config, resp: Response) {
    !cfg.disabled && !BeginRunFails(resp) && Get(resp, "run_id").Some?
  }

  // ----- pytest_collection_finish ------------------------------------------

  datatype RunStart = RunStart(session: Session, sent: seq<Request>, fatal: Option<Fatal>)

  /** Registers the run once collection is done. */
  function CollectionFinish(cfg: Options.Config, resp: Response): (r: RunStart)
    ensures cfg.disabled ==> r.sent == [] && r.fatal.None?
    ensures !cfg.disabled ==> r.sent == [Send(cfg, BeginRun)]
    ensures r.fatal.Some? <==> !cfg.disabled && BeginRunFails(resp)
    ensures r.fatal.Some? ==>
              r.fatal.value == (if RaisesForStatus(resp.status) then BeginRunRejected(resp.status) else RunIdMissing)
    ensures r.session.runId.Some? <==> RunRegistered(cfg, resp)
    ensures r.session.runId.Some? ==> r.session.runId == Get(resp, "run_id")
  {
    if cfg.disabled then
      RunStart(Session(None), [], None)
    else
      var sent := [Send(cfg, BeginRun)];
      if RaisesForStatus(resp.status) then
        RunStart(Session(None), sent, Some(BeginRunRejected(resp.status)))
      else if "run_id" !in resp.fields then
        RunStart(Session(None), sent, Some(RunIdMissing))
      else
        match resp.fields["run_id"]
        case Null => RunStart(Session(None), sent, None)
        case Scalar(id) => RunStart(Session(Some(id)), sent, None)
  }

  // ----- pytest_runtest_makereport -----------------------------------------

  /** What the wrapper carries from before the report to after it: nothing
      when it does not report, else the test name and the test id, if one
      was obtained. */
  datatype Handle = Idle | Reporting(name: string, testId: Option<string>)

  datatype Started = Started(handle: Handle, sent: seq<Request>, logged: seq<LogEntry>)

  datatype Effects = Effects(sent: seq<Request>, logged: seq<LogEntry>)

  /** Before the report: in the setup phase of a registered run, create the
      test remotely and keep its id when the API answers 201 with one. */
  function BeforeReport(cfg: Options.Config, s: Session, when: Phase, name: string, resp: Response): (r: Started)
    ensures when != Setup || s.runId.None? ==> r.handle == Idle && r.sent == [] && r.logged == []
    ensures when == Setup && s.runId.Some? ==>
              r.sent == [Send(cfg, BeginTest(name))] && r.handle.Reporting? && r.handle.name == name
    ensures r.handle.Reporting? && r.handle.testId.Some? <==>
              when == Setup && s.runId.Some? && resp.status == 201 && Get(resp, "test_id").Some?
    ensures r.handle.Reporting? && r.handle.testId.Some? ==> r.handle.testId == Get(resp, "test_id")
    ensures |r.logged| <= 1
    ensures r.logged != [] <==> r.handle.Reporting? && r.handle.testId.None?
  {
    if when == Setup && s.runId.Some? then
      var sent := [Send(cfg, BeginTest(name))];
      if resp.status != 201 then
        Started(Reporting(name, None), sent, [BeginTestRejected(name, resp.status)])
      else
        match Get(resp, "test_id")
        case None => Started(Reporting(name, None), sent, [TestIdMissing(name)])
        case Some(id) => Started(Reporting(name, Some(id)), sent, [])
    else
      Started(Idle, [], [])
  }

  /** After the report: submit the upper-cased outcome for a test that has
      an id; anything but 204 is logged. */
  function AfterReport(cfg: Options.Config, h: Handle, outcome: string, resp: Response): (r: Effects)
    ensures r.sent != [] <==> h.Reporting? && h.testId.Some?
    ensures r.sent != [] ==> r.sent == [Send(cfg, FinishTest(h.testId.value, PyText.Upper(outcome)))]
    ensures r.logged != [] <==> r.sent != [] && resp.status != 204
    ensures |r.logged| <= 1
  {
    match h
    case Reporting(name, Some(id)) =>
      var sent := [Send(cfg, FinishTest(id, PyText.Upper(outcome)))];
      if resp.status != 204 then Effects(sent, [FinishTestRejected(name, id, resp.status)])
      else Effects(sent, [])
    case _ => Effects([], [])
  }

  /** One invocation of the per-test hook, with the responses the API gives
      to the two requests it may make and the outcome of the report. */
  datatype HookCall = HookCall(when: Phase, name: string, created: Response, outcome: string, finished: Response)

  /** The test of this invocation is created remotely with an id. */
  predicate Created(s: Session, c: HookCall) {
    c.when == Setup && s.runId.Some? && c.created.status == 201 && Get(c.created, "test_id").Some?
  }

  /** The whole hook: before and after the report, in that order. It
      never raises, whatever the HTTP responses; at most one error is
      logged per test. */
  function ReportTest(cfg: Options.Config, s: Session, c: HookCall): (r: Effects)
    ensures c.when != Setup || s.runId.None? ==> r.sent == [] && r.logged == []
    ensures c.when == Setup && s.runId.Some? ==> 1 <= |r.sent| <= 2 && r.sent[0] == Send(cfg, BeginTest(c.name))
    ensures |r.sent| == 2 <==> Created(s, c)
    ensures |r.sent| == 2 ==>
              r.sent[1] == Send(cfg, FinishTest(Get(c.created, "test_id").value, PyText.Upper(c.outcome)))
    ensures |r.logged| <= 1
    ensures r.logged != [] <==> c.when == Setup && s.runId.Some? && (!Created(s, c) || c.finished.status != 204)
  {
    var pre := BeforeReport(cfg, s, c.when, c.name, c.created);
    var post := AfterReport(cfg, pre.handle, c.outcome, c.finished);
    Effects(pre.sent + post.sent, pre.logged + post.logged)
  }

  // ----- properties of request sequences ----------------------------------

  predicate Authenticated(cfg: Options.Config, sent: seq<Request>) {
    forall i :: 0 <= i < |sent| ==> sent[i].base == cfg.url && sent[i].headers == cfg.headers
  }

  predicate PerTestOnly(sent: seq<Request>) {
    forall i :: 0 <= i < |sent| ==> sent[i].call.BeginTest? || sent[i].call.FinishTest?
  }

  /** Every finish-test request comes right after a begin-test request. */
  predicate FinishFollowsBegin(sent: seq<Request>) {
    forall i :: 0 <= i < |sent| && sent[i].call.FinishTest? ==> 0 < i && sent[i - 1].call.BeginTest?
  }

  /** The names of the tests begun, in order. */
  function Begun(sent: seq<Request>): seq<string> {
    if sent == [] then []
    else (if sent[0].call.BeginTest? then [sent[0].call.name] else []) + Begun(sent[1..])
  }

  /** The number of finish-test requests. */
  function Finished(sent: seq<Request>): nat {
    if sent == [] then 0
    else (if sent[0].call.FinishTest? then 1 else 0) + Finished(sent[1..])
  }

  lemma {:induction false} BegunAppend(a: seq<Request>, b: seq<Request>)
    ensures Begun(a + b) == Begun(a) + Begun(b)
  {
    if a == [] {
      assert a + b == b;
    } else {
      assert (a + b)[0] == a[0];
      assert (a + b)[1..] == a[1..] + b;
      BegunAppend(a[1..], b);
    }
  }

  lemma {:induction false} FinishedAppend(a: seq<Request>, b: seq<Request>)
    ensures Finished(a + b) == Finished(a) + Finished(b)
  {
    if a == [] {
      assert a + b == b;
    } else {
      assert (a + b)[0] == a[0];
      assert (a + b)[1..] == a[1..] + b;
      FinishedAppend(a[1..], b);
    }
  }

  /** Joining two request sequences keeps the properties both have. */
  lemma AppendKeeps(cfg: Options.Config, a: seq<Request>, b: seq<Request>)
    requires Authenticated(cfg, a) && Authenticated(cfg, b)
    requires FinishFollowsBegin(a) && FinishFollowsBegin(b)
    ensures Authenticated(cfg, a + b)
    ensures FinishFollowsBegin(a + b)
    ensures PerTestOnly(a) && PerTestOnly(b) ==> PerTestOnly(a + b)
  {
    forall i | 0 <= i < |a + b| && (a + b)[i].call.FinishTest?
      ensures 0 < i && (a + b)[i - 1].call.BeginTest?
    {
      if i < |a| {
        assert a[i] == (a + b)[i];
      } else {
        assert b[i - |a|] == (a + b)[i];
        if i > |a| {
          assert b[i - |a| - 1] == (a + b)[i - 1];
        }
      }
    }
  }

  /** The names of the invocations made for the setup phase. */
  function SetupNames(calls: seq<HookCall>): seq<string> {
    if calls == [] then []
    else (if calls[0].when == Setup then [calls[0].name] else []) + SetupNames(calls[1..])
  }

  /** The number of invocations whose test was created with an id. */
  function CreatedCount(s: Session, calls: seq<HookCall>): nat {
    if calls == [] then 0
    else (if Created(s, calls[0]) then 1 else 0) + CreatedCount(s, calls[1..])
  }

  /** What the per-test hook amounts to over a sequence of invocations:
      nothing without a run id; otherwise only per-test requests, each
      with the configured URL and headers, every finish right after a
      begin, one begin per setup invocation in order, one finish per test
      created with an id, and at most one logged error per invocation. */
  predicate Summarises(cfg: Options.Config, s: Session, calls: seq<HookCall>, r: Effects) {
    && (s.runId.None? ==> r.sent == [] && r.logged == [])
    && Authenticated(cfg, r.sent)
    && PerTestOnly(r.sent)
    && FinishFollowsBegin(r.sent)
    && (s.runId.Some? ==> Begun(r.sent) == SetupNames(calls))
    && Finished(r.sent) == CreatedCount(s, calls)
    && |r.logged| <= |calls|
  }

  /** A single invocation summarised. */
  lemma ReportTestSummary(cfg: Options.Config, s: Session, c: HookCall)
    ensures var one := ReportTest(cfg, s, c);
            && Authenticated(cfg, one.sent)
            && PerTestOnly(one.sent)
            && FinishFollowsBegin(one.sent)
            && Begun(one.sent) == (if c.when == Setup && s.runId.Some? then [c.name] else [])
            && Finished(one.sent) == (if Created(s, c) then 1 else 0)
  {
    var one := ReportTest(cfg, s, c);
    if |one.sent| == 2 {
      var tail := one.sent[1..];
      assert tail[1..] == [];
      assert Begun(tail[1..]) == [] && Finished(tail[1..]) == 0;
      assert tail[0].call.FinishTest?;
      assert Begun(tail) == [];
      assert Finished(tail) == 1;
    } else if |one.sent| == 1 {
      assert one.sent[1..] == [];
    }
  }

  /** One more invocation in front keeps the summary. */
  lemma SummarisesStep(cfg: Options.Config, s: Session, calls: seq<HookCall>, rest: Effects)
    requires calls != []
    requires Summarises(cfg, s, calls[1..], rest)
    ensures var one := ReportTest(cfg, s, calls[0]);
            Summarises(cfg, s, calls, Effects(one.sent + rest.sent, one.logged + rest.logged))
  {
    var one := ReportTest(cfg, s, calls[0]);
    ReportTestSummary(cfg, s, calls[0]);
    AppendKeeps(cfg, one.sent, rest.sent);
    BegunAppend(one.sent, rest.sent);
    FinishedAppend(one.sent, rest.sent);
  }

  /** The per-test hook over the tests of a session, in order. */
  function ReportCalls(cfg: Options.Config, s: Session, calls: seq<HookCall>): (r: Effects)
    ensures Summarises(cfg, s, calls, r)
  {
    if calls == [] then Effects([], [])
    else
      var one := ReportTest(cfg, s, calls[0]);
      var rest := ReportCalls(cfg, s, calls[1..]);
      SummarisesStep(cfg, s, calls, rest);
      Effects(one.sent + rest.sent, one.logged + rest.logged)
  }

  // ----- pytest_sessionfinish ----------------------------------------------

  datatype RunEnd = RunEnd(sent: seq<Request>, fatal: Option<Fatal>)

  /** Closes a registered run; raises on an error status. */
  function SessionFinish(cfg: Options.Config, s: Session, resp: Response): (r: RunEnd)
    ensures s.runId.None? ==> r.sent == [] && r.fatal.None?
    ensures s.runId.Some? ==> r.sent == [Send(cfg, FinishRun(s.runId.value))]
    ensures r.fatal.Some? <==> s.runId.Some? && RaisesForStatus(resp.status)
    ensures r.fatal.Some? ==> r.fatal.value == FinishRunRejected(s.runId.value, resp.status)
  {
    match s.runId
    case None => RunEnd([], None)
    case Some(id) =>
      var sent := [Send(cfg, FinishRun(id))];
      if RaisesForStatus(resp.status) then RunEnd(sent, Some(FinishRunRejected(id, resp.status)))
      else RunEnd(sent, None)
  }

  // ----- a whole session ---------------------------------------------------

  datatype Trace = Trace(sent: seq<Request>, logged: seq<LogEntry>, fatal: Option<Fatal>)

  /** A session from collection to teardown: register the run, run the
      per-test hook for each invocation (none when registering raised, as
      the session then stops before running tests) and close the run. */
  function RunSession(cfg: Options.Config, begin: Response, calls: seq<HookCall>, end: Response): (t: Trace)
    ensures cfg.disabled ==> t.sent == [] && t.logged == [] && t.fatal.None?
    ensures Authenticated(cfg, t.sent)
    ensures FinishFollowsBegin(t.sent)
    ensures !RunRegistered(cfg, begin) ==> t.sent == (if cfg.disabled then [] else [Send(cfg, BeginRun)])
    ensures !RunRegistered(cfg, begin) ==> t.logged == []
    ensures t.fatal.Some? <==>
              (!cfg.disabled && BeginRunFails(begin)) || (RunRegistered(cfg, begin) && RaisesForStatus(end.status))
    ensures !cfg.disabled && BeginRunFails(begin) ==>
              t.fatal == Some(if RaisesForStatus(begin.status) then BeginRunRejected(begin.status) else RunIdMissing)
    ensures RunRegistered(cfg, begin) && RaisesForStatus(end.status) ==>
              t.fatal == Some(FinishRunRejected(Get(begin, "run_id").value, end.status))
    ensures RunRegistered(cfg, begin) ==>
              var id := Get(begin, "run_id").value;
              && |t.sent| >= 2
              && t.sent[0] == Send(cfg, BeginRun)
              && t.sent[|t.sent| - 1] == Send(cfg, FinishRun(id))
              && PerTestOnly(t.sent[1..|t.sent| - 1])
              && Begun(t.sent) == SetupNames(calls)
              && Finished(t.sent) == CreatedCount(Session(Some(id)), calls)
              && |t.logged| <= |calls|
  {
    var start := CollectionFinish(cfg, begin);
    var tests := if start.fatal.None? then ReportCalls(cfg, start.session, calls) else Effects([], []);
    var close := SessionFinish(cfg, start.session, end);
    var sent := start.sent + tests.sent + close.sent;
    AppendKeeps(cfg, start.sent, tests.sent);
    AppendKeeps(cfg, start.sent + tests.sent, close.sent);
    BegunAppend(start.sent, tests.sent);
    BegunAppend(start.sent + tests.sent, close.sent);
    FinishedAppend(start.sent, tests.sent);
    FinishedAppend(start.sent + tests.sent, close.sent);
    assert RunRegistered(cfg, begin) ==> sent[1..|sent| - 1] == tests.sent;
    Trace(sent, tests.logged, if start.fatal.Some? then start.fatal else close.fatal)
  }
}
