/**
 * cadence.py: the pending pass, then the follow-ups due today, then one
 * re-trigger attempt per follow-up and per retry, in that order. Each
 * attempt requests a plan, polls for it, gives up on plans that miss the
 * criteria (noting them as unsuccessful), and otherwise triggers ZTF and
 * notes the plan as pending.
 */
module RetriggerLoop {
  import opened Wrappers
  import opened PyText
  import opened TriggerLog
  import opened PlanUtils
  import opened Admission
  import opened Cadence
  import opened CadencePass

  /**
   * What the services answer for one re-trigger attempt: the plan start
   * `submit_plan` derives from the plan window, the plan-request listings
   * of the 300 s polling loop, and whether the trigger request succeeds.
   */
  datatype RetriggerAnswers = RetriggerAnswers(planStart: string, planPolls: seq<Option<seq<PlanRequest>>>, triggerOk: bool)

  /** How one attempt ends; every outcome but `Retriggered` and `Aborted` is a caught `MyException`. */
  datatype RetriggerOutcome =
    | NoPlanFound
    | PlanRejected
    | TestingSkip
    | TriggerRefused
    | Retriggered
    | Aborted(error: Raised)

  datatype StepResult = StepResult(outcome: RetriggerOutcome, calls: seq<Call>, rows: seq<Row>)

  /** `int(cell)`: `TypeError` on NaN, `ValueError` on a text that is not an integer. */
  function CellInt(c: Cell): (r: Result<int>)
    ensures r.Ok? <==> c.Some? && PyInt(c.value).Some?
    ensures r.Err? ==> r.error == (if c.None? then TypeError else ValueError)
    ensures r.Ok? ==> PyInt(c.value) == Some(r.value)
  {
    match c
    case None => Err(TypeError)
    case Some(s) => if PyInt(s).None? then Err(ValueError) else Ok(PyInt(s).value)
  }

  /** An id the log stored as `str(n)` reads back as `n`. */
  lemma StoredIdRead(n: int)
    ensures CellInt(Some(IntText(n))) == Ok(n)
  {
    PyIntText(n);
  }

  const FollowUpSubject := "ZTF Triggered " + "for a scheduled follow-up observation of "
  const RetrySubject := "Sending another " + "trigger for tonight after unsuccessful observation of "

  /** The email subject: a scheduled follow-up, or a same-night retry. */
  function RetriggerMessage(x: Retrigger): (m: string)
    ensures x.kind == FollowUp <==> |m| >= |FollowUpSubject| && m[..|FollowUpSubject|] == FollowUpSubject
    ensures |m| >= |x.id| && m[|m| - |x.id|..] == x.id
  {
    var m := (if x.kind == FollowUp then FollowUpSubject else RetrySubject) + x.id;
    assert m[|m| - |x.id|..] == x.id;
    assert x.kind != FollowUp ==> m[0] == 'S';
    m
  }

  /** The plan the polling loop finds for the queue name `submit_plan` chose. */
  function PlanOf(x: Retrigger, ans: RetriggerAnswers): Result<Option<PlanSummary>>
  {
    PollPlan(CurrentStats, ans.planPolls, QueueName(x.id, ans.planStart))
  }

  /** `get_plan_stats` lets only `NameError` escape (an unanswered request). */
  lemma PlanOfError(x: Retrigger, ans: RetriggerAnswers)
    ensures PlanOf(x, ans).Err? ==> PlanOf(x, ans).error == NameError
  {
    var q := QueueName(x.id, ans.planStart);
    if PlanOf(x, ans).Err? {
      var k :| 0 <= k < |ans.planPolls| && ReadStats(CurrentStats, ans.planPolls[k], q) == PlanOf(x, ans);
    }
  }

  /**
   * Which of the two retrigger loops runs: cadence.py, or
   * TriggerBot/bot/cadence.py, where testing mode stops as soon as the plan
   * is found, before the criteria are checked.
   */
  datatype LoopEra = CurrentLoop | TriggerBotLoop

  /**
   * The rest of an attempt once a plan is found (cadence.py:101-149), with
   * the requests it adds: a plan over 5400 s or under 0.5 probability is
   * appended to the unsuccessful column; testing mode stops before
   * triggering (before the criteria in the TriggerBot loop); a refused
   * trigger leaves the log alone; a triggered plan is appended to the
   * pending column, then the email goes out.
   */
  function PlanStep(era: LoopEra, rows: seq<Row>, x: Retrigger, p: PlanSummary, triggerOk: bool, testing: bool): (r: StepResult)
    ensures FailsPlanCriteria(p) || testing ==> r.calls == []
    ensures era == TriggerBotLoop && testing ==> r == StepResult(TestingSkip, [], rows)
    ensures FailsPlanCriteria(p) && !(era == TriggerBotLoop && testing) ==> (r.outcome == PlanRejected <==> FirstRowOf(rows, x.id).Some?)
    ensures r.outcome == PlanRejected ==>
      FailsPlanCriteria(p) && Ok(r.rows) == UpdatedRows(rows, x.id, UnsuccessfulObservation, PlanText(QueuedOf(p)), AppendText)
    ensures testing && !FailsPlanCriteria(p) ==> r == StepResult(TestingSkip, [], rows)
    ensures r.outcome == TriggerRefused ==> !triggerOk && r.rows == rows && r.calls == [TriggerPlan(p.planId)]
    ensures r.outcome == Retriggered ==> (!testing && !FailsPlanCriteria(p)
      && r.calls == [TriggerPlan(p.planId), Email(RetriggerMessage(x))]
      && Ok(r.rows) == UpdatedRows(rows, x.id, PendingObservation, PlanText(QueuedOf(p)), AppendText))
    ensures r.outcome.Aborted? ==> r.outcome == Aborted(IndexError) && FirstRowOf(rows, x.id).None?
    ensures !FailsPlanCriteria(p) && !testing && triggerOk ==> (r.outcome == Retriggered <==> FirstRowOf(rows, x.id).Some?)
    ensures r.outcome != PlanRejected && r.outcome != Retriggered ==> r.rows == rows
  {
    var text := PlanText(QueuedOf(p));
    if era == TriggerBotLoop && testing then StepResult(TestingSkip, [], rows)
    else if FailsPlanCriteria(p) then
      match UpdatedRows(rows, x.id, UnsuccessfulObservation, text, AppendText)
      case Err(e) => StepResult(Aborted(e), [], rows)
      case Ok(r1) => StepResult(PlanRejected, [], r1)
    else if testing then StepResult(TestingSkip, [], rows)
    else if !triggerOk then StepResult(TriggerRefused, [TriggerPlan(p.planId)], rows)
    else
      match UpdatedRows(rows, x.id, PendingObservation, text, AppendText)
      case Err(e) => StepResult(Aborted(e), [TriggerPlan(p.planId)], rows)
      case Ok(r1) => StepResult(Retriggered, [TriggerPlan(p.planId), Email(RetriggerMessage(x))], r1)
  }

  /**
   * One attempt of the loop of cadence.py: `int()` of the stored ids,
   * the plan request, the polling loop (no plan within the window is a
   * caught `MyException`), then the plan gate and the trigger.
   */
  function RetriggerStep(era: LoopEra, rows: seq<Row>, x: Retrigger, ans: RetriggerAnswers, testing: bool): (r: StepResult)
    ensures r.outcome.Aborted? ==> r.outcome.error in {TypeError, ValueError, NameError, IndexError}
    ensures CellInt(x.gcnId).Err? || CellInt(x.localizationId).Err? <==> r.calls == []
    ensures r.calls != [] ==> r.calls[0] == SubmitPlan(QueueName(x.id, ans.planStart))
    ensures r.calls != [] && PlanOf(x, ans) == Ok(None) ==> r == StepResult(NoPlanFound, r.calls, rows) && |r.calls| == 1
    ensures testing ==> |r.calls| <= 1 && r.outcome != Retriggered && r.outcome != TriggerRefused
    ensures r.outcome == TriggerRefused ==> r.rows == rows
    ensures r.outcome == PlanRejected || r.outcome == Retriggered ==> PlanOf(x, ans).Ok? && PlanOf(x, ans).value.Some?
    ensures r.outcome == PlanRejected ==> FailsPlanCriteria(PlanOf(x, ans).value.value) && |r.calls| == 1
    ensures era == TriggerBotLoop && testing ==> r.rows == rows
    ensures r.outcome != PlanRejected && r.outcome != Retriggered ==> r.rows == rows
    ensures r.outcome == Retriggered ==> (!FailsPlanCriteria(PlanOf(x, ans).value.value)
      && |r.calls| == 3 && r.calls[1..] == [TriggerPlan(PlanOf(x, ans).value.value.planId), Email(RetriggerMessage(x))])
  {
    PlanOfError(x, ans);
    match CellInt(x.gcnId)
    case Err(e) => StepResult(Aborted(e), [], rows)
    case Ok(_) =>
      match CellInt(x.localizationId)
      case Err(e) => StepResult(Aborted(e), [], rows)
      case Ok(_) =>
        var q := QueueName(x.id, ans.planStart);
        match PlanOf(x, ans)
        case Err(e) => StepResult(Aborted(e), [SubmitPlan(q)], rows)
        case Ok(None) => StepResult(NoPlanFound, [SubmitPlan(q)], rows)
        case Ok(Some(p)) =>
          var s := PlanStep(era, rows, x, p, ans.triggerOk, testing);
          StepResult(s.outcome, [SubmitPlan(q)] + s.calls, s.rows)
  }

  /** The only trigger requests of an attempt are made outside testing mode. */
  lemma TestingStepNoTrigger(era: LoopEra, rows: seq<Row>, x: Retrigger, ans: RetriggerAnswers, testing: bool)
    ensures testing ==> NoTrigger(RetriggerStep(era, rows, x, ans, testing).calls)
  {
    var r := RetriggerStep(era, rows, x, ans, testing);
    if testing && r.calls != [] {
      assert r.calls == [r.calls[0]];
    }
  }

  lemma NoTriggerJoin(a: seq<Call>, b: seq<Call>)
    ensures NoTrigger(a) && NoTrigger(b) ==> NoTrigger(a + b)
  {
  }

  /** The attempts made, the requests sent, and the log they left. */
  datatype RetriggerRun = RetriggerRun(outcomes: seq<RetriggerOutcome>, calls: seq<Call>, rows: seq<Row>)

  function Chain(o: RetriggerOutcome, calls: seq<Call>, r: RetriggerRun): RetriggerRun
  {
    RetriggerRun([o] + r.outcomes, calls + r.calls, r.rows)
  }

  /** Only the last attempt may have ended the script. */
  predicate AbortsOnlyLast(os: seq<RetriggerOutcome>)
  {
    forall k :: 0 <= k < |os| - 1 ==> !os[k].Aborted?
  }

  lemma AbortsOnlyLastCons(o: RetriggerOutcome, os: seq<RetriggerOutcome>)
    ensures !o.Aborted? && AbortsOnlyLast(os) ==> AbortsOnlyLast([o] + os)
  {
    if !o.Aborted? && AbortsOnlyLast(os) {
      assert forall k :: 1 <= k < |os| + 1 ==> ([o] + os)[k] == os[k - 1];
    }
  }

  /**
   * The loop over `new_triggers`, the answers of its `i`-th attempt being
   * `ask(i)`: caught exceptions go on to the next request, any other one
   * ends the script.
   */
  function RunRetriggers(era: LoopEra, rows: seq<Row>, xs: seq<Retrigger>, from: nat, ask: nat -> RetriggerAnswers, testing: bool): (r: RetriggerRun)
    ensures |r.outcomes| <= |xs|
    decreases |xs|
  {
    if xs == [] then RetriggerRun([], [], rows)
    else
      var s := RetriggerStep(era, rows, xs[0], ask(from), testing);
      if s.outcome.Aborted? then RetriggerRun([s.outcome], s.calls, s.rows)
      else Chain(s.outcome, s.calls, RunRetriggers(era, s.rows, xs[1..], from + 1, ask, testing))
  }

  /**
   * Outcomes of a loop over `n` requests: every request is attempted unless
   * an attempt ended the script, and only the last one can have.
   */
  predicate AbortShape(os: seq<RetriggerOutcome>, n: nat)
  {
    |os| <= n && AbortsOnlyLast(os) && (|os| < n ==> os != [] && os[|os| - 1].Aborted?)
  }

  lemma {:induction false} RunRetriggersAborts(era: LoopEra, rows: seq<Row>, xs: seq<Retrigger>, from: nat, ask: nat -> RetriggerAnswers, testing: bool)
    ensures AbortShape(RunRetriggers(era, rows, xs, from, ask, testing).outcomes, |xs|)
    decreases |xs|
  {
    if xs != [] {
      var s := RetriggerStep(era, rows, xs[0], ask(from), testing);
      if s.outcome.Aborted? {
        OneAbort(s.outcome, |xs|);
      } else {
        RunRetriggersAborts(era, s.rows, xs[1..], from + 1, ask, testing);
        ChainAborts(s.outcome, s.calls, RunRetriggers(era, s.rows, xs[1..], from + 1, ask, testing), |xs[1..]|);
      }
    }
  }

  lemma OneAbort(o: RetriggerOutcome, n: nat)
    requires o.Aborted? && n >= 1
    ensures AbortShape([o], n)
  {
  }

  lemma ChainAborts(o: RetriggerOutcome, calls: seq<Call>, rest: RetriggerRun, n: nat)
    requires !o.Aborted? && AbortShape(rest.outcomes, n)
    ensures AbortShape(Chain(o, calls, rest).outcomes, n + 1)
  {
    AbortsOnlyLastCons(o, rest.outcomes);
    if rest.outcomes != [] {
      assert ([o] + rest.outcomes)[|rest.outcomes|] == rest.outcomes[|rest.outcomes| - 1];
    }
  }

  /** In testing mode the loop sends no trigger request. */
  lemma {:induction false} RunRetriggersTesting(era: LoopEra, rows: seq<Row>, xs: seq<Retrigger>, from: nat, ask: nat -> RetriggerAnswers)
    ensures NoTrigger(RunRetriggers(era, rows, xs, from, ask, true).calls)
    decreases |xs|
  {
    if xs != [] {
      var s := RetriggerStep(era, rows, xs[0], ask(from), true);
      TestingStepNoTrigger(era, rows, xs[0], ask(from), true);
      if !s.outcome.Aborted? {
        RunRetriggersTesting(era, s.rows, xs[1..], from + 1, ask);
        NoTriggerJoin(s.calls, RunRetriggers(era, s.rows, xs[1..], from + 1, ask, true).calls);
      }
    }
  }

  /** Follow-ups come before retries. */
  predicate FollowUpsFirst(ts: seq<Retrigger>)
  {
    forall i, j :: 0 <= i < j < |ts| && ts[j].kind == FollowUp ==> ts[i].kind == FollowUp
  }

  lemma FollowUpsThenRetries(a: seq<Retrigger>, b: seq<Retrigger>)
    requires forall t :: t in a ==> t.kind == FollowUp
    requires forall t :: t in b ==> t.kind == Retry
    ensures FollowUpsFirst(a + b)
  {
    assert forall j :: |a| <= j < |a + b| ==> (a + b)[j] in b;
    assert forall i :: 0 <= i < |a| ==> (a + b)[i] in a;
  }

  lemma RetriesAreRetries(entries: seq<PendingEntry>, matches: PendingEntry -> int)
    ensures forall t :: t in RetriesOf(entries, matches) ==> t.kind == Retry
  {
  }

  /** Everything cadence.py did, and the exception that ended it, if any. */
  datatype CadenceResult = CadenceResult(triggers: seq<Retrigger>, outcomes: seq<RetriggerOutcome>, calls: seq<Call>,
                                         rows: seq<Row>, crash: Option<Raised>)

  /**
   * cadence.py: the pending pass on the log, the follow-ups due `today`
   * in the log it left, then the attempts for the follow-ups and the retries.
   */
  function CadenceRun(rows: seq<Row>, c: Clock, matches: PendingEntry -> int, today: real,
                      ask: nat -> RetriggerAnswers, testing: bool): (r: CadenceResult)
    ensures FollowUpsFirst(r.triggers)
    ensures testing ==> NoTrigger(r.calls)
    ensures |r.outcomes| <= |r.triggers|
    ensures r.crash.None? ==> |r.outcomes| == |r.triggers|
  {
    var pass := ParsePending(rows, c, matches);
    if pass.crash.Some? then CadenceResult([], [], [], pass.rows, pass.crash)
    else
      match TriggerOnCadence(pass.rows, today, c)
      case Err(e) => CadenceResult([], [], [], pass.rows, Some(e))
      case Ok(followup) =>
        var triggers := followup + pass.retry;
        RetriesAreRetries(CheckPending(rows, c).value, matches);
        FollowUpsThenRetries(followup, pass.retry);
        var run := RunRetriggers(CurrentLoop, pass.rows, triggers, 0, ask, testing);
        RunRetriggersAborts(CurrentLoop, pass.rows, triggers, 0, ask, testing);
        RunRetriggersTesting(CurrentLoop, pass.rows, triggers, 0, ask);
        var last := if run.outcomes != [] && run.outcomes[|run.outcomes| - 1].Aborted?
                    then Some(run.outcomes[|run.outcomes| - 1].error) else None;
        CadenceResult(triggers, run.outcomes, run.calls, run.rows, last)
  }

  // ---------------------------------------------------------------------
  // What an attempt leaves in the log
  // ---------------------------------------------------------------------

  /**
   * A triggered plan is noted as pending on every row of its event, after
   * what the event's first row held; no other row and no other column
   * changes.
   */
  lemma RetriggeredPlanPending(era: LoopEra, rows: seq<Row>, x: Retrigger, ans: RetriggerAnswers, testing: bool)
    requires NormalRows(rows)
    requires RetriggerStep(era, rows, x, ans, testing).outcome == Retriggered
    ensures FirstRowOf(rows, x.id).Some? && PlanOf(x, ans).Ok? && PlanOf(x, ans).value.Some?
    ensures var r, i := RetriggerStep(era, rows, x, ans, testing).rows, FirstRowOf(rows, x.id).value;
      var text := PlanText(QueuedOf(PlanOf(x, ans).value.value));
      |r| == |rows| && NormalRows(r)
      && (forall k :: 0 <= k < |rows| && rows[k].supereventId != x.id ==> r[k] == rows[k])
      && (forall k :: 0 <= k < |rows| && rows[k].supereventId == x.id ==>
            r[k] == rows[k].(pending := Some(AppendedText(rows[i].pending, text))))
  {
    RetriggeredRows(era, rows, x, ans, testing);
    PendingAppended(rows, x.id, PlanText(QueuedOf(PlanOf(x, ans).value.value)), RetriggerStep(era, rows, x, ans, testing).rows);
  }

  /** The log a triggered plan leaves is the plan's text appended to the event's pending column. */
  lemma RetriggeredRows(era: LoopEra, rows: seq<Row>, x: Retrigger, ans: RetriggerAnswers, testing: bool)
    requires RetriggerStep(era, rows, x, ans, testing).outcome == Retriggered
    ensures FirstRowOf(rows, x.id).Some? && PlanOf(x, ans).Ok? && PlanOf(x, ans).value.Some?
    ensures Ok(RetriggerStep(era, rows, x, ans, testing).rows)
      == UpdatedRows(rows, x.id, PendingObservation, PlanText(QueuedOf(PlanOf(x, ans).value.value)), AppendText)
  {
  }

  /** The log a rejected plan leaves is the plan's text appended to the event's unsuccessful column. */
  lemma RejectedRows(era: LoopEra, rows: seq<Row>, x: Retrigger, ans: RetriggerAnswers, testing: bool)
    requires RetriggerStep(era, rows, x, ans, testing).outcome == PlanRejected
    ensures FirstRowOf(rows, x.id).Some? && PlanOf(x, ans).Ok? && PlanOf(x, ans).value.Some?
    ensures Ok(RetriggerStep(era, rows, x, ans, testing).rows)
      == UpdatedRows(rows, x.id, UnsuccessfulObservation, PlanText(QueuedOf(PlanOf(x, ans).value.value)), AppendText)
    ensures NoTrigger(RetriggerStep(era, rows, x, ans, testing).calls)
  {
    var s := RetriggerStep(era, rows, x, ans, testing);
    assert s.calls == [s.calls[0]];
  }

  lemma PendingAppended(rows: seq<Row>, id: string, value: string, r: seq<Row>)
    requires NormalRows(rows) && FirstRowOf(rows, id).Some? && value != ""
    requires Ok(r) == UpdatedRows(rows, id, PendingObservation, value, AppendText)
    ensures var i := FirstRowOf(rows, id).value;
      |r| == |rows| && NormalRows(r)
      && (forall k :: 0 <= k < |rows| && rows[k].supereventId != id ==> r[k] == rows[k])
      && (forall k :: 0 <= k < |rows| && rows[k].supereventId == id ==>
            r[k] == rows[k].(pending := Some(AppendedText(rows[i].pending, value))))
  {
    AppendEffect(rows, id, PendingObservation, value);
  }

  lemma UnsuccessfulAppended(rows: seq<Row>, id: string, value: string, r: seq<Row>)
    requires NormalRows(rows) && FirstRowOf(rows, id).Some? && value != ""
    requires Ok(r) == UpdatedRows(rows, id, UnsuccessfulObservation, value, AppendText)
    ensures var i := FirstRowOf(rows, id).value;
      |r| == |rows| && NormalRows(r)
      && (forall k :: 0 <= k < |rows| && rows[k].supereventId != id ==> r[k] == rows[k])
      && (forall k :: 0 <= k < |rows| && rows[k].supereventId == id ==>
            r[k] == rows[k].(unsuccessful := Some(AppendedText(rows[i].unsuccessful, value))))
  {
    AppendEffect(rows, id, UnsuccessfulObservation, value);
  }

  /**
   * A plan that misses the criteria is noted as unsuccessful on every row
   * of its event; the pending column, the other rows and the other columns
   * are left alone, and ZTF is not asked to observe it.
   */
  lemma RejectedPlanUnsuccessful(era: LoopEra, rows: seq<Row>, x: Retrigger, ans: RetriggerAnswers, testing: bool)
    requires NormalRows(rows)
    requires RetriggerStep(era, rows, x, ans, testing).outcome == PlanRejected
    ensures FirstRowOf(rows, x.id).Some? && PlanOf(x, ans).Ok? && PlanOf(x, ans).value.Some?
    ensures NoTrigger(RetriggerStep(era, rows, x, ans, testing).calls)
    ensures var r, i := RetriggerStep(era, rows, x, ans, testing).rows, FirstRowOf(rows, x.id).value;
      var text := PlanText(QueuedOf(PlanOf(x, ans).value.value));
      |r| == |rows| && NormalRows(r)
      && (forall k :: 0 <= k < |rows| && rows[k].supereventId != x.id ==> r[k] == rows[k])
      && (forall k :: 0 <= k < |rows| && rows[k].supereventId == x.id ==>
            r[k] == rows[k].(unsuccessful := Some(AppendedText(rows[i].unsuccessful, text))))
  {
    RejectedRows(era, rows, x, ans, testing);
    UnsuccessfulAppended(rows, x.id, PlanText(QueuedOf(PlanOf(x, ans).value.value)), RetriggerStep(era, rows, x, ans, testing).rows);
  }

  /**
   * In testing mode no attempt asks ZTF to observe, and none touches the
   * pending or successful columns.
   */
  lemma TestingLeavesPending(era: LoopEra, rows: seq<Row>, x: Retrigger, ans: RetriggerAnswers)
    requires NormalRows(rows)
    ensures var r := RetriggerStep(era, rows, x, ans, true);
      NoTrigger(r.calls) && |r.rows| == |rows| && NormalRows(r.rows)
      && forall k :: 0 <= k < |rows| ==> r.rows[k].pending == rows[k].pending && r.rows[k].successful == rows[k].successful
  {
    TestingStepNoTrigger(era, rows, x, ans, true);
    var r := RetriggerStep(era, rows, x, ans, true);
    if r.outcome == PlanRejected {
      RejectedPlanUnsuccessful(era, rows, x, ans, true);
    } else {
      assert r.rows == rows;
    }
  }

  /**
   * The cycle cadence.py keeps going: a plan triggered for an event with
   * nothing pending is the event's pending cell afterwards, and the next
   * pending pass watches it (nothing before its start, one check within
   * two days, one give-up after).
   */
  lemma RetriggerThenWatch(era: LoopEra, row: Row, x: Retrigger, ans: RetriggerAnswers, testing: bool, c: Clock)
    requires NormalRow(row) && Examined(row) && row.pending.None? && row.supereventId == x.id
    requires RetriggerStep(era, [row], x, ans, testing).outcome == Retriggered
    requires PlainStart(PlanOf(x, ans).value.value.startObservation)
    ensures var p := QueuedOf(PlanOf(x, ans).value.value);
      var logged := row.(pending := Some(PlanText(p)));
      var r := RetriggerStep(era, [row], x, ans, testing).rows;
      r == [logged]
      && (Upcoming(p, c) ==> CheckPending(r, c) == Ok([]))
      && (Due(p, c) ==> CheckPending(r, c) == Ok([CheckOf(logged, PlanText(p))]))
      && (Expired(p, c) ==> CheckPending(r, c) == Ok([GiveUp(x.id, PlanText(p))]))
  {
    var p := QueuedOf(PlanOf(x, ans).value.value);
    var logged := row.(pending := Some(PlanText(p)));
    RetriggeredPlanPending(era, [row], x, ans, testing);
    var r := RetriggerStep(era, [row], x, ans, testing).rows;
    assert r == [logged];
    OneRowPass(logged, c);
    LoggedPlanClassified(logged, p, c);
  }

  // ---------------------------------------------------------------------
  // The script, step by step on the log file
  // ---------------------------------------------------------------------

  /** The body of the `try` in the loop of either retrigger script, for one trigger. */
  method RetriggerOne(era: LoopEra, log: TriggerLogFile, x: Retrigger, ans: RetriggerAnswers, testing: bool)
    returns (outcome: RetriggerOutcome, calls: seq<Call>)
    requires log.Valid()
    modifies log
    ensures log.Valid()
    ensures StepResult(outcome, calls, log.rows) == RetriggerStep(era, old(log.rows), x, ans, testing)
  {
    calls := [];
    var gcnId := CellInt(x.gcnId);
    if gcnId.Err? {
      return Aborted(gcnId.error), calls;
    }
    var localizationId := CellInt(x.localizationId);
    if localizationId.Err? {
      return Aborted(localizationId.error), calls;
    }
    var q := QueueName(x.id, ans.planStart);
    calls := [SubmitPlan(q)];
    var status := PollPlans(CurrentStats, ans.planPolls, q);
    if status.Err? {
      return Aborted(status.error), calls;
    }
    if status.value.None? {
      return NoPlanFound, calls;
    }
    var p := status.value.value;
    var more;
    outcome, more := PlanFollowThrough(era, log, x, p, ans.triggerOk, testing);
    calls := calls + more;
  }

  /** The attempt once the plan is found: the criteria, the trigger and the log entry. */
  method PlanFollowThrough(era: LoopEra, log: TriggerLogFile, x: Retrigger, p: PlanSummary, triggerOk: bool, testing: bool)
    returns (outcome: RetriggerOutcome, calls: seq<Call>)
    requires log.Valid()
    modifies log
    ensures log.Valid()
    ensures StepResult(outcome, calls, log.rows) == PlanStep(era, old(log.rows), x, p, triggerOk, testing)
  {
    calls := [];
    var text := PlanText(QueuedOf(p));
    if era == TriggerBotLoop && testing {
      return TestingSkip, calls;
    }
    if FailsPlanCriteria(p) {
      var raised := log.Update(x.id, UnsuccessfulObservation, text, AppendText);
      if raised.Some? {
        return Aborted(raised.value), calls;
      }
      return PlanRejected, calls;
    }
    if testing {
      return TestingSkip, calls;
    }
    calls := [TriggerPlan(p.planId)];
    if !triggerOk {
      return TriggerRefused, calls;
    }
    var raised := log.Update(x.id, PendingObservation, text, AppendText);
    if raised.Some? {
      return Aborted(raised.value), calls;
    }
    calls := calls + [Email(RetriggerMessage(x))];
    return Retriggered, calls;
  }

  /** What the loop has done so far, followed by what the rest of it does. */
  function Glue(outcomes: seq<RetriggerOutcome>, calls: seq<Call>, r: RetriggerRun): RetriggerRun
  {
    RetriggerRun(outcomes + r.outcomes, calls + r.calls, r.rows)
  }

  /** An attempt that ends the script ends the loop. */
  lemma RunRetriggersStop(era: LoopEra, rows: seq<Row>, xs: seq<Retrigger>, from: nat, ask: nat -> RetriggerAnswers, testing: bool,
                          outcomes: seq<RetriggerOutcome>, calls: seq<Call>)
    requires xs != [] && RetriggerStep(era, rows, xs[0], ask(from), testing).outcome.Aborted?
    ensures var s := RetriggerStep(era, rows, xs[0], ask(from), testing);
      Glue(outcomes, calls, RunRetriggers(era, rows, xs, from, ask, testing)) ==
      RetriggerRun(outcomes + [s.outcome], calls + s.calls, s.rows)
  {
    var s := RetriggerStep(era, rows, xs[0], ask(from), testing);
    assert RunRetriggers(era, rows, xs, from, ask, testing) == RetriggerRun([s.outcome], s.calls, s.rows);
  }

  /** Any other attempt is followed by the rest of the loop. */
  lemma RunRetriggersGoOn(era: LoopEra, rows: seq<Row>, xs: seq<Retrigger>, from: nat, ask: nat -> RetriggerAnswers, testing: bool,
                          outcomes: seq<RetriggerOutcome>, calls: seq<Call>)
    requires xs != [] && !RetriggerStep(era, rows, xs[0], ask(from), testing).outcome.Aborted?
    ensures var s := RetriggerStep(era, rows, xs[0], ask(from), testing);
      Glue(outcomes, calls, RunRetriggers(era, rows, xs, from, ask, testing)) ==
      Glue(outcomes + [s.outcome], calls + s.calls, RunRetriggers(era, s.rows, xs[1..], from + 1, ask, testing))
  {
    var s := RetriggerStep(era, rows, xs[0], ask(from), testing);
    var rest := RunRetriggers(era, s.rows, xs[1..], from + 1, ask, testing);
    assert RunRetriggers(era, rows, xs, from, ask, testing) == Chain(s.outcome, s.calls, rest);
    GlueChain(outcomes, calls, s.outcome, s.calls, rest);
  }

  lemma GlueChain(outcomes: seq<RetriggerOutcome>, calls: seq<Call>, o: RetriggerOutcome, cs: seq<Call>, rest: RetriggerRun)
    ensures Glue(outcomes, calls, Chain(o, cs, rest)) == Glue(outcomes + [o], calls + cs, rest)
  {
    assert outcomes + ([o] + rest.outcomes) == (outcomes + [o]) + rest.outcomes;
    assert calls + (cs + rest.calls) == (calls + cs) + rest.calls;
  }

  /** The `i`-th attempt of the loop, and what the loop does after it. */
  method RetriggerAt(era: LoopEra, log: TriggerLogFile, xs: seq<Retrigger>, i: nat, ask: nat -> RetriggerAnswers, testing: bool,
                     ghost outcomes: seq<RetriggerOutcome>, ghost calls: seq<Call>)
    returns (o: RetriggerOutcome, cs: seq<Call>)
    requires log.Valid() && i < |xs|
    modifies log
    ensures log.Valid()
    ensures o.Aborted? ==> (Glue(outcomes, calls, RunRetriggers(era, old(log.rows), xs[i..], i, ask, testing))
      == RetriggerRun(outcomes + [o], calls + cs, log.rows))
    ensures !o.Aborted? ==> (Glue(outcomes, calls, RunRetriggers(era, old(log.rows), xs[i..], i, ask, testing))
      == Glue(outcomes + [o], calls + cs, RunRetriggers(era, log.rows, xs[i + 1..], i + 1, ask, testing)))
  {
    ghost var tail := xs[i..];
    assert tail[0] == xs[i] && tail[1..] == xs[i + 1..];
    o, cs := RetriggerOne(era, log, xs[i], ask(i), testing);
    if o.Aborted? {
      RunRetriggersStop(era, old(log.rows), tail, i, ask, testing, outcomes, calls);
    } else {
      RunRetriggersGoOn(era, old(log.rows), tail, i, ask, testing, outcomes, calls);
    }
  }

  /** `for x in new_triggers`, the `i`-th attempt answered by `ask(i)`. */
  method RunRetriggerLoop(era: LoopEra, log: TriggerLogFile, xs: seq<Retrigger>, ask: nat -> RetriggerAnswers, testing: bool)
    returns (outcomes: seq<RetriggerOutcome>, calls: seq<Call>)
    requires log.Valid()
    modifies log
    ensures log.Valid()
    ensures RetriggerRun(outcomes, calls, log.rows) == RunRetriggers(era, old(log.rows), xs, 0, ask, testing)
  {
    outcomes, calls := [], [];
    var i := 0;
    assert xs[0..] == xs;
    while i < |xs|
      invariant 0 <= i <= |xs| && |outcomes| == i
      invariant log.Valid()
      invariant RunRetriggers(era, old(log.rows), xs, 0, ask, testing) == Glue(outcomes, calls, RunRetriggers(era, log.rows, xs[i..], i, ask, testing))
    {
      var o, cs := RetriggerAt(era, log, xs, i, ask, testing, outcomes, calls);
      outcomes, calls := outcomes + [o], calls + cs;
      if o.Aborted? {
        return;
      }
      i := i + 1;
    }
    assert xs[i..] == [];
    assert outcomes + [] == outcomes && calls + [] == calls;
  }

  /** cadence.py from the pending pass to the end of the trigger loop. */
  method RunCadence(log: TriggerLogFile, c: Clock, matches: PendingEntry -> int, today: real,
                    ask: nat -> RetriggerAnswers, testing: bool)
    returns (triggers: seq<Retrigger>, outcomes: seq<RetriggerOutcome>, calls: seq<Call>, crash: Option<Raised>)
    requires log.Valid()
    modifies log
    ensures log.Valid()
    ensures CadenceResult(triggers, outcomes, calls, log.rows, crash) == CadenceRun(old(log.rows), c, matches, today, ask, testing)
  {
    triggers, outcomes, calls := [], [], [];
    var retry;
    retry, crash := ParsePendingObservations(log, c, matches);
    if crash.Some? {
      return;
    }
    var followup := TriggerOnCadenceRows(log.rows, today, c);
    if followup.Err? {
      crash := Some(followup.error);
      return;
    }
    triggers := followup.value + retry;
    outcomes, calls := RunRetriggerLoop(CurrentLoop, log, triggers, ask, testing);
    if outcomes != [] && outcomes[|outcomes| - 1].Aborted? {
      crash := Some(outcomes[|outcomes| - 1].error);
    }
  }
}
