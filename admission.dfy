/**
 * The per-message gate sequence of the BBH trigger bot (trigger.py) and of
 * its two predecessors (TriggerBot/bot/main.py and trigger/main.py). One
 * parsed alert, the answers of the outside services and the trigger log
 * become an outcome, the requests the bot sends, and the new log.
 *
 * Each variant has a specification function (`Admit`, `AdmitLegacy`,
 * `AdmitOldest`) and a method that runs the polling loops and edits a
 * `TriggerLogFile` step by step, proved equal to it.
 */
module Admission {
  import opened Wrappers
  import opened PyText
  import CivilDates
  import opened TriggerLog
  import opened PlanUtils
  import opened GcnParams

  /** One `query_mchirp_gracedb` attempt: an HTTPError, no chirp-mass file, or the most probable bin's left edge. */
  datatype ChirpPoll = ChirpHttpError | ChirpMissing | ChirpFound(mchirp: real)

  /**
   * What the outside services answer while one message is processed, in
   * the order the bot asks: GraceDB's chirp mass once a minute, the MLP mass
   * estimate, Fritz's GCN event (gcn id, localization id) every 30 s, the
   * plan start `submit_plan` derives from the plan window, the plan-request
   * listings (None when Fritz does not answer 200), the Kowalski queue
   * names, `check_before_sunset`, the current MJD, the skymap tiling and the
   * fields observed in the three nights before the event, the executed
   * observations the older bots count, and whether the delete and trigger
   * requests succeed.
   */
  datatype Answers = Answers(
    chirpPolls: seq<ChirpPoll>,
    mlpMass: real,
    fritzPolls: seq<Option<(int, int)>>,
    planStart: string,
    planPolls: seq<Option<seq<PlanRequest>>>,
    queueNames: Option<seq<string>>,
    beforeSunset: bool,
    nowMjd: real,
    tiling: Option<seq<SkymapField>>,
    observed: seq<int>,
    recentMatches: int,
    deleteOk: bool,
    triggerOk: bool)

  /** A request the bot sends: a plan request, a delete or a trigger of a queued plan, an email. */
  datatype Call = SubmitPlan(queueName: string) | DeletePlan(planId: int) | TriggerPlan(planId: int) | Email(message: string)

  /** Why a message was skipped: the `MyException` raised, or (trigger/main.py) any other exception caught. */
  datatype Gate =
    | ParamsRejected
    | InitialCriteria
    | MassCriteria
    | NoGcnEvent
    | NoPlan
    | PreviousTrigger
    | PlanCriteria
    | TooOld
    | TooLateToUpdate
    | DeleteFailed
    | TriggerFailed
    | PlanRemoved
    | TestingMode
    | RecentCoverage
    | Caught(error: Raised)

  /**
   * Skipped: a gate raised `MyException`; `retracted` when the event's valid
   * flag was set False and its queued plan deleted first. Triggered and
   * Serendipitous append a row. Crashed: any other exception escaped the
   * message's `try`, ending the pass over the batch.
   */
  datatype Outcome = Skipped(gate: Gate, retracted: bool) | Triggered | Serendipitous | Crashed(error: Raised)

  predicate Committed(o: Outcome)
  {
    o.Triggered? || o.Serendipitous?
  }

  datatype Decision = Decision(outcome: Outcome, calls: seq<Call>, rows: seq<Row>)

  /** What `check_triggered_csv` found: no pending trigger, or the id of the queued plan. */
  datatype TriggerState = NotTriggered | TriggeredPlan(planId: int)

  const ChirpFloor: real := 22.0
  const MassFloor: real := 60.0
  const MaxTotalTime: real := 5400.0
  const MinProbability: real := 0.5
  const CoverageShare: real := 0.9

  // ---------------------------------------------------------------------
  // Shared pieces

  /** `check_triggered_csv` of trigger_utils read as a trigger state. */
  function LogState(rows: seq<Row>, id: string): (r: Result<TriggerState>)
    ensures r.Err? <==> CheckTriggered(rows, id).Err?
    ensures r.Ok? ==> (r.value.TriggeredPlan? <==> HasPending(rows, id))
    ensures forall p :: r == Ok(TriggeredPlan(p)) <==> CheckTriggered(rows, id) == Ok((true, Some(p)))
  {
    match CheckTriggered(rows, id)
    case Err(e) => Err(e)
    case Ok(c) => if c.0 then Ok(TriggeredPlan(c.1.value)) else Ok(NotTriggered)
  }

  /** `check_triggered_csv` of TriggerBot read as a trigger state. */
  function LogStateTriggerBot(rows: seq<Row>, id: string): (r: Result<TriggerState>)
    ensures r.Err? <==> exists k :: 0 <= k < |rows| && rows[k].supereventId == id
    ensures r.Ok? ==> r.value == NotTriggered
  {
    match CheckTriggeredTriggerBot(rows, id)
    case Err(e) => Err(e)
    case Ok(_) => Ok(NotTriggered)
  }

  /** `update_trigger_log(id, "valid", False)`: every row of the event reads back "False". */
  function Invalidated(rows: seq<Row>, id: string): (r: seq<Row>)
    ensures |r| == |rows|
    ensures forall k :: 0 <= k < |rows| ==>
      r[k] == if rows[k].supereventId == id then rows[k].(valid := Some("False")) else rows[k]
  {
    SetWhere(rows, id, ValidFlag, Some("False"))
  }

  /** The invalidation is what both versions of `update_trigger_log` write. */
  lemma InvalidatedIsUpdate(rows: seq<Row>, id: string)
    ensures UpdatedRows(rows, id, ValidFlag, "False", Overwrite) == Ok(Invalidated(rows, id))
    ensures UpdatedRowsTriggerBot(rows, id, ValidFlag, "False") == Invalidated(rows, id)
  {
  }

  /** A gate fails: an existing trigger is invalidated and its plan deleted before the skip. */
  function Reject(rows: seq<Row>, id: string, st: TriggerState, gate: Gate, calls: seq<Call>): (d: Decision)
    ensures d.outcome == Skipped(gate, st.TriggeredPlan?)
  {
    match st
    case NotTriggered => Decision(Skipped(gate, false), calls, rows)
    case TriggeredPlan(p) => Decision(Skipped(gate, true), calls + [DeletePlan(p)], Invalidated(rows, id))
  }

  function Stop(gate: Gate, calls: seq<Call>, rows: seq<Row>): Decision
  {
    Decision(Skipped(gate, false), calls, rows)
  }

  function Crash(e: Raised, calls: seq<Call>, rows: seq<Row>): Decision
  {
    Decision(Crashed(e), calls, rows)
  }

  /** `if mchirp and mchirp < 22`: a chirp mass of exactly 0.0 is falsy and passes. */
  predicate ChirpRejects(m: real)
  {
    m != 0.0 && m < ChirpFloor
  }

  /** The chirp-mass polling loop: it stops at the first answer that is not None. */
  function FirstChirp(polls: seq<ChirpPoll>): (r: Option<real>)
    ensures r.None? <==> forall k :: 0 <= k < |polls| ==> !polls[k].ChirpFound?
    ensures r.Some? ==> exists k :: 0 <= k < |polls| && polls[k] == ChirpFound(r.value)
  {
    if |polls| == 0 then None
    else if polls[0].ChirpFound? then Some(polls[0].mchirp)
    else
      var rest := FirstChirp(polls[1..]);
      assert forall k :: 1 <= k < |polls| ==> polls[k] == polls[1..][k - 1];
      rest
  }

  /**
   * The Fritz polling loop. `query_fritz_gcn_events` returns None on any
   * failure, and unpacking None raises `TypeError` before the loop can ask
   * again, so the first answer decides.
   */
  function FritzLookup(polls: seq<Option<(int, int)>>): (r: Result<Option<(int, int)>>)
    ensures r == Ok(None) <==> |polls| == 0
    ensures r.Err? <==> |polls| > 0 && polls[0].None?
    ensures r.Err? ==> r.error == TypeError
    ensures r.Ok? && r.value.Some? ==> r.value == polls[0]
  {
    if |polls| == 0 then Ok(None)
    else if polls[0].None? then Err(TypeError)
    else Ok(polls[0])
  }

  /** Which `get_plan_stats` a bot calls. */
  datatype StatsReader = CurrentStats | TriggerBotStats

  function ReadStats(reader: StatsReader, response: Option<seq<PlanRequest>>, queueName: string): Result<Option<PlanSummary>>
  {
    match reader
    case CurrentStats => GetPlanStats(response, queueName)
    case TriggerBotStats => GetPlanStatsTriggerBot(response, queueName)
  }

  /** The plan polling loop: it stops at the first summary or the first exception. */
  function PollPlan(reader: StatsReader, polls: seq<Option<seq<PlanRequest>>>, queueName: string): (r: Result<Option<PlanSummary>>)
    ensures r == Ok(None) <==> forall k :: 0 <= k < |polls| ==> ReadStats(reader, polls[k], queueName) == Ok(None)
    ensures r != Ok(None) ==> exists k :: 0 <= k < |polls| && ReadStats(reader, polls[k], queueName) == r
  {
    if |polls| == 0 then Ok(None)
    else
      match ReadStats(reader, polls[0], queueName)
      case Err(e) => Err(e)
      case Ok(None) =>
        var rest := PollPlan(reader, polls[1..], queueName);
        assert forall k :: 1 <= k < |polls| ==> polls[k] == polls[1..][k - 1];
        rest
      case Ok(Some(st)) => Ok(Some(st))
  }

  /** The plan gate: too long to observe, or too little probability covered. */
  predicate FailsPlanCriteria(p: PlanSummary)
  {
    p.totalTime > MaxTotalTime || p.probability < MinProbability
  }

  /** The age gate: the integer MJD is more than a day before now. */
  predicate TooOldAt(a: Alert, nowMjd: real)
  {
    nowMjd - a.mjd as real > 1.0
  }

  function Keywords(a: Alert, gcnEventId: int): seq<Keyword>
  {
    [Text(a.dateobs), Text(a.supereventId), Number(gcnEventId)]
  }

  /** `kowalski_event_status` is truthy; in testing mode the queue is not asked. */
  function QueueShowsEvent(a: Alert, gcnEventId: int, names: Option<seq<string>>, testing: bool): (r: Result<bool>)
    ensures testing ==> r == Ok(false)
    ensures !testing && names.None? ==> r == Err(GeneralException)
  {
    if testing then Ok(false)
    else match QueryQueue(names, Some(Keywords(a, gcnEventId)))
      case Err(e) => Err(e)
      case Ok(ans) => Ok(ans.AlreadySubmitted? || (ans.QueueNames? && |ans.names| > 0))
  }

  /** The same, with TriggerBot's keyword search. */
  function QueueShowsEventTriggerBot(a: Alert, gcnEventId: int, names: Option<seq<string>>, testing: bool): (r: Result<bool>)
    ensures testing ==> r == Ok(false)
    ensures !testing && names.None? ==> r == Err(GeneralException)
  {
    if testing then Ok(false)
    else match QueryQueueTriggerBot(names, Keywords(a, gcnEventId))
      case Err(e) => Err(e)
      case Ok(ans) => Ok(ans.AlreadySubmitted?)
  }

  /** `SkymapCoverage(...).get_coverage_fraction()` over the service answers. */
  function Coverage(s: Answers): Result<real>
  {
    SkymapCoverage(s.tiling, s.observed)
  }

  /** `generate_cadence_dates(dateobs)`: a bad timestamp raises `ValueError`, a date past 9999 `OverflowError`. */
  function CadenceFor(dateobs: string): (r: Result<seq<string>>)
    ensures r.Ok? <==> CivilDates.GenerateCadenceDates(dateobs).Some?
    ensures r.Ok? ==> r.value == CivilDates.GenerateCadenceDates(dateobs).value
    ensures r.Err? ==> r.error == ValueError || r.error == OverflowError
  {
    match CivilDates.ParseSeconds(dateobs)
    case None => Err(ValueError)
    case Some(t) =>
      match CivilDates.CadenceFrom(t.date)
      case None => Err(OverflowError)
      case Some(ds) => Ok(ds)
  }

  /** The plan a summary describes, as the pending cell records it. */
  function QueuedOf(p: PlanSummary): QueuedPlan
  {
    QueuedPlan(p.planId, p.startObservation)
  }

  /**
   * The row `add_triggercsv` appends for a decision of trigger.py: the plan
   * goes to pending_observation, or, with serendipitous coverage, to
   * serendipitous_observation as the tuple text. The pending cell holds the
   * corrected "(id,start)" text, not the `str((plan_id, start))` text
   * trigger.py writes, which the cadence check cannot read back
   * (`TriggerLog.TupleStartUnreadable`).
   */
  function LoggedRow(a: Alert, ev: (int, int), p: PlanSummary, cadence: seq<string>, serendipitous: bool): (r: Row)
    ensures NormalRow(r) && r.supereventId == a.supereventId && r.valid == Some("True")
    ensures r.triggerCadence == Some(ListRepr(cadence))
    ensures serendipitous ==> r.pending.None? && r.serendipitous == Some(TupleText(QueuedOf(p)))
    ensures !serendipitous ==> r.pending == Some(PlanText(QueuedOf(p))) && r.serendipitous.None?
  {
    NewRow(a.supereventId, a.dateobs, PairText(a.alertType, a.skymapName), ev.0, ev.1, cadence,
      if serendipitous then None else Some(PlanText(QueuedOf(p))),
      if serendipitous then Some(TupleText(QueuedOf(p))) else None, true)
  }

  /**
   * The row TriggerBot's `add_triggercsv` appends; there is no serendipitous
   * case. As in `LoggedRow` the pending cell is the corrected "(id,start)" text.
   */
  function LoggedRowTriggerBot(a: Alert, ev: (int, int), p: PlanSummary, cadence: seq<string>): (r: Row)
    ensures NormalRow(r) && r.supereventId == a.supereventId && r.valid == Some("True")
    ensures r.triggerCadence == Some(ListRepr(cadence))
    ensures r.pending == Some(PlanText(QueuedOf(p))) && r.serendipitous.None?
  {
    NewRowTriggerBot(a.supereventId, a.dateobs, PairText(a.alertType, a.skymapName), ev.0, ev.1,
      Some(PlanText(QueuedOf(p))), cadence, true)
  }

  function TriggerMessage(id: string): string
  {
    "ZTF Triggered for " + id
  }

  function SerendipitousMessage(id: string): string
  {
    "Skipped ZTF triggered for " + id + " due to serendipitous coverage"
  }

  /**
   * The log edits a decision may make: none; setting the event's valid flag
   * to False when it retracts; or appending one valid row of the event.
   */
  predicate LogEditFits(rows: seq<Row>, id: string, d: Decision)
  {
    (d.outcome.Crashed? ==> d.rows == rows)
    && (d.outcome.Skipped? ==> d.rows == if d.outcome.retracted then Invalidated(rows, id) else rows)
    && (Committed(d.outcome) ==>
          |d.rows| == |rows| + 1 && d.rows[..|rows|] == rows
          && d.rows[|rows|].supereventId == id && d.rows[|rows|].valid == Some("True"))
  }

  /** No trigger request was sent. */
  predicate NoTrigger(calls: seq<Call>)
  {
    forall k :: 0 <= k < |calls| ==> !calls[k].TriggerPlan?
  }

  // ---------------------------------------------------------------------
  // trigger.py

  /** trigger.py, lines 100-373, for one message whose value is not None. */
  function Admit(rows: seq<Row>, raw: RawAlert, s: Answers, testing: bool): (r: Decision)
    ensures GetParams(raw).Err? ==> r.rows == rows && r.calls == []
    ensures GetParams(raw).Ok? ==> LogEditFits(rows, GetParams(raw).value.supereventId, r)
    ensures r.outcome.Skipped? && r.outcome.retracted ==>
      r.outcome.gate in {InitialCriteria, MassCriteria, PlanCriteria}
      && GetParams(raw).Ok? && HasPending(rows, GetParams(raw).value.supereventId)
    ensures GetParams(raw).Ok? && LogState(rows, GetParams(raw).value.supereventId).Ok?
            && FirstGate(GetParams(raw).value) == Ok(true) ==>
      r.outcome == Skipped(InitialCriteria, HasPending(rows, GetParams(raw).value.supereventId))
    ensures Committed(r.outcome) || !NoTrigger(r.calls) ==> AdmitPassed(rows, raw, s)
  {
    match GetParams(raw)
    case Err(e) => Decision(if e == MyException then Skipped(ParamsRejected, false) else Crashed(e), [], rows)
    case Ok(a) =>
      match LogState(rows, a.supereventId)
      case Err(e) => Crash(e, [], rows)
      case Ok(st) => AdmitGated(rows, a, st, s, testing)
  }

  /**
   * Every gate before coverage passed: the alert's thresholds, the chirp
   * mass, a Fritz event, a plan meeting the plan criteria, an age of at most
   * a day, and no submission by anyone else.
   */
  ghost predicate AdmitPassed(rows: seq<Row>, raw: RawAlert, s: Answers)
  {
    GetParams(raw).Ok?
    && var a := GetParams(raw).value;
    LogState(rows, a.supereventId).Ok?
    && FirstGate(a) == Ok(false)
    && FirstChirp(s.chirpPolls).Some? && !ChirpRejects(FirstChirp(s.chirpPolls).value)
    && FritzLookup(s.fritzPolls).Ok? && FritzLookup(s.fritzPolls).value.Some?
    && var plan := PollPlan(CurrentStats, s.planPolls, QueueName(a.supereventId, s.planStart));
    plan.Ok? && plan.value.Some?
    && !FailsPlanCriteria(plan.value.value)
    && !TooOldAt(a, s.nowMjd)
    && (LogState(rows, a.supereventId).value.NotTriggered? ==> !plan.value.value.pastSubmission)
  }

  /** From the first gate to the mass gates (trigger.py:122-198). */
  function AdmitGated(rows: seq<Row>, a: Alert, st: TriggerState, s: Answers, testing: bool): (r: Decision)
    ensures LogEditFits(rows, a.supereventId, r)
    ensures r.outcome.Skipped? && r.outcome.retracted ==>
      st.TriggeredPlan? && r.outcome.gate in {InitialCriteria, MassCriteria, PlanCriteria}
    ensures FirstGate(a) == Ok(true) ==> r.outcome == Skipped(InitialCriteria, st.TriggeredPlan?)
    ensures FirstGate(a) == Ok(false) && FirstChirp(s.chirpPolls).None? ==>
      r.outcome == Skipped(MassCriteria, st.TriggeredPlan? && s.mlpMass < MassFloor)
    ensures FirstGate(a) == Ok(false) && FirstChirp(s.chirpPolls).Some? && ChirpRejects(FirstChirp(s.chirpPolls).value) ==>
      r.outcome == Skipped(MassCriteria, st.TriggeredPlan?)
    ensures (r.outcome.Skipped? && r.outcome.gate == MassCriteria) ==>
      FirstChirp(s.chirpPolls) != Some(0.0)
    ensures Committed(r.outcome) || !NoTrigger(r.calls) ==>
      FirstGate(a) == Ok(false) && FirstChirp(s.chirpPolls).Some? && !ChirpRejects(FirstChirp(s.chirpPolls).value)
      && LocatedPassed(a, st, s)
    ensures st.TriggeredPlan? && Committed(r.outcome) ==> ReplacedBeforeSunset(a, st, s, r)
  {
    match FirstGate(a)
    case Err(e) => Crash(e, [], rows)
    case Ok(fails) =>
      if fails then Reject(rows, a.supereventId, st, InitialCriteria, [])
      else match FirstChirp(s.chirpPolls)
        case Some(m) =>
          if ChirpRejects(m) then Reject(rows, a.supereventId, st, MassCriteria, [])
          else AdmitLocated(rows, a, st, s, testing)
        case None =>
          if s.mlpMass < MassFloor then Reject(rows, a.supereventId, st, MassCriteria, [])
          else Stop(MassCriteria, [], rows)
  }

  /** The gates from the Fritz lookup on passed, as `AdmitPassed` lists them. */
  ghost predicate LocatedPassed(a: Alert, st: TriggerState, s: Answers)
  {
    FritzLookup(s.fritzPolls).Ok? && FritzLookup(s.fritzPolls).value.Some?
    && var plan := PollPlan(CurrentStats, s.planPolls, QueueName(a.supereventId, s.planStart));
    plan.Ok? && plan.value.Some?
    && !FailsPlanCriteria(plan.value.value)
    && !TooOldAt(a, s.nowMjd)
    && (st.NotTriggered? ==> !plan.value.value.pastSubmission)
  }

  /**
   * A replacement: the check before sunset held, and the requests began with
   * the plan request and the delete of the old plan, before any trigger.
   */
  predicate ReplacedBeforeSunset(a: Alert, st: TriggerState, s: Answers, r: Decision)
    requires st.TriggeredPlan?
  {
    s.beforeSunset && |r.calls| >= 2
    && r.calls[..2] == [SubmitPlan(QueueName(a.supereventId, s.planStart)), DeletePlan(st.planId)]
  }

  /** From the Fritz lookup to the plan gates (trigger.py:200-303). */
  function AdmitLocated(rows: seq<Row>, a: Alert, st: TriggerState, s: Answers, testing: bool): (r: Decision)
    ensures LogEditFits(rows, a.supereventId, r)
    ensures r.outcome.Skipped? && r.outcome.retracted ==> st.TriggeredPlan? && r.outcome.gate == PlanCriteria
    ensures r.outcome.Skipped? ==> r.outcome.gate != MassCriteria
    ensures Committed(r.outcome) || !NoTrigger(r.calls) ==> LocatedPassed(a, st, s)
    ensures st.TriggeredPlan? && Committed(r.outcome) ==> ReplacedBeforeSunset(a, st, s, r)
  {
    match FritzLookup(s.fritzPolls)
    case Err(e) => Crash(e, [], rows)
    case Ok(None) => Stop(NoGcnEvent, [], rows)
    case Ok(Some(ev)) =>
      var q := QueueName(a.supereventId, s.planStart);
      var plan := PollPlan(CurrentStats, s.planPolls, q);
      var r := AdmitPlanned(rows, a, st, s, testing, ev, [SubmitPlan(q)], plan);
      assert Committed(r.outcome) || !NoTrigger(r.calls) ==> LocatedPassed(a, st, s);
      assert st.TriggeredPlan? && (Committed(r.outcome) || !NoTrigger(r.calls)) ==>
        r.calls[..2] == [SubmitPlan(q), DeletePlan(st.planId)];
      r
  }

  /** From the plan stats to the re-trigger branch (trigger.py:239-303). */
  function AdmitPlanned(rows: seq<Row>, a: Alert, st: TriggerState, s: Answers, testing: bool, ev: (int, int),
                        calls: seq<Call>, plan: Result<Option<PlanSummary>>): (r: Decision)
    requires NoTrigger(calls)
    ensures LogEditFits(rows, a.supereventId, r)
    ensures r.outcome.Skipped? && r.outcome.retracted ==> st.TriggeredPlan? && r.outcome.gate == PlanCriteria
    ensures r.outcome.Skipped? ==> r.outcome.gate != MassCriteria
    ensures Committed(r.outcome) || !NoTrigger(r.calls) ==>
      plan.Ok? && plan.value.Some? && !FailsPlanCriteria(plan.value.value) && !TooOldAt(a, s.nowMjd)
      && (st.NotTriggered? ==> !plan.value.value.pastSubmission)
    ensures |r.calls| >= |calls| && r.calls[..|calls|] == calls
    ensures st.TriggeredPlan? && (Committed(r.outcome) || !NoTrigger(r.calls)) ==>
      s.beforeSunset && |r.calls| > |calls| && r.calls[|calls|] == DeletePlan(st.planId)
  {
    match plan
    case Err(e) => Crash(e, calls, rows)
    case Ok(None) => Stop(NoPlan, calls, rows)
    case Ok(Some(p)) =>
      var r := PlanGates(rows, a, st, s, testing, ev, calls, p);
      assert PlannedFits(rows, a, st, s, calls, p, r);
      r
  }

  /** What the plan gates and the re-trigger branch promise for a plan `p`. */
  predicate PlannedFits(rows: seq<Row>, a: Alert, st: TriggerState, s: Answers, calls: seq<Call>, p: PlanSummary, r: Decision)
  {
    LogEditFits(rows, a.supereventId, r)
    && (r.outcome.Skipped? && r.outcome.retracted ==> st.TriggeredPlan? && r.outcome.gate == PlanCriteria)
    && (r.outcome.Skipped? ==> r.outcome.gate != MassCriteria)
    && (Committed(r.outcome) || !NoTrigger(r.calls) ==>
          !FailsPlanCriteria(p) && !TooOldAt(a, s.nowMjd) && (st.NotTriggered? ==> !p.pastSubmission))
    && |r.calls| >= |calls| && r.calls[..|calls|] == calls
    && (st.TriggeredPlan? && (Committed(r.outcome) || !NoTrigger(r.calls)) ==>
          s.beforeSunset && |r.calls| > |calls| && r.calls[|calls|] == DeletePlan(st.planId))
  }

  /** The queue lookup, then the plan gates (trigger.py:255-303). */
  function PlanGates(rows: seq<Row>, a: Alert, st: TriggerState, s: Answers, testing: bool, ev: (int, int),
                     calls: seq<Call>, p: PlanSummary): (r: Decision)
    requires NoTrigger(calls)
    ensures PlannedFits(rows, a, st, s, calls, p, r)
  {
    match QueueShowsEvent(a, ev.0, s.queueNames, testing)
    case Err(e) => Crash(e, calls, rows)
    case Ok(inQueue) =>
      if (p.pastSubmission || inQueue) && st.NotTriggered? then Stop(PreviousTrigger, calls, rows)
      else if FailsPlanCriteria(p) then
        var r := Reject(rows, a.supereventId, st, PlanCriteria, calls);
        RejectFits(rows, a.supereventId, st, PlanCriteria, calls);
        r
      else if TooOldAt(a, s.nowMjd) then Stop(TooOld, calls, rows)
      else match st
        case NotTriggered => AdmitCovered(rows, a, s, testing, ev, p, calls)
        case TriggeredPlan(previous) => Replace(rows, a, s, testing, ev, calls, p, previous)
  }

  /** A rejection after requests `calls`: the old plan deleted and the event invalidated, if any. */
  lemma RejectFits(rows: seq<Row>, id: string, st: TriggerState, gate: Gate, calls: seq<Call>)
    requires NoTrigger(calls)
    ensures var r := Reject(rows, id, st, gate, calls);
      LogEditFits(rows, id, r) && NoTrigger(r.calls) && |r.calls| >= |calls| && r.calls[..|calls|] == calls
  {
    var r := Reject(rows, id, st, gate, calls);
    if st.TriggeredPlan? {
      assert r.calls == calls + [DeletePlan(st.planId)];
      assert r.calls[..|calls|] == calls;
    } else {
      assert r.calls[..|calls|] == calls;
    }
  }

  /** Replacing a queued plan: only before sunset, and only once its delete succeeded (trigger.py:282-303). */
  function Replace(rows: seq<Row>, a: Alert, s: Answers, testing: bool, ev: (int, int),
                   calls: seq<Call>, p: PlanSummary, previous: int): (r: Decision)
    requires NoTrigger(calls)
    requires !FailsPlanCriteria(p) && !TooOldAt(a, s.nowMjd)
    ensures PlannedFits(rows, a, TriggeredPlan(previous), s, calls, p, r)
  {
    var deleted := calls + [DeletePlan(previous)];
    assert deleted[..|calls|] == calls && deleted[|calls|] == DeletePlan(previous);
    assert NoTrigger(deleted);
    if !s.beforeSunset then Stop(TooLateToUpdate, calls, rows)
    else if !s.deleteOk then Stop(DeleteFailed, deleted, rows)
    else
      var r := AdmitCovered(rows, a, s, testing, ev, p, deleted);
      assert r.calls[..|calls|] == r.calls[..|deleted|][..|calls|];
      assert r.calls[|calls|] == r.calls[..|deleted|][|calls|];
      r
  }

  /** From the coverage check to the log commit and email (trigger.py:305-361). */
  function AdmitCovered(rows: seq<Row>, a: Alert, s: Answers, testing: bool, ev: (int, int), p: PlanSummary,
                        calls: seq<Call>): (r: Decision)
    requires NoTrigger(calls)
    ensures LogEditFits(rows, a.supereventId, r)
    ensures r.outcome.Skipped? ==> r.outcome == Skipped(TriggerFailed, false)
    ensures |r.calls| >= |calls| && r.calls[..|calls|] == calls
    ensures !NoTrigger(r.calls) ==>
      Coverage(s).Ok? && Coverage(s).value < CoverageShare * p.probability && !testing
      && r.calls[|calls|] == TriggerPlan(p.planId)
    ensures Committed(r.outcome) ==>
      CivilDates.GenerateCadenceDates(a.dateobs).Some? && Coverage(s).Ok?
      && (r.outcome.Serendipitous? <==> Coverage(s).value >= CoverageShare * p.probability)
      && r.rows[|rows|] == LoggedRow(a, ev, p, CivilDates.GenerateCadenceDates(a.dateobs).value, r.outcome.Serendipitous?)
    ensures r.outcome.Serendipitous? ==> NoTrigger(r.calls)
    ensures r.outcome.Triggered? ==> (NoTrigger(r.calls) <==> testing)
  {
    match Coverage(s)
    case Err(e) => Crash(e, calls, rows)
    case Ok(frac) => CoveredAt(rows, a, testing, s.triggerOk, ev, p, calls, frac >= CoverageShare * p.probability)
  }

  /** The decision once the coverage is known: serendipitous or not (trigger.py:313-361). */
  function CoveredAt(rows: seq<Row>, a: Alert, testing: bool, triggerOk: bool, ev: (int, int), p: PlanSummary,
                     calls: seq<Call>, serendipitous: bool): (r: Decision)
    requires NoTrigger(calls)
    ensures LogEditFits(rows, a.supereventId, r)
    ensures r.outcome.Skipped? ==> r.outcome == Skipped(TriggerFailed, false)
    ensures |r.calls| >= |calls| && r.calls[..|calls|] == calls
    ensures !NoTrigger(r.calls) ==> !serendipitous && !testing && r.calls[|calls|] == TriggerPlan(p.planId)
    ensures Committed(r.outcome) ==>
      CadenceFor(a.dateobs).Ok? && (r.outcome.Serendipitous? <==> serendipitous)
      && r.rows[|rows|] == LoggedRow(a, ev, p, CadenceFor(a.dateobs).value, serendipitous)
    ensures r.outcome.Serendipitous? ==> NoTrigger(r.calls)
    ensures r.outcome.Triggered? ==> (NoTrigger(r.calls) <==> testing)
  {
    if !serendipitous && !testing && !triggerOk then TriggerRefused(rows, p, calls)
    else if serendipitous || testing then CommitCovered(rows, a, ev, p, calls, serendipitous)
    else CommitRequested(rows, a, ev, p, calls)
  }

  /** The trigger request failed: nothing is logged (trigger.py:324-331). */
  function TriggerRefused(rows: seq<Row>, p: PlanSummary, calls: seq<Call>): (r: Decision)
    ensures r.outcome == Skipped(TriggerFailed, false) && r.rows == rows
    ensures |r.calls| > |calls| && r.calls[..|calls|] == calls
    ensures !NoTrigger(r.calls) && r.calls[|calls|] == TriggerPlan(p.planId)
  {
    var requested := calls + [TriggerPlan(p.planId)];
    assert requested[..|calls|] == calls && requested[|calls|] == TriggerPlan(p.planId);
    Stop(TriggerFailed, requested, rows)
  }

  /** The trigger request sent, then the log row and the email. */
  function CommitRequested(rows: seq<Row>, a: Alert, ev: (int, int), p: PlanSummary, calls: seq<Call>): (r: Decision)
    ensures LogEditFits(rows, a.supereventId, r)
    ensures r.outcome.Crashed? || r.outcome == Triggered
    ensures |r.calls| > |calls| && r.calls[..|calls|] == calls && r.calls[|calls|] == TriggerPlan(p.planId)
    ensures !NoTrigger(r.calls)
    ensures Committed(r.outcome) ==>
      CadenceFor(a.dateobs).Ok? && r.rows[|rows|] == LoggedRow(a, ev, p, CadenceFor(a.dateobs).value, false)
  {
    var requested := calls + [TriggerPlan(p.planId)];
    assert requested[..|calls|] == calls && requested[|calls|] == TriggerPlan(p.planId);
    var r := CommitCovered(rows, a, ev, p, requested, false);
    assert r.calls[..|calls|] == r.calls[..|requested|][..|calls|];
    assert r.calls[|calls|] == r.calls[..|requested|][|calls|];
    r
  }

  /** The log row and the email after the requests `sent` (trigger.py:320-361). */
  function CommitCovered(rows: seq<Row>, a: Alert, ev: (int, int), p: PlanSummary,
                         sent: seq<Call>, serendipitous: bool): (r: Decision)
    ensures LogEditFits(rows, a.supereventId, r)
    ensures r.outcome.Crashed? || r.outcome == (if serendipitous then Serendipitous else Triggered)
    ensures |r.calls| >= |sent| && r.calls[..|sent|] == sent
    ensures NoTrigger(r.calls) <==> NoTrigger(sent)
    ensures Committed(r.outcome) ==>
      CadenceFor(a.dateobs).Ok? && r.rows[|rows|] == LoggedRow(a, ev, p, CadenceFor(a.dateobs).value, serendipitous)
  {
    var cadence := CadenceFor(a.dateobs);
    if cadence.Err? then
      assert sent[..|sent|] == sent;
      Crash(cadence.error, sent, rows)
    else
      var message := if serendipitous then SerendipitousMessage(a.supereventId) else TriggerMessage(a.supereventId);
      Logged(rows, LoggedRow(a, ev, p, cadence.value, serendipitous), sent, message, if serendipitous then Serendipitous else Triggered)
  }

  /** The outcome committed: the row appended, the requests sent and the email. */
  function Logged(rows: seq<Row>, row: Row, sent: seq<Call>, message: string, o: Outcome): (r: Decision)
    ensures r == Decision(o, sent + [Email(message)], rows + [row])
    ensures |r.rows| == |rows| + 1 && r.rows[..|rows|] == rows && r.rows[|rows|] == row
    ensures |r.calls| > |sent| && r.calls[..|sent|] == sent
    ensures NoTrigger(r.calls) <==> NoTrigger(sent)
  {
    var all := sent + [Email(message)];
    assert all[..|sent|] == sent;
    assert NoTrigger(all) <==> NoTrigger(sent);
    assert (rows + [row])[..|rows|] == rows;
    Decision(o, all, rows + [row])
  }

  // ---------------------------------------------------------------------
  // TriggerBot/bot/main.py and trigger/main.py

  /** Which of the two older bots: they share every gate up to the plan stats. */
  datatype Era = TriggerBotEra | OldestEra

  /**
   * Every gate of an older bot up to the re-trigger branch passed, with no
   * earlier submission by anyone seen on Fritz or in the ZTF queue.
   */
  ghost predicate LegacyPassed(raw: RawAlert, state: Result<TriggerState>, s: Answers, testing: bool)
  {
    GetParamsTriggerBot(raw).Ok? && state.Ok?
    && FirstGate(GetParamsTriggerBot(raw).value) == Ok(false) && s.mlpMass >= MassFloor
    && LegacyLocatedPassed(GetParamsTriggerBot(raw).value, s, testing)
  }

  /** The gates of an older bot from the Fritz lookup to the previous-trigger check passed. */
  ghost predicate LegacyLocatedPassed(a: Alert, s: Answers, testing: bool)
  {
    FritzLookup(s.fritzPolls).Ok? && FritzLookup(s.fritzPolls).value.Some?
    && var plan := PollPlan(TriggerBotStats, s.planPolls, QueueNameTriggerBot(a.supereventId, s.planStart));
    plan.Ok? && plan.value.Some?
    && !FailsPlanCriteria(plan.value.value) && !TooOldAt(a, s.nowMjd)
    && !plan.value.value.pastSubmission
    && QueueShowsEventTriggerBot(a, FritzLookup(s.fritzPolls).value.value.0, s.queueNames, testing) == Ok(false)
  }

  /** The plan an older bot's message reaches, when it reaches one. */
  function LegacyPlanId(a: Alert, s: Answers): int
    requires PollPlan(TriggerBotStats, s.planPolls, QueueNameTriggerBot(a.supereventId, s.planStart)).Ok?
    requires PollPlan(TriggerBotStats, s.planPolls, QueueNameTriggerBot(a.supereventId, s.planStart)).value.Some?
  {
    PollPlan(TriggerBotStats, s.planPolls, QueueNameTriggerBot(a.supereventId, s.planStart)).value.value.planId
  }

  /**
   * The gate sequence of both older bots. `state` is what their
   * `check_triggered_csv` returned (on TriggerBot's own log it is an error
   * for every logged event: `LogStateTriggerBot`). The mass gate uses only
   * the MLP estimate.
   */
  function AdmitLegacy(era: Era, rows: seq<Row>, raw: RawAlert, state: Result<TriggerState>, s: Answers,
                       testing: bool): (r: Decision)
    ensures GetParamsTriggerBot(raw).Err? ==> r == Stop(ParamsRejected, [], rows)
    ensures GetParamsTriggerBot(raw).Ok? ==> LogEditFits(rows, GetParamsTriggerBot(raw).value.supereventId, r)
    ensures GetParamsTriggerBot(raw).Ok? && state.Err? ==> r == Crash(state.error, [], rows)
    ensures r.outcome.Skipped? && r.outcome.retracted ==>
      r.outcome.gate in {InitialCriteria, MassCriteria, PlanCriteria} && state.Ok? && state.value.TriggeredPlan?
    ensures GetParamsTriggerBot(raw).Ok? && state.Ok? && FirstGate(GetParamsTriggerBot(raw).value) == Ok(false)
            && s.mlpMass < MassFloor ==>
      r.outcome == Skipped(MassCriteria, state.value.TriggeredPlan?)
    ensures Committed(r.outcome) ==> r.outcome == Triggered && !NoTrigger(r.calls)
    ensures Committed(r.outcome) || !NoTrigger(r.calls) ==>
      LegacyPassed(raw, state, s, testing) && !testing && s.recentMatches < 1
    ensures era == TriggerBotEra && state.Ok? && state.value.TriggeredPlan? ==> NoTrigger(r.calls) && !Committed(r.outcome)
    ensures r.outcome == Skipped(PlanRemoved, false) ==>
      era == TriggerBotEra && LegacyPassed(raw, state, s, testing) && state.value.TriggeredPlan? && s.beforeSunset
      && |r.calls| == 2 && r.calls[1] == DeletePlan(state.value.planId)
    ensures era == OldestEra && state.Ok? && state.value.TriggeredPlan? && (Committed(r.outcome) || !NoTrigger(r.calls)) ==>
      s.beforeSunset && |r.calls| >= 3
      && r.calls[..3] == [SubmitPlan(QueueNameTriggerBot(GetParamsTriggerBot(raw).value.supereventId, s.planStart)),
                          DeletePlan(state.value.planId),
                          TriggerPlan(LegacyPlanId(GetParamsTriggerBot(raw).value, s))]
  {
    match GetParamsTriggerBot(raw)
    case Err(_) => Stop(ParamsRejected, [], rows)
    case Ok(a) =>
      match state
      case Err(e) => Crash(e, [], rows)
      case Ok(st) => AdmitLegacyGated(era, rows, a, st, s, testing)
  }

  /** The initial and mass gates of the older bots, then the Fritz lookup. */
  function AdmitLegacyGated(era: Era, rows: seq<Row>, a: Alert, st: TriggerState, s: Answers, testing: bool): (r: Decision)
    ensures LogEditFits(rows, a.supereventId, r)
    ensures r.outcome.Skipped? && r.outcome.retracted ==>
      r.outcome.gate in {InitialCriteria, MassCriteria, PlanCriteria} && st.TriggeredPlan?
    ensures FirstGate(a) == Ok(false) && s.mlpMass < MassFloor ==> r.outcome == Skipped(MassCriteria, st.TriggeredPlan?)
    ensures Committed(r.outcome) ==> r.outcome == Triggered && !NoTrigger(r.calls)
    ensures Committed(r.outcome) || !NoTrigger(r.calls) ==>
      FirstGate(a) == Ok(false) && s.mlpMass >= MassFloor && LegacyLocatedPassed(a, s, testing)
      && !testing && s.recentMatches < 1
    ensures era == TriggerBotEra && st.TriggeredPlan? ==> NoTrigger(r.calls) && !Committed(r.outcome)
    ensures r.outcome == Skipped(PlanRemoved, false) ==>
      era == TriggerBotEra && FirstGate(a) == Ok(false) && s.mlpMass >= MassFloor && LegacyLocatedPassed(a, s, testing)
      && st.TriggeredPlan? && s.beforeSunset && |r.calls| == 2 && r.calls[1] == DeletePlan(st.planId)
    ensures era == OldestEra && st.TriggeredPlan? && (Committed(r.outcome) || !NoTrigger(r.calls)) ==>
      s.beforeSunset && |r.calls| >= 3
      && r.calls[..3] == [SubmitPlan(QueueNameTriggerBot(a.supereventId, s.planStart)), DeletePlan(st.planId),
                          TriggerPlan(LegacyPlanId(a, s))]
  {
    match FirstGate(a)
    case Err(e) => Crash(e, [], rows)
    case Ok(fails) =>
      if fails then Reject(rows, a.supereventId, st, InitialCriteria, [])
      else if s.mlpMass < MassFloor then Reject(rows, a.supereventId, st, MassCriteria, [])
      else AdmitLegacyLocated(era, rows, a, st, s, testing)
  }

  /** The Fritz lookup and the plan request of the older bots (TriggerBot/bot/main.py:105-134). */
  function AdmitLegacyLocated(era: Era, rows: seq<Row>, a: Alert, st: TriggerState, s: Answers, testing: bool): (r: Decision)
    ensures LogEditFits(rows, a.supereventId, r)
    ensures r.outcome.Skipped? && r.outcome.retracted ==> st.TriggeredPlan? && r.outcome.gate == PlanCriteria
    ensures Committed(r.outcome) ==> r.outcome == Triggered && !NoTrigger(r.calls)
    ensures Committed(r.outcome) || !NoTrigger(r.calls) ==>
      LegacyLocatedPassed(a, s, testing) && !testing && s.recentMatches < 1
    ensures era == TriggerBotEra && st.TriggeredPlan? ==> NoTrigger(r.calls) && !Committed(r.outcome)
    ensures r.outcome == Skipped(PlanRemoved, false) ==>
      era == TriggerBotEra && LegacyLocatedPassed(a, s, testing) && st.TriggeredPlan? && s.beforeSunset
      && |r.calls| == 2 && r.calls[1] == DeletePlan(st.planId)
    ensures era == OldestEra && st.TriggeredPlan? && (Committed(r.outcome) || !NoTrigger(r.calls)) ==>
      s.beforeSunset && |r.calls| >= 3
      && r.calls[..3] == [SubmitPlan(QueueNameTriggerBot(a.supereventId, s.planStart)), DeletePlan(st.planId),
                          TriggerPlan(LegacyPlanId(a, s))]
  {
    match FritzLookup(s.fritzPolls)
    case Err(e) => Crash(e, [], rows)
    case Ok(None) => Stop(NoGcnEvent, [], rows)
    case Ok(Some(ev)) =>
      var q := QueueNameTriggerBot(a.supereventId, s.planStart);
      var plan := PollPlan(TriggerBotStats, s.planPolls, q);
      var r := AdmitLegacyPlanned(era, rows, a, st, s, testing, ev, [SubmitPlan(q)], plan);
      if era == OldestEra && st.TriggeredPlan? && (Committed(r.outcome) || !NoTrigger(r.calls)) then
        assert LegacyPlanId(a, s) == plan.value.value.planId;
        ThreeCalls(r.calls, SubmitPlan(q), DeletePlan(st.planId), TriggerPlan(plan.value.value.planId));
        r
      else r
  }

  lemma ThreeCalls(xs: seq<Call>, x: Call, y: Call, z: Call)
    requires |xs| >= 3 && xs[..1] == [x] && xs[1..3] == [y, z]
    ensures xs[..3] == [x, y, z]
  {
    assert xs[0] == xs[..1][0] && xs[1] == xs[1..3][0] && xs[2] == xs[1..3][1];
  }

  /** The plan, age and previous-trigger gates, then each bot's own tail. */
  function AdmitLegacyPlanned(era: Era, rows: seq<Row>, a: Alert, st: TriggerState, s: Answers, testing: bool,
                              ev: (int, int), calls: seq<Call>, plan: Result<Option<PlanSummary>>): (r: Decision)
    requires NoTrigger(calls)
    ensures LogEditFits(rows, a.supereventId, r)
    ensures r.outcome.Skipped? && r.outcome.retracted ==> st.TriggeredPlan? && r.outcome.gate == PlanCriteria
    ensures |r.calls| >= |calls| && r.calls[..|calls|] == calls
    ensures Committed(r.outcome) ==> r.outcome == Triggered && !NoTrigger(r.calls)
    ensures Committed(r.outcome) || !NoTrigger(r.calls) || r.outcome == Skipped(PlanRemoved, false) ==>
      plan.Ok? && plan.value.Some? && !FailsPlanCriteria(plan.value.value) && !TooOldAt(a, s.nowMjd)
      && !plan.value.value.pastSubmission && QueueShowsEventTriggerBot(a, ev.0, s.queueNames, testing) == Ok(false)
    ensures Committed(r.outcome) || !NoTrigger(r.calls) ==> !testing && s.recentMatches < 1
    ensures era == TriggerBotEra && st.TriggeredPlan? ==> NoTrigger(r.calls) && !Committed(r.outcome)
    ensures r.outcome == Skipped(PlanRemoved, false) ==>
      era == TriggerBotEra && st.TriggeredPlan? && s.beforeSunset && r.calls == calls + [DeletePlan(st.planId)]
    ensures era == OldestEra && st.TriggeredPlan? && (Committed(r.outcome) || !NoTrigger(r.calls)) ==>
      s.beforeSunset && |r.calls| >= |calls| + 2
      && r.calls[|calls|..|calls| + 2] == [DeletePlan(st.planId), TriggerPlan(plan.value.value.planId)]
  {
    match plan
    case Err(e) => Crash(e, calls, rows)
    case Ok(None) => Stop(NoPlan, calls, rows)
    case Ok(Some(p)) =>
      var r := LegacyGates(era, rows, a, st, s, testing, ev, calls, p);
      assert LegacyPlannedFits(era, rows, a, st, s, testing, ev, calls, p, r);
      r
  }

  /** What the plan gates and each older bot's tail promise for a plan `p`. */
  predicate LegacyPlannedFits(era: Era, rows: seq<Row>, a: Alert, st: TriggerState, s: Answers, testing: bool,
                              ev: (int, int), calls: seq<Call>, p: PlanSummary, r: Decision)
  {
    LogEditFits(rows, a.supereventId, r)
    && (r.outcome.Skipped? && r.outcome.retracted ==> st.TriggeredPlan? && r.outcome.gate == PlanCriteria)
    && |r.calls| >= |calls| && r.calls[..|calls|] == calls
    && (Committed(r.outcome) ==> r.outcome == Triggered && !NoTrigger(r.calls))
    && (Committed(r.outcome) || !NoTrigger(r.calls) || r.outcome == Skipped(PlanRemoved, false) ==>
          !FailsPlanCriteria(p) && !TooOldAt(a, s.nowMjd) && !p.pastSubmission
          && QueueShowsEventTriggerBot(a, ev.0, s.queueNames, testing) == Ok(false))
    && (Committed(r.outcome) || !NoTrigger(r.calls) ==> !testing && s.recentMatches < 1)
    && (era == TriggerBotEra && st.TriggeredPlan? ==> NoTrigger(r.calls) && !Committed(r.outcome))
    && (r.outcome == Skipped(PlanRemoved, false) ==>
          era == TriggerBotEra && st.TriggeredPlan? && s.beforeSunset && r.calls == calls + [DeletePlan(st.planId)])
    && (era == OldestEra && st.TriggeredPlan? && (Committed(r.outcome) || !NoTrigger(r.calls)) ==>
          s.beforeSunset && |r.calls| >= |calls| + 2
          && r.calls[|calls|..|calls| + 2] == [DeletePlan(st.planId), TriggerPlan(p.planId)])
  }

  /** The queue lookup and the plan, age and previous-trigger gates of the older bots. */
  function LegacyGates(era: Era, rows: seq<Row>, a: Alert, st: TriggerState, s: Answers, testing: bool,
                       ev: (int, int), calls: seq<Call>, p: PlanSummary): (r: Decision)
    requires NoTrigger(calls)
    ensures LegacyPlannedFits(era, rows, a, st, s, testing, ev, calls, p, r)
  {
    match QueueShowsEventTriggerBot(a, ev.0, s.queueNames, testing)
    case Err(e) => Crash(e, calls, rows)
    case Ok(inQueue) =>
      if FailsPlanCriteria(p) then
        var r := Reject(rows, a.supereventId, st, PlanCriteria, calls);
        RejectFits(rows, a.supereventId, st, PlanCriteria, calls);
        r
      else if TooOldAt(a, s.nowMjd) then Stop(TooOld, calls, rows)
      else if p.pastSubmission || inQueue then Stop(PreviousTrigger, calls, rows)
      else LegacyTail(era, rows, a, st, s, testing, ev, calls, p)
  }

  /** Each older bot's own tail once every gate passed. */
  function LegacyTail(era: Era, rows: seq<Row>, a: Alert, st: TriggerState, s: Answers, testing: bool,
                      ev: (int, int), calls: seq<Call>, p: PlanSummary): (r: Decision)
    requires NoTrigger(calls)
    requires !FailsPlanCriteria(p) && !TooOldAt(a, s.nowMjd) && !p.pastSubmission
    requires QueueShowsEventTriggerBot(a, ev.0, s.queueNames, testing) == Ok(false)
    ensures LegacyPlannedFits(era, rows, a, st, s, testing, ev, calls, p, r)
  {
    match era
    case TriggerBotEra => TriggerBotTail(rows, a, st, s, testing, ev, p, calls)
    case OldestEra => OldestTail(rows, a, st, s, testing, ev, p, calls)
  }

  /**
   * TriggerBot/bot/main.py:174-211: with an existing trigger the old plan is
   * deleted and the message skipped, so no replacement is ever sent.
   */
  function TriggerBotTail(rows: seq<Row>, a: Alert, st: TriggerState, s: Answers, testing: bool, ev: (int, int),
                          p: PlanSummary, calls: seq<Call>): (r: Decision)
    requires NoTrigger(calls)
    ensures LogEditFits(rows, a.supereventId, r)
    ensures r.outcome.Skipped? ==> !r.outcome.retracted
    ensures |r.calls| >= |calls| && r.calls[..|calls|] == calls
    ensures st.TriggeredPlan? ==>
      NoTrigger(r.calls) && (r.outcome == Skipped(TooLateToUpdate, false) || r.outcome == Skipped(PlanRemoved, false))
    ensures r.outcome == Skipped(PlanRemoved, false) <==> st.TriggeredPlan? && s.beforeSunset
    ensures r.outcome == Skipped(PlanRemoved, false) ==> r.calls == calls + [DeletePlan(st.planId)]
    ensures Committed(r.outcome) || !NoTrigger(r.calls) ==> st.NotTriggered? && !testing && s.recentMatches < 1
    ensures Committed(r.outcome) ==>
      r.outcome == Triggered && CivilDates.GenerateCadenceDates(a.dateobs).Some?
      && |r.calls| > |calls| && r.calls[|calls|] == TriggerPlan(p.planId)
      && r.rows == rows + [LoggedRowTriggerBot(a, ev, p, CivilDates.GenerateCadenceDates(a.dateobs).value)]
  {
    match st
    case TriggeredPlan(previous) =>
      if !s.beforeSunset then Stop(TooLateToUpdate, calls, rows)
      else Stop(PlanRemoved, calls + [DeletePlan(previous)], rows)
    case NotTriggered =>
      if testing then Stop(TestingMode, calls, rows)
      else if s.recentMatches >= 1 then Stop(RecentCoverage, calls, rows)
      else TriggerAndLog(rows, a, s, ev, p, calls)
  }

  /**
   * trigger/main.py:148-175: with an existing trigger the old plan is
   * deleted and processing goes on to the coverage check and a new trigger.
   */
  function OldestTail(rows: seq<Row>, a: Alert, st: TriggerState, s: Answers, testing: bool, ev: (int, int),
                      p: PlanSummary, calls: seq<Call>): (r: Decision)
    requires NoTrigger(calls)
    ensures LogEditFits(rows, a.supereventId, r)
    ensures r.outcome.Skipped? ==> !r.outcome.retracted && r.outcome.gate != PlanRemoved
    ensures |r.calls| >= |calls| && r.calls[..|calls|] == calls
    ensures Committed(r.outcome) || !NoTrigger(r.calls) ==> !testing && s.recentMatches < 1
    ensures Committed(r.outcome) ==> r.outcome == Triggered && !NoTrigger(r.calls)
    ensures st.TriggeredPlan? && (Committed(r.outcome) || !NoTrigger(r.calls)) ==>
      s.beforeSunset && |r.calls| >= |calls| + 2
      && r.calls[|calls|..|calls| + 2] == [DeletePlan(st.planId), TriggerPlan(p.planId)]
  {
    match st
    case TriggeredPlan(previous) =>
      if !s.beforeSunset then Stop(TooLateToUpdate, calls, rows)
      else if !s.deleteOk then Stop(DeleteFailed, calls + [DeletePlan(previous)], rows)
      else
        var deleted := calls + [DeletePlan(previous)];
        var r := OldestTrigger(rows, a, s, testing, ev, p, deleted);
        PrefixOfExtended(r.calls, calls, DeletePlan(previous));
        if Committed(r.outcome) || !NoTrigger(r.calls) then
          TwoAfter(r.calls, calls, DeletePlan(previous), TriggerPlan(p.planId));
          r
        else r
    case NotTriggered => OldestTrigger(rows, a, s, testing, ev, p, calls)
  }

  lemma PrefixOfExtended(xs: seq<Call>, calls: seq<Call>, x: Call)
    requires |xs| >= |calls| + 1 && xs[..|calls| + 1] == calls + [x]
    ensures xs[..|calls|] == calls
  {
    assert xs[..|calls|] == xs[..|calls| + 1][..|calls|];
  }

  lemma TwoAfter(xs: seq<Call>, calls: seq<Call>, x: Call, y: Call)
    requires |xs| > |calls| + 1 && xs[..|calls| + 1] == calls + [x] && xs[|calls| + 1] == y
    ensures xs[|calls|..|calls| + 2] == [x, y]
  {
    assert xs[|calls|] == xs[..|calls| + 1][|calls|];
  }

  /** trigger/main.py:155-175: the testing and recent-observation gates, then the trigger. */
  function OldestTrigger(rows: seq<Row>, a: Alert, s: Answers, testing: bool, ev: (int, int), p: PlanSummary,
                         calls: seq<Call>): (r: Decision)
    requires NoTrigger(calls)
    ensures LogEditFits(rows, a.supereventId, r)
    ensures r.outcome.Skipped? ==> !r.outcome.retracted && r.outcome.gate in {TestingMode, RecentCoverage, TriggerFailed}
    ensures |r.calls| >= |calls| && r.calls[..|calls|] == calls
    ensures Committed(r.outcome) || !NoTrigger(r.calls) ==>
      !testing && s.recentMatches < 1 && |r.calls| > |calls| && r.calls[|calls|] == TriggerPlan(p.planId)
    ensures Committed(r.outcome) ==> r.outcome == Triggered
  {
    if testing then Stop(TestingMode, calls, rows)
    else if s.recentMatches >= 1 then Stop(RecentCoverage, calls, rows)
    else TriggerAndLog(rows, a, s, ev, p, calls)
  }

  /** `trigger_ztf`, then the row and the email; a failed trigger raises `MyException` first. */
  function TriggerAndLog(rows: seq<Row>, a: Alert, s: Answers, ev: (int, int), p: PlanSummary, calls: seq<Call>): (r: Decision)
    ensures LogEditFits(rows, a.supereventId, r)
    ensures r.outcome.Skipped? ==> r.outcome == Skipped(TriggerFailed, false)
    ensures |r.calls| > |calls| && r.calls[..|calls| + 1] == calls + [TriggerPlan(p.planId)]
    ensures Committed(r.outcome) ==>
      r.outcome == Triggered && CivilDates.GenerateCadenceDates(a.dateobs).Some?
      && r.rows == rows + [LoggedRowTriggerBot(a, ev, p, CivilDates.GenerateCadenceDates(a.dateobs).value)]
  {
    var sent := calls + [TriggerPlan(p.planId)];
    if !s.triggerOk then Stop(TriggerFailed, sent, rows)
    else match CadenceFor(a.dateobs)
      case Err(e) => Crash(e, sent, rows)
      case Ok(cadence) =>
        Decision(Triggered, sent + [Email(TriggerMessage(a.supereventId))],
          rows + [LoggedRowTriggerBot(a, ev, p, cadence)])
  }

  /** TriggerBot/bot/main.py, lines 51-222, for one message whose value is not None. */
  function AdmitTriggerBot(rows: seq<Row>, raw: RawAlert, state: Result<TriggerState>, s: Answers, testing: bool): Decision
  {
    AdmitLegacy(TriggerBotEra, rows, raw, state, s, testing)
  }

  /**
   * trigger/main.py, lines 42-191: `except Exception` turns every other
   * exception into a skip of that message.
   */
  function AdmitOldest(rows: seq<Row>, raw: RawAlert, state: Result<TriggerState>, s: Answers, testing: bool): (r: Decision)
    ensures !r.outcome.Crashed?
    ensures AdmitLegacy(OldestEra, rows, raw, state, s, testing).outcome.Crashed? ==>
      r.outcome == Skipped(Caught(AdmitLegacy(OldestEra, rows, raw, state, s, testing).outcome.error), false)
      && r.rows == rows
    ensures !AdmitLegacy(OldestEra, rows, raw, state, s, testing).outcome.Crashed? ==>
      r == AdmitLegacy(OldestEra, rows, raw, state, s, testing)
  {
    var d := AdmitLegacy(OldestEra, rows, raw, state, s, testing);
    if d.outcome.Crashed? then Decision(Skipped(Caught(d.outcome.error), false), d.calls, d.rows) else d
  }

  // ---------------------------------------------------------------------
  // The message loops, run against the log file

  /** The retraction `if triggered:` of each failing gate, then the skip. */
  method Retract(log: TriggerLogFile, id: string, st: TriggerState, gate: Gate, calls: seq<Call>)
    returns (outcome: Outcome, sent: seq<Call>)
    requires log.Valid()
    modifies log
    ensures log.Valid()
    ensures Decision(outcome, sent, log.rows) == Reject(old(log.rows), id, st, gate, calls)
  {
    sent := calls;
    if st.TriggeredPlan? {
      var raised := log.Update(id, ValidFlag, "False", Overwrite);
      sent := sent + [DeletePlan(st.planId)];
    }
    outcome := Skipped(gate, st.TriggeredPlan?);
  }

  /** `while gcnevent_id is None: gcnevent_id, localization_id = query_fritz_gcn_events(...)`. */
  method PollFritz(polls: seq<Option<(int, int)>>) returns (r: Result<Option<(int, int)>>)
    ensures r == FritzLookup(polls)
  {
    var found: Option<(int, int)> := None;
    var i := 0;
    while found.None? && i < |polls|
      invariant 0 <= i <= |polls|
      invariant found.None? ==> i == 0
      invariant found.Some? ==> i == 1 && found == polls[0]
    {
      var answer := polls[i];
      if answer.None? {
        return Err(TypeError);
      }
      found := answer;
      i := i + 1;
    }
    return Ok(found);
  }

  /** `while fritz_event_status is None: fritz_event_status = get_plan_stats(...)`. */
  method PollPlans(reader: StatsReader, polls: seq<Option<seq<PlanRequest>>>, queueName: string)
    returns (r: Result<Option<PlanSummary>>)
    ensures r == PollPlan(reader, polls, queueName)
  {
    var status: Option<PlanSummary> := None;
    var i := 0;
    while status.None? && i < |polls|
      invariant 0 <= i <= |polls|
      invariant status.None? ==> PollPlan(reader, polls, queueName) == PollPlan(reader, polls[i..], queueName)
      invariant status.Some? ==> PollPlan(reader, polls, queueName) == Ok(status)
    {
      var answer := ReadStats(reader, polls[i], queueName);
      if answer.Err? {
        return Err(answer.error);
      }
      status := answer.value;
      assert polls[i..][1..] == polls[i + 1..];
      i := i + 1;
    }
    assert status.None? ==> polls[i..] == [];
    return Ok(status);
  }

  /** trigger.py, lines 100-198: the parameters, the log check, the first gate and the chirp-mass loop. */
  method ProcessAlert(log: TriggerLogFile, raw: RawAlert, s: Answers, testing: bool) returns (outcome: Outcome, calls: seq<Call>)
    requires log.Valid()
    modifies log
    ensures log.Valid()
    ensures Decision(outcome, calls, log.rows) == Admit(old(log.rows), raw, s, testing)
  {
    calls := [];
    var params := GetParams(raw);
    if params.Err? {
      outcome := if params.error == MyException then Skipped(ParamsRejected, false) else Crashed(params.error);
      return;
    }
    var a := params.value;
    var state := LogState(log.rows, a.supereventId);
    if state.Err? {
      outcome := Crashed(state.error);
      return;
    }
    var st := state.value;
    var gate := FirstGate(a);
    if gate.Err? {
      outcome := Crashed(gate.error);
      return;
    }
    if gate.value {
      outcome, calls := Retract(log, a.supereventId, st, InitialCriteria, calls);
      return;
    }
    var polls := s.chirpPolls;
    var mchirp: Option<real> := None;
    var i := 0;
    while mchirp.None? && i < |polls|
      invariant 0 <= i <= |polls|
      invariant mchirp.None? ==> FirstChirp(polls) == FirstChirp(polls[i..])
      invariant mchirp.Some? ==> mchirp == FirstChirp(polls) && !ChirpRejects(mchirp.value)
    {
      if polls[i].ChirpFound? {
        var m := polls[i].mchirp;
        if ChirpRejects(m) {
          outcome, calls := Retract(log, a.supereventId, st, MassCriteria, calls);
          return;
        }
        mchirp := Some(m);
      }
      assert polls[i..][1..] == polls[i + 1..];
      i := i + 1;
    }
    if mchirp.None? {
      assert polls[i..] == [];
      if s.mlpMass < MassFloor {
        outcome, calls := Retract(log, a.supereventId, st, MassCriteria, calls);
      } else {
        outcome := Skipped(MassCriteria, false);
      }
      return;
    }
    outcome, calls := Locate(log, a, st, s, testing);
  }

  /** trigger.py, lines 200-242: the Fritz loop, the plan request and the plan loop. */
  method Locate(log: TriggerLogFile, a: Alert, st: TriggerState, s: Answers, testing: bool)
    returns (outcome: Outcome, calls: seq<Call>)
    requires log.Valid()
    modifies log
    ensures log.Valid()
    ensures Decision(outcome, calls, log.rows) == AdmitLocated(old(log.rows), a, st, s, testing)
  {
    calls := [];
    var lookup := PollFritz(s.fritzPolls);
    if lookup.Err? {
      outcome := Crashed(lookup.error);
      return;
    }
    if lookup.value.None? {
      outcome := Skipped(NoGcnEvent, false);
      return;
    }
    var ev := lookup.value.value;
    var queueName := QueueName(a.supereventId, s.planStart);
    var plan := PollPlans(CurrentStats, s.planPolls, queueName);
    outcome, calls := Decide(log, a, st, s, testing, ev, [SubmitPlan(queueName)], plan);
  }

  /** trigger.py, lines 239-303: the previous-trigger, plan, age and re-trigger gates. */
  method Decide(log: TriggerLogFile, a: Alert, st: TriggerState, s: Answers, testing: bool, ev: (int, int),
                calls0: seq<Call>, plan: Result<Option<PlanSummary>>) returns (outcome: Outcome, calls: seq<Call>)
    requires log.Valid() && NoTrigger(calls0)
    modifies log
    ensures log.Valid()
    ensures Decision(outcome, calls, log.rows) == AdmitPlanned(old(log.rows), a, st, s, testing, ev, calls0, plan)
  {
    calls := calls0;
    if plan.Err? {
      outcome := Crashed(plan.error);
      return;
    }
    if plan.value.None? {
      outcome := Skipped(NoPlan, false);
      return;
    }
    var p := plan.value.value;
    var queue := QueueShowsEvent(a, ev.0, s.queueNames, testing);
    if queue.Err? {
      outcome := Crashed(queue.error);
      return;
    }
    var previousTrigger := p.pastSubmission || queue.value;
    if previousTrigger && st.NotTriggered? {
      outcome := Skipped(PreviousTrigger, false);
      return;
    }
    if FailsPlanCriteria(p) {
      outcome, calls := Retract(log, a.supereventId, st, PlanCriteria, calls);
      return;
    }
    if TooOldAt(a, s.nowMjd) {
      outcome := Skipped(TooOld, false);
      return;
    }
    if st.TriggeredPlan? {
      if !s.beforeSunset {
        outcome := Skipped(TooLateToUpdate, false);
        return;
      }
      calls := calls + [DeletePlan(st.planId)];
      if !s.deleteOk {
        outcome := Skipped(DeleteFailed, false);
        return;
      }
    }
    outcome, calls := Commit(log, a, s, testing, ev, p, calls);
  }

  /** trigger.py, lines 305-361: coverage, the trigger, the new row and the email. */
  method Commit(log: TriggerLogFile, a: Alert, s: Answers, testing: bool, ev: (int, int), p: PlanSummary,
                calls0: seq<Call>) returns (outcome: Outcome, calls: seq<Call>)
    requires log.Valid() && NoTrigger(calls0)
    modifies log
    ensures log.Valid()
    ensures Decision(outcome, calls, log.rows) == AdmitCovered(old(log.rows), a, s, testing, ev, p, calls0)
  {
    calls := calls0;
    var coverage := Coverage(s);
    if coverage.Err? {
      outcome := Crashed(coverage.error);
      return;
    }
    var serendipitous := coverage.value >= CoverageShare * p.probability;
    if !serendipitous && !testing {
      calls := calls + [TriggerPlan(p.planId)];
      if !s.triggerOk {
        outcome := Skipped(TriggerFailed, false);
        return;
      }
    }
    var cadence := CadenceFor(a.dateobs);
    if cadence.Err? {
      outcome := Crashed(cadence.error);
      return;
    }
    log.Append(LoggedRow(a, ev, p, cadence.value, serendipitous));
    outcome := if serendipitous then Serendipitous else Triggered;
    var message := if serendipitous then SerendipitousMessage(a.supereventId) else TriggerMessage(a.supereventId);
    calls := calls + [Email(message)];
  }

  /** A consumed Kafka message: no value, or an alert with the answers its processing gets. */
  datatype Message = NoValue | Delivered(raw: RawAlert, answers: Answers)

  /** One pass over a consumed batch: the outcomes in order, the offsets committed, the log after. */
  datatype BatchRun = BatchRun(outcomes: seq<Outcome>, committed: nat, rows: seq<Row>)

  function DeliveredCount(batch: seq<Message>): (n: nat)
    ensures n <= |batch|
  {
    if |batch| == 0 then 0 else (if batch[0].Delivered? then 1 else 0) + DeliveredCount(batch[1..])
  }

  /**
   * trigger.py, lines 94-377: a message without a value is passed over
   * uncommitted; every other message is committed in `finally` whatever
   * its outcome; an exception other than `MyException` ends the pass.
   */
  function RunBatch(rows: seq<Row>, batch: seq<Message>, testing: bool): (r: BatchRun)
    decreases |batch|
  {
    if |batch| == 0 then BatchRun([], 0, rows)
    else
      match batch[0]
      case NoValue => RunBatch(rows, batch[1..], testing)
      case Delivered(raw, s) =>
        var d := Admit(rows, raw, s, testing);
        if d.outcome.Crashed? then BatchRun([d.outcome], 1, d.rows)
        else
          var rest := RunBatch(d.rows, batch[1..], testing);
          BatchRun([d.outcome] + rest.outcomes, 1 + rest.committed, rest.rows)
  }

  /**
   * Every outcome of a pass is committed, at most one per delivered message,
   * and a pass without a crash commits every delivered message.
   */
  lemma {:induction false} RunBatchCommits(rows: seq<Row>, batch: seq<Message>, testing: bool)
    ensures var r := RunBatch(rows, batch, testing);
      r.committed == |r.outcomes| <= DeliveredCount(batch)
      && ((forall o :: o in r.outcomes ==> !o.Crashed?) ==> r.committed == DeliveredCount(batch))
    decreases |batch|
  {
    if |batch| > 0 {
      var r := RunBatch(rows, batch, testing);
      assert DeliveredCount(batch) == (if batch[0].Delivered? then 1 else 0) + DeliveredCount(batch[1..]);
      if batch[0].NoValue? {
        RunBatchCommits(rows, batch[1..], testing);
      } else {
        var d := Admit(rows, batch[0].raw, batch[0].answers, testing);
        if !d.outcome.Crashed? {
          var rest := RunBatch(d.rows, batch[1..], testing);
          RunBatchCommits(d.rows, batch[1..], testing);
          assert r == BatchRun([d.outcome] + rest.outcomes, 1 + rest.committed, rest.rows);
          assert forall o :: o in rest.outcomes ==> o in r.outcomes;
        } else {
          assert r.outcomes == [d.outcome];
          assert r.outcomes[0].Crashed?;
        }
      }
    }
  }

  /** Only the last of the outcomes can be a crash. */
  predicate CrashLast(outcomes: seq<Outcome>)
  {
    forall k :: 0 <= k < |outcomes| - 1 ==> !outcomes[k].Crashed?
  }

  lemma CrashLastCons(o: Outcome, rest: seq<Outcome>)
    requires !o.Crashed? && CrashLast(rest)
    ensures CrashLast([o] + rest)
  {
    forall k | 0 <= k < |[o] + rest| - 1 ensures !([o] + rest)[k].Crashed? {
      if k > 0 {
        assert ([o] + rest)[k] == rest[k - 1];
      }
    }
  }

  /** An exception other than `MyException` ends the pass: only the last outcome can be a crash. */
  lemma {:induction false} RunBatchCrashLast(rows: seq<Row>, batch: seq<Message>, testing: bool)
    ensures CrashLast(RunBatch(rows, batch, testing).outcomes)
    decreases |batch|
  {
    if |batch| > 0 {
      RunBatchStep(rows, batch, testing);
      if batch[0].NoValue? {
        RunBatchCrashLast(rows, batch[1..], testing);
      } else {
        var d := Admit(rows, batch[0].raw, batch[0].answers, testing);
        if !d.outcome.Crashed? {
          RunBatchCrashLast(d.rows, batch[1..], testing);
          CrashLastCons(d.outcome, RunBatch(d.rows, batch[1..], testing).outcomes);
        }
      }
    }
  }

  function Joined(outcomes: seq<Outcome>, committed: nat, r: BatchRun): BatchRun
  {
    BatchRun(outcomes + r.outcomes, committed + r.committed, r.rows)
  }

  lemma JoinedStep(outcomes: seq<Outcome>, committed: nat, o: Outcome, r: BatchRun)
    ensures Joined(outcomes, committed, Joined([o], 1, r)) == Joined(outcomes + [o], committed + 1, r)
  {
    assert outcomes + ([o] + r.outcomes) == (outcomes + [o]) + r.outcomes;
  }

  /** One message of a pass, then the rest of the pass on the log it leaves. */
  lemma RunBatchStep(rows: seq<Row>, batch: seq<Message>, testing: bool)
    requires |batch| > 0
    ensures batch[0].NoValue? ==> RunBatch(rows, batch, testing) == RunBatch(rows, batch[1..], testing)
    ensures batch[0].Delivered? ==>
      var d := Admit(rows, batch[0].raw, batch[0].answers, testing);
      RunBatch(rows, batch, testing)
        == if d.outcome.Crashed? then BatchRun([d.outcome], 1, d.rows)
           else Joined([d.outcome], 1, RunBatch(d.rows, batch[1..], testing))
  {
  }

  /** `for message in consumer.consume(timeout=1.0)` of trigger.py. */
  method ConsumeBatch(log: TriggerLogFile, batch: seq<Message>, testing: bool)
    returns (outcomes: seq<Outcome>, committed: nat)
    requires log.Valid()
    modifies log
    ensures log.Valid()
    ensures BatchRun(outcomes, committed, log.rows) == RunBatch(old(log.rows), batch, testing)
  {
    outcomes, committed := [], 0;
    var i := 0;
    while i < |batch|
      invariant 0 <= i <= |batch| && log.Valid()
      invariant RunBatch(old(log.rows), batch, testing) == Joined(outcomes, committed, RunBatch(log.rows, batch[i..], testing))
    {
      ghost var before := log.rows;
      ghost var tail := batch[i..];
      assert tail[0] == batch[i] && tail[1..] == batch[i + 1..];
      RunBatchStep(before, tail, testing);
      if batch[i].Delivered? {
        var outcome, calls := ProcessAlert(log, batch[i].raw, batch[i].answers, testing);
        JoinedStep(outcomes, committed, outcome, RunBatch(log.rows, batch[i + 1..], testing));
        outcomes, committed := outcomes + [outcome], committed + 1;
        if outcome.Crashed? {
          return;
        }
      }
      i := i + 1;
    }
    assert batch[i..] == [];
    assert outcomes + [] == outcomes;
  }

  // ---------------------------------------------------------------------
  // The older bots' messages, run against the log file

  /** TriggerBot/bot/main.py:51-101 and trigger/main.py:42-86: parameters, first gate, MLP mass gate. */
  method ProcessLegacy(era: Era, log: TriggerLogFile, raw: RawAlert, state: Result<TriggerState>, s: Answers,
                       testing: bool) returns (outcome: Outcome, calls: seq<Call>)
    requires log.Valid()
    modifies log
    ensures log.Valid()
    ensures Decision(outcome, calls, log.rows) == AdmitLegacy(era, old(log.rows), raw, state, s, testing)
  {
    calls := [];
    var params := GetParamsTriggerBot(raw);
    if params.Err? {
      outcome := Skipped(ParamsRejected, false);
      return;
    }
    var a := params.value;
    if state.Err? {
      outcome := Crashed(state.error);
      return;
    }
    var st := state.value;
    var gate := FirstGate(a);
    if gate.Err? {
      outcome := Crashed(gate.error);
      return;
    }
    if gate.value {
      outcome, calls := Retract(log, a.supereventId, st, InitialCriteria, calls);
      return;
    }
    if s.mlpMass < MassFloor {
      outcome, calls := Retract(log, a.supereventId, st, MassCriteria, calls);
      return;
    }
    outcome, calls := LocateLegacy(era, log, a, st, s, testing);
  }

  /** The Fritz loop and the plan loop of the older bots. */
  method LocateLegacy(era: Era, log: TriggerLogFile, a: Alert, st: TriggerState, s: Answers, testing: bool)
    returns (outcome: Outcome, calls: seq<Call>)
    requires log.Valid()
    modifies log
    ensures log.Valid()
    ensures Decision(outcome, calls, log.rows) == AdmitLegacyLocated(era, old(log.rows), a, st, s, testing)
  {
    calls := [];
    var lookup := PollFritz(s.fritzPolls);
    if lookup.Err? {
      outcome := Crashed(lookup.error);
      return;
    }
    if lookup.value.None? {
      outcome := Skipped(NoGcnEvent, false);
      return;
    }
    var ev := lookup.value.value;
    var queueName := QueueNameTriggerBot(a.supereventId, s.planStart);
    var plan := PollPlans(TriggerBotStats, s.planPolls, queueName);
    outcome, calls := DecideLegacy(era, log, a, st, s, testing, ev, [SubmitPlan(queueName)], plan);
  }

  /** The plan, age and previous-trigger gates of the older bots, then each bot's tail. */
  method DecideLegacy(era: Era, log: TriggerLogFile, a: Alert, st: TriggerState, s: Answers, testing: bool,
                      ev: (int, int), calls0: seq<Call>, plan: Result<Option<PlanSummary>>)
    returns (outcome: Outcome, calls: seq<Call>)
    requires log.Valid() && NoTrigger(calls0)
    modifies log
    ensures log.Valid()
    ensures Decision(outcome, calls, log.rows) == AdmitLegacyPlanned(era, old(log.rows), a, st, s, testing, ev, calls0, plan)
  {
    calls := calls0;
    if plan.Err? {
      outcome := Crashed(plan.error);
      return;
    }
    if plan.value.None? {
      outcome := Skipped(NoPlan, false);
      return;
    }
    var p := plan.value.value;
    var queue := QueueShowsEventTriggerBot(a, ev.0, s.queueNames, testing);
    if queue.Err? {
      outcome := Crashed(queue.error);
      return;
    }
    if FailsPlanCriteria(p) {
      outcome, calls := Retract(log, a.supereventId, st, PlanCriteria, calls);
      return;
    }
    if TooOldAt(a, s.nowMjd) {
      outcome := Skipped(TooOld, false);
      return;
    }
    if p.pastSubmission || queue.value {
      outcome := Skipped(PreviousTrigger, false);
      return;
    }
    if st.TriggeredPlan? {
      if !s.beforeSunset {
        outcome := Skipped(TooLateToUpdate, false);
        return;
      }
      calls := calls + [DeletePlan(st.planId)];
      if era == TriggerBotEra {
        outcome := Skipped(PlanRemoved, false);
        return;
      }
      if !s.deleteOk {
        outcome := Skipped(DeleteFailed, false);
        return;
      }
    }
    if testing {
      outcome := Skipped(TestingMode, false);
      return;
    }
    if s.recentMatches >= 1 {
      outcome := Skipped(RecentCoverage, false);
      return;
    }
    calls := calls + [TriggerPlan(p.planId)];
    if !s.triggerOk {
      outcome := Skipped(TriggerFailed, false);
      return;
    }
    var cadence := CadenceFor(a.dateobs);
    if cadence.Err? {
      outcome := Crashed(cadence.error);
      return;
    }
    log.Append(LoggedRowTriggerBot(a, ev, p, cadence.value));
    outcome := Triggered;
    calls := calls + [Email(TriggerMessage(a.supereventId))];
  }

  /** One message of trigger/main.py: every exception is caught and the message skipped. */
  method ProcessOldest(log: TriggerLogFile, raw: RawAlert, state: Result<TriggerState>, s: Answers, testing: bool)
    returns (outcome: Outcome, calls: seq<Call>)
    requires log.Valid()
    modifies log
    ensures log.Valid()
    ensures Decision(outcome, calls, log.rows) == AdmitOldest(old(log.rows), raw, state, s, testing)
  {
    outcome, calls := ProcessLegacy(OldestEra, log, raw, state, s, testing);
    if outcome.Crashed? {
      outcome := Skipped(Caught(outcome.error), false);
    }
  }
}
