/**
 * The Fritz and ZTF helpers of the trigger bots, on the data their HTTP
 * responses carry: observation-plan statistics selection, the ZTF queue
 * keyword search, the skymap coverage fraction, the plan window and the
 * queue name a plan is submitted under.
 */
module PlanUtils {
  import opened Wrappers
  import opened PyText

  // ---------------------------------------------------------------------
  // get_plan_stats

  /** The `statistics` dictionary of one statistics entry. */
  datatype PlanStatistics = PlanStatistics(totalTime: real, probability: real, startObservation: string)

  datatype StatEntry = StatEntry(observationPlanId: int, statistics: PlanStatistics)

  datatype ObservationPlan = ObservationPlan(statistics: seq<StatEntry>)

  /** One observation plan request of a GCN event on Fritz. */
  datatype PlanRequest = PlanRequest(id: int, status: string, queueName: string, observationPlans: seq<ObservationPlan>)

  /** The tuple `get_plan_stats` returns: (past_submission, total_time, probability, start_observation, id). */
  datatype PlanSummary = PlanSummary(pastSubmission: bool, totalTime: real, probability: real,
                                     startObservation: string, planId: int)

  const SubmittedStatus := "submitted to telescope queue"

  /** Some request of the event has been submitted to the telescope queue. */
  predicate AnySubmitted(data: seq<PlanRequest>)
  {
    exists k :: 0 <= k < |data| && data[k].status == SubmittedStatus
  }

  /** The index of the first request under the given queue name. */
  function FirstWithQueue(data: seq<PlanRequest>, queueName: string): (r: Option<nat>)
    ensures r.Some? ==> r.value < |data| && data[r.value].queueName == queueName
    ensures r.Some? ==> forall k :: 0 <= k < r.value ==> data[k].queueName != queueName
    ensures r.None? ==> forall k :: 0 <= k < |data| ==> data[k].queueName != queueName
  {
    if |data| == 0 then None
    else if data[0].queueName == queueName then Some(0)
    else match FirstWithQueue(data[1..], queueName)
      case None => None
      case Some(i) => Some(i + 1)
  }

  /** The request carries exactly one observation plan with exactly one statistics entry. */
  predicate SinglePlan(p: PlanRequest)
  {
    |p.observationPlans| == 1 && |p.observationPlans[0].statistics| == 1
  }

  /**
   * The request `get_plan_stats` reads its numbers from: the first one under
   * the queue name, when it has a single plan with a single statistics entry.
   * Every other case raises `MyException` in the source, which the function
   * itself catches and turns into None.
   */
  function SelectedRequest(data: seq<PlanRequest>, queueName: string): (r: Option<nat>)
    ensures r.Some? <==> FirstWithQueue(data, queueName).Some? && SinglePlan(data[FirstWithQueue(data, queueName).value])
    ensures r.Some? ==> r == FirstWithQueue(data, queueName)
  {
    if |data| == 0 then None
    else match FirstWithQueue(data, queueName)
      case None => None
      case Some(i) => if SinglePlan(data[i]) then Some(i) else None
  }

  /** The single statistics entry of a selected request. */
  function TheStats(p: PlanRequest): StatEntry
    requires SinglePlan(p)
  {
    p.observationPlans[0].statistics[0]
  }

  /**
   * `get_plan_stats` of trigger_utils, on the decoded response (None when the
   * status code is not 200: `json_data` is then unbound and `NameError`
   * escapes). The id returned is the plan request's own id.
   */
  function GetPlanStats(response: Option<seq<PlanRequest>>, queueName: string): (r: Result<Option<PlanSummary>>)
    ensures r.Err? <==> response.None?
    ensures r.Err? ==> r.error == NameError
    ensures r.Ok? ==> (r.value.Some? <==> SelectedRequest(response.value, queueName).Some?)
    ensures r.Ok? && r.value.Some? ==>
      var data, i := response.value, SelectedRequest(response.value, queueName).value;
      var s := TheStats(data[i]).statistics;
      r.value.value == PlanSummary(AnySubmitted(data), s.totalTime, s.probability, s.startObservation, data[i].id)
  {
    match response
    case None => Err(NameError)
    case Some(data) =>
      match SelectedRequest(data, queueName)
      case None => Ok(None)
      case Some(i) =>
        var s := TheStats(data[i]).statistics;
        Ok(Some(PlanSummary(AnySubmitted(data), s.totalTime, s.probability, s.startObservation, data[i].id)))
  }

  /**
   * `get_plan_stats` of TriggerBot: the same checks, but the id returned is
   * the statistics entry's `observation_plan_id`.
   */
  function GetPlanStatsTriggerBot(response: Option<seq<PlanRequest>>, queueName: string): (r: Result<Option<PlanSummary>>)
    ensures r.Err? <==> response.None?
    ensures r.Ok? ==> (r.value.Some? <==> SelectedRequest(response.value, queueName).Some?)
    ensures r == GetPlanStats(response, queueName) <==> (r.Err? || r.value.None?
      || r.value.value.planId == response.value[SelectedRequest(response.value, queueName).value].id)
    ensures r.Ok? && r.value.Some? ==>
      GetPlanStats(response, queueName) == Ok(Some(r.value.value.(planId := response.value[SelectedRequest(response.value, queueName).value].id)))
    ensures r.Ok? && r.value.Some? ==>
      r.value.value.planId == TheStats(response.value[SelectedRequest(response.value, queueName).value]).observationPlanId
  {
    match response
    case None => Err(NameError)
    case Some(data) =>
      match SelectedRequest(data, queueName)
      case None => Ok(None)
      case Some(i) =>
        var s := TheStats(data[i]).statistics;
        Ok(Some(PlanSummary(AnySubmitted(data), s.totalTime, s.probability, s.startObservation,
          TheStats(data[i]).observationPlanId)))
  }

  // ---------------------------------------------------------------------
  // query_kowalski_ztf_queue

  /** A search keyword: the bots pass the dateobs and id texts and the integer gcnevent id. */
  datatype Keyword = Text(text: string) | Number(number: int)

  datatype QueueAnswer = QueueNames(names: seq<string>) | AlreadySubmitted | NotFound

  /** Python's `keyword in name`: a substring test for a str, `TypeError` for an int. */
  function KeywordIn(k: Keyword, name: string): (r: Result<bool>)
    ensures r.Err? <==> k.Number?
    ensures r.Err? ==> r.error == TypeError
    ensures r.Ok? ==> r.value == Contains(name, k.text)
  {
    match k
    case Text(t) => Ok(Contains(name, t))
    case Number(_) => Err(TypeError)
  }

  /**
   * `query_kowalski_ztf_queue` of trigger_utils on the queue names of the
   * response (None when its status is not 200, which raises a plain
   * `Exception`). Both loops return on their first iteration, so only the
   * first name and the first keyword are looked at.
   */
  function QueryQueue(response: Option<seq<string>>, keywords: Option<seq<Keyword>>): (r: Result<QueueAnswer>)
    ensures response.None? <==> r == Err(GeneralException)
    ensures response.Some? && keywords.None? ==> r == Ok(QueueNames(response.value))
    ensures response.Some? && keywords.Some? && (|response.value| == 0 || |keywords.value| == 0) ==> r == Ok(NotFound)
    ensures response.Some? && keywords.Some? && |response.value| > 0 && |keywords.value| > 0 ==>
      var name, k := response.value[0], keywords.value[0];
      (k.Number? ==> r == Err(TypeError)) && (k.Text? ==> r == Ok(if Contains(name, k.text) then AlreadySubmitted else NotFound))
  {
    match response
    case None => Err(GeneralException)
    case Some(names) =>
      match keywords
      case None => Ok(QueueNames(names))
      case Some(kws) =>
        if |names| == 0 || |kws| == 0 then Ok(NotFound)
        else match KeywordIn(kws[0], names[0])
          case Err(e) => Err(e)
          case Ok(found) => Ok(if found then AlreadySubmitted else NotFound)
  }

  /** Only the first name and keyword matter: the rest of both lists can be anything. */
  lemma QueryQueueFirstOnly(names: seq<string>, kws: seq<Keyword>, moreNames: seq<string>, moreKws: seq<Keyword>)
    requires |names| > 0 && |kws| > 0
    ensures QueryQueue(Some(names + moreNames), Some(kws + moreKws)) == QueryQueue(Some([names[0]]), Some([kws[0]]))
  {
    assert (names + moreNames)[0] == names[0];
    assert (kws + moreKws)[0] == kws[0];
  }

  /** A keyword text occurs in the name. */
  predicate TextIn(k: Keyword, name: string)
  {
    k.Text? && Contains(name, k.text)
  }

  /** The inner loop of the TriggerBot search: the keywords in order, against one name. */
  function SearchName(name: string, kws: seq<Keyword>): (r: Result<bool>)
    ensures r == Ok(true) ==> exists j :: 0 <= j < |kws| && TextIn(kws[j], name)
    ensures r == Ok(false) ==> forall j :: 0 <= j < |kws| ==> kws[j].Text? && !TextIn(kws[j], name)
    ensures r.Err? ==> r.error == TypeError && exists j :: 0 <= j < |kws| && kws[j].Number?
    ensures (forall j :: 0 <= j < |kws| ==> kws[j].Text?) ==> r.Ok?
  {
    if |kws| == 0 then Ok(false)
    else match KeywordIn(kws[0], name)
      case Err(e) => Err(e)
      case Ok(found) =>
        if found then Ok(true)
        else
          var rest := SearchName(name, kws[1..]);
          assert rest == Ok(true) ==> TextIn(kws[1..][0], name) || exists j :: 1 <= j < |kws| && TextIn(kws[j], name);
          rest
  }

  /** The outer loop: the names in order. */
  function SearchNames(names: seq<string>, kws: seq<Keyword>): (r: Result<bool>)
    ensures r == Ok(true) ==> exists i, j :: 0 <= i < |names| && 0 <= j < |kws| && TextIn(kws[j], names[i])
    ensures r == Ok(false) ==> forall i, j :: 0 <= i < |names| && 0 <= j < |kws| ==> !TextIn(kws[j], names[i])
    ensures r.Err? ==> r.error == TypeError
    ensures (forall j :: 0 <= j < |kws| ==> kws[j].Text?) ==> r.Ok?
  {
    if |names| == 0 then Ok(false)
    else match SearchName(names[0], kws)
      case Err(e) => Err(e)
      case Ok(found) =>
        if found then Ok(true)
        else
          var rest := SearchNames(names[1..], kws);
          assert forall i :: 1 <= i < |names| ==> names[i] == names[1..][i - 1];
          rest
  }

  /**
   * `query_kowalski_ztf_queue` of TriggerBot: every keyword against every
   * name, "Already Submitted" on the first hit.
   */
  function QueryQueueTriggerBot(response: Option<seq<string>>, kws: seq<Keyword>): (r: Result<QueueAnswer>)
    ensures response.None? <==> r == Err(GeneralException)
    ensures r.Ok? ==> !r.value.QueueNames?
    ensures r.Err? ==> r.error == GeneralException || r.error == TypeError
  {
    match response
    case None => Err(GeneralException)
    case Some(names) =>
      match SearchNames(names, kws)
      case Err(e) => Err(e)
      case Ok(found) => Ok(if found then AlreadySubmitted else NotFound)
  }

  /** With text keywords only, TriggerBot's answer is "Already Submitted" iff some keyword occurs in some name. */
  lemma QueryQueueTriggerBotTexts(names: seq<string>, kws: seq<Keyword>)
    requires forall j :: 0 <= j < |kws| ==> kws[j].Text?
    ensures QueryQueueTriggerBot(Some(names), kws).Ok?
    ensures QueryQueueTriggerBot(Some(names), kws) == Ok(AlreadySubmitted)
      <==> exists i, j :: 0 <= i < |names| && 0 <= j < |kws| && Contains(names[i], kws[j].text)
  {
    var r := SearchNames(names, kws);
    if r == Ok(false) {
      forall i, j | 0 <= i < |names| && 0 <= j < |kws| ensures !Contains(names[i], kws[j].text) {
        assert !TextIn(kws[j], names[i]);
      }
    }
  }

  /**
   * The keyword list the bots build, [dateobs, superevent_id, gcnevent_id],
   * ends in an int: when neither text occurs in the first queue name, the
   * search raises `TypeError`.
   */
  lemma QueryQueueTriggerBotIntKeyword(names: seq<string>, dateobs: string, id: string, gcnEventId: int)
    requires |names| > 0 && !Contains(names[0], dateobs) && !Contains(names[0], id)
    ensures QueryQueueTriggerBot(Some(names), [Text(dateobs), Text(id), Number(gcnEventId)]) == Err(TypeError)
  {
    var kws := [Text(dateobs), Text(id), Number(gcnEventId)];
    assert kws[1..] == [Text(id), Number(gcnEventId)];
    assert kws[1..][1..] == [Number(gcnEventId)];
    assert SearchName(names[0], kws[1..][1..]) == Err(TypeError);
    assert SearchName(names[0], kws[1..]) == Err(TypeError);
    assert SearchName(names[0], kws) == Err(TypeError);
  }

  // ---------------------------------------------------------------------
  // SkymapCoverage

  /** One field of the instrument's tiling of a skymap. */
  datatype SkymapField = SkymapField(instrumentId: int, fieldId: int, dec: real)

  /** ZTF (instrument 1) primary-grid fields in the northern sky. */
  predicate Eligible(f: SkymapField)
  {
    f.instrumentId == 1 && 220 < f.fieldId < 880 && f.dec > -30.0
  }

  /** `get_ztf_fields_skymap`: the ids of the eligible fields, in order. */
  function SkymapFieldIds(fields: seq<SkymapField>): (r: seq<int>)
    ensures |r| <= |fields|
    ensures forall x :: x in r <==> exists k :: 0 <= k < |fields| && Eligible(fields[k]) && fields[k].fieldId == x
  {
    if |fields| == 0 then []
    else
      var rest := SkymapFieldIds(fields[1..]);
      assert forall k :: 1 <= k < |fields| ==> fields[k] == fields[1..][k - 1];
      if Eligible(fields[0]) then [fields[0].fieldId] + rest else rest
  }

  /** `[field for field in skymap_fields if field in observation_fields]`. */
  function ObservedFields(skymap: seq<int>, observed: seq<int>): (r: seq<int>)
    ensures |r| <= |skymap|
    ensures forall x :: x in r <==> x in skymap && x in observed
    ensures |r| == |skymap| <==> forall k :: 0 <= k < |skymap| ==> skymap[k] in observed
    ensures |r| == 0 <==> forall k :: 0 <= k < |skymap| ==> skymap[k] !in observed
  {
    if |skymap| == 0 then []
    else
      var rest := ObservedFields(skymap[1..], observed);
      assert forall k :: 1 <= k < |skymap| ==> skymap[k] == skymap[1..][k - 1];
      assert forall x :: x in skymap <==> x == skymap[0] || x in skymap[1..];
      if skymap[0] in observed then [skymap[0]] + rest else rest
  }

  /**
   * `get_coverage_fraction`: the share of the skymap's field list that was
   * observed. An empty field list divides by zero.
   */
  function CoverageFraction(skymap: seq<int>, observed: seq<int>): (r: Result<real>)
    ensures r.Err? <==> |skymap| == 0
    ensures r.Err? ==> r.error == ZeroDivisionError
    ensures r.Ok? ==> 0.0 <= r.value <= 1.0
    ensures r.Ok? ==> (r.value == 1.0 <==> forall k :: 0 <= k < |skymap| ==> skymap[k] in observed)
    ensures r.Ok? ==> (r.value == 0.0 <==> forall k :: 0 <= k < |skymap| ==> skymap[k] !in observed)
  {
    if |skymap| == 0 then Err(ZeroDivisionError)
    else
      var n := |ObservedFields(skymap, observed)|;
      FractionBounds(n, |skymap|);
      Ok(n as real / |skymap| as real)
  }

  lemma FractionBounds(n: nat, d: nat)
    requires 0 < d && n <= d
    ensures 0.0 <= n as real / d as real <= 1.0
    ensures n as real / d as real == 1.0 <==> n == d
    ensures n as real / d as real == 0.0 <==> n == 0
  {
    var q := n as real / d as real;
    assert q * d as real == n as real;
  }

  /**
   * The fraction of SkymapCoverage, from the skymap's tiling (None when the
   * instrument endpoint does not answer 200, which raises `Exception`) and
   * the field ids observed in the window.
   */
  function SkymapCoverage(tiling: Option<seq<SkymapField>>, observed: seq<int>): (r: Result<real>)
    ensures tiling.None? ==> r == Err(GeneralException)
    ensures tiling.Some? ==> r == CoverageFraction(SkymapFieldIds(tiling.value), observed)
  {
    match tiling
    case None => Err(GeneralException)
    case Some(fields) => CoverageFraction(SkymapFieldIds(fields), observed)
  }

  // ---------------------------------------------------------------------
  // compute_plan_start_end, check_before_sunset, submit_plan

  const Hour := 3600

  /** A plan window, as two instants in seconds. */
  datatype Window = Window(start: int, end: int)

  /** `check_before_sunset`: the next sunset comes before the next sunrise. */
  predicate BeforeSunset(sunset: int, sunrise: int)
  {
    !(sunrise < sunset)
  }

  /**
   * `compute_plan_start_end` on the next sunset and sunrise after now: from
   * now when the sun is down (sunrise comes first), else from sunset; one
   * hour before that instant until fifteen hours after it.
   */
  function PlanWindow(now: int, sunset: int, sunrise: int): (w: Window)
    ensures w.end - w.start == 16 * Hour
    ensures BeforeSunset(sunset, sunrise) ==> w.start == sunset - Hour
    ensures !BeforeSunset(sunset, sunrise) ==> w.start == now - Hour
  {
    var anchor := if sunrise < sunset then now else sunset;
    Window(anchor - Hour, anchor + 15 * Hour)
  }

  const QueueInfix := "_BBHBot_"

  /** `f"{gracedbid}_BBHBot_{startdate.replace(' ', '_')}"` of trigger_utils. */
  function QueueName(id: string, start: string): (r: string)
    ensures |r| == |id| + |QueueInfix| + |start|
    ensures r[..|id| + |QueueInfix|] == id + QueueInfix
    ensures forall i :: 0 <= i < |start| ==> r[|id| + |QueueInfix| + i] == if start[i] == ' ' then '_' else start[i]
    ensures ' ' !in id ==> ' ' !in r
  {
    ReplaceCharByChar(start, ' ', '_');
    ReplaceCharGone(start, ' ', '_');
    id + QueueInfix + Replace(start, " ", "_")
  }

  /** `f"{gracedbid}_BBHBot_{startdate}"` of TriggerBot: the timestamp's space is kept. */
  function QueueNameTriggerBot(id: string, start: string): (r: string)
    ensures |r| == |id| + |QueueInfix| + |start|
    ensures r[..|id| + |QueueInfix|] == id + QueueInfix && r[|id| + |QueueInfix|..] == start
  {
    id + QueueInfix + start
  }

  /** The two queue names agree exactly when the start holds no space. */
  lemma QueueNameVariants(id: string, start: string)
    ensures QueueName(id, start) == QueueNameTriggerBot(id, start) <==> ' ' !in start
  {
    var a, b := QueueName(id, start), QueueNameTriggerBot(id, start);
    var p := |id| + |QueueInfix|;
    if ' ' in start {
      var i :| 0 <= i < |start| && start[i] == ' ';
      assert a[p + i] == '_' && b[p + i] == ' ';
    } else {
      assert forall i :: 0 <= i < |a| ==> a[i] == b[i];
    }
  }
}
