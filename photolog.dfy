/**
 * The photometry pipeline record `flare_data/photometry_pipeline.json`
 * (flares_utils/photometry_utils.py, `PhotometryLog`): per event its
 * observation date, whether it is past the 200-day window, and the list of
 * ZFPS requests made for it, plus the summary counters. The methods that
 * change the record rewrite the file once the change is made; the model
 * keeps the record as it stands in memory.
 */
module PhotoLog {
  import opened Wrappers
  import opened PyText

  /**
   * One element of an event's `zfps` list: a text marker the selection
   * records instead of a request, or a request entry.
   */
  datatype ZfpsItem =
    | Marker(text: string)
    | Entry(submissionDate: Option<string>, action: string, numAgnSubmitted: Option<int>,
            numBatchesSubmitted: Option<int>, batchIds: Option<string>, numberReturned: Option<int>,
            numberBrokenUrls: Option<int>, complete: bool, fromQueue: bool)

  datatype EventRec = EventRec(dateobs: Option<string>, over200Days: bool, zfps: seq<ZfpsItem>)

  datatype SummaryStats = SummaryStats(totalRequests: int, totalSaved: int, totalCurrentlyPending: int)

  /** The events in insertion order, each once, and exactly the keys of the record. */
  ghost predicate Registry(ids: seq<string>, events: map<string, EventRec>)
  {
    (forall i, j :: 0 <= i < j < |ids| ==> ids[i] != ids[j])
    && (forall id :: id in events <==> id in ids)
  }

  /** Events older than this many days are no longer followed. */
  const WindowDays: real := 200.0
  /** No request is checked in the first week. */
  const FirstWeek: int := 7
  const DeltaThresholds: seq<int> := [9, 16, 23, 30, 52, 100]
  const RequestsRequired: seq<nat> := [2, 3, 4, 5, 6, 7]

  // ---------------------------------------------------------------------
  // Python's round

  /** `round(x)`: the nearest integer, ties to the even one. */
  function RoundHalfEven(x: real): (n: int)
    ensures -(1.0 / 2.0) <= n as real - x <= 1.0 / 2.0
    ensures (n as real - x == 1.0 / 2.0 || x - n as real == 1.0 / 2.0) ==> n % 2 == 0
  {
    var f := x.Floor;
    var d := x - f as real;
    if d < 1.0 / 2.0 then f
    else if d > 1.0 / 2.0 then f + 1
    else if f % 2 == 0 then f
    else f + 1
  }

  // ---------------------------------------------------------------------
  // check_completed_events

  /** One event of `check_completed_events`; `age` gives the days since an isot date, or None when the date is rejected. */
  function CompletedStep(e: EventRec, age: string -> Option<real>): (r: Result<EventRec>)
    ensures r.Err? ==> r.error == ValueError
  {
    if e.over200Days || e.dateobs.None? then Ok(e)
    else match age(e.dateobs.value)
      case None => Err(ValueError)
      case Some(days) => Ok(if days > WindowDays then e.(over200Days := true) else e)
  }

  /** The record after `check_completed_events` visits `ids` in order, and the error that stopped it. */
  datatype Pass = Pass(events: map<string, EventRec>, raised: Option<Raised>)

  function CompletedFrom(ids: seq<string>, events: map<string, EventRec>, age: string -> Option<real>): (r: Pass)
    requires forall id :: id in ids ==> id in events
    ensures r.events.Keys == events.Keys
    decreases |ids|
  {
    if ids == [] then Pass(events, None)
    else
      match CompletedStep(events[ids[0]], age)
      case Err(e) => Pass(events, Some(e))
      case Ok(x) => CompletedFrom(ids[1..], events[ids[0] := x], age)
  }

  /**
   * `check_completed_events` only ever sets over_200_days to True, for the
   * events it reaches whose date is more than 200 days back, and changes
   * nothing else of any event.
   */
  lemma {:induction false} CompletedOnlySets(ids: seq<string>, events: map<string, EventRec>, age: string -> Option<real>)
    requires forall id :: id in ids ==> id in events
    ensures var r := CompletedFrom(ids, events, age);
      forall id :: id in events ==>
        (events[id].over200Days ==> r.events[id].over200Days)
        && r.events[id].dateobs == events[id].dateobs && r.events[id].zfps == events[id].zfps
        && (r.events[id].over200Days && !events[id].over200Days ==>
              id in ids && events[id].dateobs.Some? && age(events[id].dateobs.value).Some?
              && age(events[id].dateobs.value).value > WindowDays)
    decreases |ids|
  {
    if ids != [] {
      var step := CompletedStep(events[ids[0]], age);
      if step.Ok? {
        CompletedOnlySets(ids[1..], events[ids[0] := step.value], age);
      }
    }
  }

  /** Without an error, every reachable event older than 200 days ends up marked. */
  lemma {:induction false} CompletedMarksOld(ids: seq<string>, events: map<string, EventRec>, age: string -> Option<real>)
    requires forall id :: id in ids ==> id in events
    requires forall i, j :: 0 <= i < j < |ids| ==> ids[i] != ids[j]
    requires CompletedFrom(ids, events, age).raised.None?
    ensures forall id :: (id in ids && events[id].dateobs.Some? && age(events[id].dateobs.value).Some?
      && age(events[id].dateobs.value).value > WindowDays) ==> CompletedFrom(ids, events, age).events[id].over200Days
    decreases |ids|
  {
    if ids != [] {
      var x := CompletedStep(events[ids[0]], age).value;
      var next := events[ids[0] := x];
      CompletedMarksOld(ids[1..], next, age);
      CompletedOnlySets(ids[1..], next, age);
      forall id | id in ids && events[id].dateobs.Some? && age(events[id].dateobs.value).Some?
        && age(events[id].dateobs.value).value > WindowDays
        ensures CompletedFrom(ids, events, age).events[id].over200Days
      {
        if id != ids[0] {
          assert id in ids[1..];
        }
      }
    }
  }

  lemma CompletedUnfold(ids: seq<string>, events: map<string, EventRec>, age: string -> Option<real>)
    requires ids != [] && (forall id :: id in ids ==> id in events)
    ensures CompletedFrom(ids, events, age)
         == match CompletedStep(events[ids[0]], age)
            case Err(e) => Pass(events, Some(e))
            case Ok(x) => CompletedFrom(ids[1..], events[ids[0] := x], age)
  {
  }

  lemma RegistrySameKeys(ids: seq<string>, before: map<string, EventRec>, after: map<string, EventRec>)
    requires Registry(ids, before) && after.Keys == before.Keys
    ensures Registry(ids, after)
  {
  }

  /** A step that succeeds with `x` continues the pass from the record holding `x`. */
  lemma CompletedAdvance(ids: seq<string>, events: map<string, EventRec>, age: string -> Option<real>, x: EventRec)
    requires ids != [] && (forall id :: id in ids ==> id in events)
    requires CompletedStep(events[ids[0]], age) == Ok(x)
    ensures CompletedFrom(ids, events, age) == CompletedFrom(ids[1..], events[ids[0] := x], age)
  {
    CompletedUnfold(ids, events, age);
  }

  // ---------------------------------------------------------------------
  // update_summary_stats

  const NewRequest: string := "new_request"
  const SavedRequest: string := "saved_request"

  /**
   * `update_summary_stats`: a new request adds to the requests, a saved
   * one to the saves; any other keyword raises ValueError, and adding
   * None raises TypeError.
   */
  function SummaryUpdate(s: SummaryStats, requested: Option<int>, saved: Option<int>, keyword: string): (r: Result<SummaryStats>)
    ensures keyword != NewRequest && keyword != SavedRequest ==> r == Err(ValueError)
    ensures keyword == NewRequest ==> (requested.None? <==> r.Err?) && (r.Ok? ==> r.value == s.(totalRequests := s.totalRequests + requested.value))
    ensures keyword == SavedRequest ==> (saved.None? <==> r.Err?) && (r.Ok? ==> r.value == s.(totalSaved := s.totalSaved + saved.value))
    ensures r.Err? ==> r.error == ValueError || r.error == TypeError
  {
    if keyword == NewRequest then
      (if requested.None? then Err(TypeError) else Ok(s.(totalRequests := s.totalRequests + requested.value)))
    else if keyword == SavedRequest then
      (if saved.None? then Err(TypeError) else Ok(s.(totalSaved := s.totalSaved + saved.value)))
    else Err(ValueError)
  }

  // ---------------------------------------------------------------------
  // check_photometry_status

  /** `[id, submission_date, num_batches_submitted, action]`. */
  datatype Waiting = Waiting(id: string, submissionDate: Option<string>, numBatches: Option<int>, action: string)
  /** `[id, dateobs, 'update']`. */
  datatype Need = Need(id: string, dateobs: string, action: string)
  datatype Status = Status(needs: seq<Need>, waiting: seq<Waiting>)

  /** The request entries of a zfps list still waiting for photometry. */
  function WaitingOf(id: string, zs: seq<ZfpsItem>): (r: seq<Waiting>)
    ensures |r| <= |zs|
    ensures forall w :: w in r <==> (exists k ::
      0 <= k < |zs| && zs[k].Entry? && !zs[k].complete
      && w == Waiting(id, zs[k].submissionDate, zs[k].numBatchesSubmitted, zs[k].action))
  {
    if zs == [] then []
    else
      var z := zs[0];
      var rest := WaitingOf(id, zs[1..]);
      assert forall k :: 1 <= k < |zs| ==> zs[k] == zs[1..][k - 1];
      assert forall k :: 0 <= k < |zs[1..]| ==> zs[1..][k] == zs[k + 1];
      if z.Entry? && !z.complete then [Waiting(id, z.submissionDate, z.numBatchesSubmitted, z.action)] + rest
      else rest
  }

  /** `"from_queue" not in x`: a key test on an entry, a substring test on a marker. */
  predicate CountsAsRequest(z: ZfpsItem)
  {
    match z
    case Marker(text) => !Contains(text, "from_queue")
    case Entry(_, _, _, _, _, _, _, _, fromQueue) => !fromQueue
  }

  function RequestsSoFar(zs: seq<ZfpsItem>): (n: nat)
    ensures n <= |zs|
  {
    if zs == [] then 0 else (if CountsAsRequest(zs[0]) then 1 else 0) + RequestsSoFar(zs[1..])
  }

  /** `any(time_delta >= t and num < z for t, z in zip(thresholds, required))`. */
  predicate UpdateDue(delta: int, count: nat)
  {
    exists k :: 0 <= k < |DeltaThresholds| && delta >= DeltaThresholds[k] && count < RequestsRequired[k]
  }

  /** How many of the thresholds have passed. */
  function PassedThresholds(delta: int): (n: nat)
    ensures n <= |DeltaThresholds|
  {
    if delta >= 100 then 6 else if delta >= 52 then 5 else if delta >= 30 then 4
    else if delta >= 23 then 3 else if delta >= 16 then 2 else if delta >= 9 then 1 else 0
  }

  /**
   * An update is due exactly when at least one threshold has passed and
   * fewer requests than one more than the number passed have been made:
   * one initial request plus one per threshold.
   */
  lemma UpdateDueExactly(delta: int, count: nat)
    ensures UpdateDue(delta, count) <==> PassedThresholds(delta) > 0 && count < PassedThresholds(delta) + 1
  {
    var p := PassedThresholds(delta);
    if p > 0 && count < p + 1 {
      assert delta >= DeltaThresholds[p - 1] && count < RequestsRequired[p - 1];
    }
    if UpdateDue(delta, count) {
      var k :| 0 <= k < |DeltaThresholds| && delta >= DeltaThresholds[k] && count < RequestsRequired[k];
      assert k < p;
    }
  }

  /** An event in the window whose date `Time(dateobs, format='isot')` cannot read. */
  ghost predicate Unreadable(e: EventRec, age: string -> Option<real>)
  {
    !e.over200Days && e.dateobs.Some? && age(e.dateobs.value).None?
  }

  /** An event whose waiting entries are listed: in the window, dated and at least a week old, rounded. */
  ghost predicate Watched(e: EventRec, age: string -> Option<real>)
  {
    !e.over200Days && e.dateobs.Some? && age(e.dateobs.value).Some?
    && RoundHalfEven(age(e.dateobs.value).value) >= FirstWeek
  }

  /**
   * An event that asks for an update: in the window, dated, past the first
   * threshold, and with fewer requests than one per threshold passed plus
   * the initial one.
   */
  ghost predicate NeedsUpdate(e: EventRec, age: string -> Option<real>)
  {
    !e.over200Days && e.dateobs.Some? && age(e.dateobs.value).Some?
    && RoundHalfEven(age(e.dateobs.value).value) >= DeltaThresholds[0]
    && RequestsSoFar(e.zfps) < PassedThresholds(RoundHalfEven(age(e.dateobs.value).value)) + 1
  }

  /**
   * One event of `check_photometry_status`: skipped when past the window,
   * without a date, or under a week old (rounded); otherwise its waiting
   * entries, and an update request when one is due.
   */
  function EventStatus(id: string, e: EventRec, age: string -> Option<real>): (r: Result<Status>)
    ensures r.Err? <==> Unreadable(e, age)
    ensures r.Err? ==> r.error == ValueError
    ensures r.Ok? ==> r.value.needs == (if NeedsUpdate(e, age) then [Need(id, e.dateobs.value, "update")] else [])
    ensures r.Ok? ==> r.value.waiting == (if Watched(e, age) then WaitingOf(id, e.zfps) else [])
  {
    if e.over200Days || e.dateobs.None? then Ok(Status([], []))
    else match age(e.dateobs.value)
      case None => Err(ValueError)
      case Some(days) =>
        var delta := RoundHalfEven(days);
        if delta < FirstWeek then Ok(Status([], []))
        else
          var due := UpdateDue(delta, RequestsSoFar(e.zfps));
          UpdateDueExactly(delta, RequestsSoFar(e.zfps));
          Ok(Status(if due then [Need(id, e.dateobs.value, "update")] else [], WaitingOf(id, e.zfps)))
  }

  function Combine(a: Status, b: Status): Status
  {
    Status(a.needs + b.needs, a.waiting + b.waiting)
  }

  /** `check_photometry_status` over `ids` in order; an unreadable date stops it. */
  function StatusFrom(ids: seq<string>, events: map<string, EventRec>, age: string -> Option<real>): (r: Result<Status>)
    requires forall id :: id in ids ==> id in events
    ensures r.Err? ==> r.error == ValueError
    ensures r.Ok? <==> forall id :: id in ids ==> !Unreadable(events[id], age)
    ensures r.Ok? ==> |r.value.needs| <= |ids|
    ensures r.Ok? ==> forall n :: n in r.value.needs ==> n.id in ids && n.action == "update"
    decreases |ids|
  {
    if ids == [] then Ok(Status([], []))
    else
      match EventStatus(ids[0], events[ids[0]], age)
      case Err(e) => Err(e)
      case Ok(s) =>
        match StatusFrom(ids[1..], events, age)
        case Err(e) => Err(e)
        case Ok(t) => Ok(Combine(s, t))
  }

  /**
   * What the pass returns: the update requests are exactly those of the
   * events that need one, and the waiting list holds exactly the waiting
   * entries of the events at least a week old.
   */
  lemma {:induction false} StatusFromExactly(ids: seq<string>, events: map<string, EventRec>, age: string -> Option<real>)
    requires forall id :: id in ids ==> id in events
    requires StatusFrom(ids, events, age).Ok?
    ensures forall n :: n in StatusFrom(ids, events, age).value.needs ==>
      n.id in ids && NeedsUpdate(events[n.id], age) && n == Need(n.id, events[n.id].dateobs.value, "update")
    ensures forall id :: id in ids && NeedsUpdate(events[id], age) ==>
      Need(id, events[id].dateobs.value, "update") in StatusFrom(ids, events, age).value.needs
    ensures forall w :: w in StatusFrom(ids, events, age).value.waiting ==>
      w.id in ids && Watched(events[w.id], age) && w in WaitingOf(w.id, events[w.id].zfps)
    ensures forall id, w :: id in ids && Watched(events[id], age) && w in WaitingOf(id, events[id].zfps) ==>
      w in StatusFrom(ids, events, age).value.waiting
    decreases |ids|
  {
    if ids != [] {
      var s := EventStatus(ids[0], events[ids[0]], age).value;
      var t := StatusFrom(ids[1..], events, age).value;
      StatusFromExactly(ids[1..], events, age);
      assert StatusFrom(ids, events, age).value == Combine(s, t);
      assert forall id :: id in ids ==> id == ids[0] || id in ids[1..];
      forall w | w in s.waiting
        ensures w.id == ids[0]
      {
      }
    }
  }

  /** The pass over `a + b` is the pass over `a`, then the pass over `b`: events are reported in `ids` order. */
  lemma {:induction false} StatusAppend(a: seq<string>, b: seq<string>, events: map<string, EventRec>, age: string -> Option<real>)
    requires forall id :: id in a ==> id in events
    requires forall id :: id in b ==> id in events
    ensures StatusFrom(a + b, events, age)
         == if StatusFrom(a, events, age).Err? then StatusFrom(a, events, age)
            else Lead(StatusFrom(a, events, age).value, StatusFrom(b, events, age))
    decreases |a|
  {
    if a == [] {
      assert a + b == b;
      LeadNothing(StatusFrom(b, events, age));
    } else {
      assert (a + b)[0] == a[0] && (a + b)[1..] == a[1..] + b;
      StatusAppend(a[1..], b, events, age);
      var s := EventStatus(a[0], events[a[0]], age);
      if s.Ok? && StatusFrom(a[1..], events, age).Ok? {
        LeadCombine(s.value, StatusFrom(a[1..], events, age).value, StatusFrom(b, events, age));
      }
    }
  }

  /** The pass over one event is that event's status. */
  lemma StatusOne(id: string, events: map<string, EventRec>, age: string -> Option<real>)
    requires id in events
    ensures StatusFrom([id], events, age) == EventStatus(id, events[id], age)
  {
    assert [id][1..] == [];
    var s := EventStatus(id, events[id], age);
    if s.Ok? {
      assert Combine(s.value, Status([], [])) == s.value;
    }
  }

  /** The results so far, put in front of the rest of the pass. */
  function Lead(acc: Status, rest: Result<Status>): Result<Status>
  {
    match rest
    case Err(e) => Err(e)
    case Ok(t) => Ok(Combine(acc, t))
  }

  lemma StatusUnfold(ids: seq<string>, events: map<string, EventRec>, age: string -> Option<real>)
    requires ids != [] && (forall id :: id in ids ==> id in events)
    requires EventStatus(ids[0], events[ids[0]], age).Ok?
    ensures StatusFrom(ids, events, age) == Lead(EventStatus(ids[0], events[ids[0]], age).value, StatusFrom(ids[1..], events, age))
  {
  }

  lemma LeadCombine(acc: Status, s: Status, rest: Result<Status>)
    ensures Lead(acc, Lead(s, rest)) == Lead(Combine(acc, s), rest)
  {
    if rest.Ok? {
      assert Combine(acc, Combine(s, rest.value)) == Combine(Combine(acc, s), rest.value);
    }
  }

  lemma LeadNothing(rest: Result<Status>)
    ensures Lead(Status([], []), rest) == rest
  {
    if rest.Ok? {
      assert Combine(Status([], []), rest.value) == rest.value;
    }
  }

  lemma StatusStep(ids: seq<string>, events: map<string, EventRec>, age: string -> Option<real>, acc: Status)
    requires ids != [] && (forall id :: id in ids ==> id in events)
    requires EventStatus(ids[0], events[ids[0]], age).Ok?
    ensures Lead(acc, StatusFrom(ids, events, age))
         == Lead(Combine(acc, EventStatus(ids[0], events[ids[0]], age).value), StatusFrom(ids[1..], events, age))
  {
    StatusUnfold(ids, events, age);
    LeadCombine(acc, EventStatus(ids[0], events[ids[0]], age).value, StatusFrom(ids[1..], events, age));
  }

  /** An event whose date cannot be read ends the pass, whatever came before. */
  lemma StatusStops(ids: seq<string>, events: map<string, EventRec>, age: string -> Option<real>, acc: Status)
    requires ids != [] && (forall id :: id in ids ==> id in events)
    requires EventStatus(ids[0], events[ids[0]], age).Err?
    ensures Lead(acc, StatusFrom(ids, events, age)).Err?
  {
  }

  // ---------------------------------------------------------------------
  // update_photometry_complete

  /**
   * The position of the first entry with the submission date; reading the
   * date of a marker before it raises TypeError.
   */
  function FirstDated(zs: seq<ZfpsItem>, date: Option<string>): (r: Result<Option<nat>>)
    ensures r.Err? ==> r.error == TypeError
    ensures r.Ok? && r.value.Some? ==> (r.value.value < |zs| && zs[r.value.value].Entry?
      && zs[r.value.value].submissionDate == date
      && forall j :: 0 <= j < r.value.value ==> zs[j].Entry? && zs[j].submissionDate != date)
    ensures r == Ok(None) ==> forall j :: 0 <= j < |zs| ==> zs[j].Entry? && zs[j].submissionDate != date
    ensures r.Err? <==> exists j :: 0 <= j < |zs| && zs[j].Marker? && forall i :: 0 <= i < j ==> zs[i].Entry? && zs[i].submissionDate != date
  {
    if zs == [] then Ok(None)
    else if zs[0].Marker? then Err(TypeError)
    else if zs[0].submissionDate == date then Ok(Some(0))
    else
      var rest := FirstDated(zs[1..], date);
      assert forall j :: 1 <= j < |zs| ==> zs[j] == zs[1..][j - 1];
      assert forall j :: 0 <= j < |zs[1..]| ==> zs[1..][j] == zs[j + 1];
      match rest
      case Err(e) => Err(e)
      case Ok(None) => Ok(None)
      case Ok(Some(k)) => Ok(Some(k + 1))
  }

  /** The entry once its photometry is saved. */
  function Completed(z: ZfpsItem, batchIds: string, numReturned: int, numBroken: int): ZfpsItem
    requires z.Entry?
  {
    z.(complete := true, batchIds := Some(batchIds), numberReturned := Some(numReturned), numberBrokenUrls := Some(numBroken))
  }

  /** The record after `update_photometry_complete`, and what it raised. */
  datatype Record = Record(events: map<string, EventRec>, stats: SummaryStats, raised: Option<Raised>)

  function CompleteUpdate(events: map<string, EventRec>, stats: SummaryStats, id: string, date: Option<string>,
                          batchIds: string, numReturned: int, numBroken: int): (r: Record)
    ensures r.events.Keys == events.Keys
    ensures id !in events ==> r == Record(events, stats, None)
  {
    if id !in events then Record(events, stats, None)
    else
      var e := events[id];
      match FirstDated(e.zfps, date)
      case Err(x) => Record(events, stats, Some(x))
      case Ok(None) => Record(events, stats, None)
      case Ok(Some(k)) =>
        var z := Completed(e.zfps[k], batchIds, numReturned, numBroken);
        Record(events[id := e.(zfps := e.zfps[k := z])], stats.(totalSaved := stats.totalSaved + numReturned), None)
  }

  /**
   * Only the first entry with the submission date is marked complete, the
   * returned count is added to the saves, and every other entry and event
   * is left as it was.
   */
  lemma CompleteUpdateMarksFirst(events: map<string, EventRec>, stats: SummaryStats, id: string, date: Option<string>,
                                 batchIds: string, numReturned: int, numBroken: int)
    requires id in events
    requires FirstDated(events[id].zfps, date).Ok? && FirstDated(events[id].zfps, date).value.Some?
    ensures var r := CompleteUpdate(events, stats, id, date, batchIds, numReturned, numBroken);
      var zs, k := events[id].zfps, FirstDated(events[id].zfps, date).value.value;
      var zs2 := r.events[id].zfps;
      |zs2| == |zs| && zs2[k].complete && zs2[k].submissionDate == date && zs2[k].numberReturned == Some(numReturned)
      && (forall j :: 0 <= j < |zs| && j != k ==> zs2[j] == zs[j])
      && (forall j :: 0 <= j < k ==> zs[j].submissionDate != date)
      && (forall other :: other in events && other != id ==> r.events[other] == events[other])
      && r.stats.totalSaved == stats.totalSaved + numReturned && r.stats.totalRequests == stats.totalRequests
      && r.raised.None?
  {
  }

  // ---------------------------------------------------------------------
  // add_event and add_zfps_entry

  /**
   * `add_event`: a new id is added at the end with its data; an existing
   * one is left untouched. The data's zfps field is a list, so looking up
   * `num_agn_submitted` in it fails and the request total gains 0.
   */
  function EventAdded(ids: seq<string>, events: map<string, EventRec>, id: string, data: EventRec): (r: (seq<string>, map<string, EventRec>))
    ensures id in events ==> r == (ids, events)
    ensures id !in events ==> r.0 == ids + [id] && r.1 == events[id := data]
    ensures Registry(ids, events) ==> Registry(r.0, r.1)
  {
    if id in events then (ids, events) else (ids + [id], events[id := data])
  }

  /**
   * `add_zfps_entry`: the entry is appended to a known event and its AGN
   * count added to the requests; an entry without a count is appended and
   * then raises TypeError before the record is written back. An unknown id
   * changes nothing.
   */
  function EntryAdded(events: map<string, EventRec>, stats: SummaryStats, id: string, entry: ZfpsItem): (r: Record)
    requires entry.Entry?
    ensures r.events.Keys == events.Keys
    ensures id !in events ==> r == Record(events, stats, None)
    ensures id in events ==> r.events == events[id := events[id].(zfps := events[id].zfps + [entry])]
    ensures id in events ==> (r.raised.Some? <==> entry.numAgnSubmitted.None?)
    ensures id in events && entry.numAgnSubmitted.Some? ==> r.stats == stats.(totalRequests := stats.totalRequests + entry.numAgnSubmitted.value)
    ensures id in events && entry.numAgnSubmitted.None? ==> r.stats == stats && r.raised == Some(TypeError)
  {
    if id !in events then Record(events, stats, None)
    else
      var e := events[id];
      var s := SummaryUpdate(stats, entry.numAgnSubmitted, Some(0), NewRequest);
      Record(events[id := e.(zfps := e.zfps + [entry])], if s.Ok? then s.value else stats, if s.Ok? then None else Some(s.error))
  }

  // ---------------------------------------------------------------------
  // The record as an object

  class PhotometryLogFile {
    var ids: seq<string>
    var events: map<string, EventRec>
    var stats: SummaryStats

    ghost predicate Valid()
      reads this
    {
      Registry(ids, events)
    }

    constructor (initialIds: seq<string>, initialEvents: map<string, EventRec>, initialStats: SummaryStats)
      requires Registry(initialIds, initialEvents)
      ensures Valid() && ids == initialIds && events == initialEvents && stats == initialStats
    {
      ids := initialIds;
      events := initialEvents;
      stats := initialStats;
    }

    /** `check_completed_events` (photometry_utils.py:630-642). */
    method CheckCompletedEvents(age: string -> Option<real>) returns (raised: Option<Raised>)
      requires Valid()
      modifies this
      ensures Valid() && ids == old(ids) && stats == old(stats)
      ensures Pass(events, raised) == CompletedFrom(old(ids), old(events), age)
    {
      var i := 0;
      raised := None;
      while i < |ids|
        invariant 0 <= i <= |ids| && ids == old(ids) && stats == old(stats)
        invariant events.Keys == old(events).Keys
        invariant CompletedFrom(old(ids), old(events), age) == CompletedFrom(ids[i..], events, age)
      {
        var id := ids[i];
        var e := events[id];
        assert ids[i..][0] == id && ids[i..][1..] == ids[i + 1..];
        var x := e;
        if !e.over200Days && e.dateobs.Some? {
          var days := age(e.dateobs.value);
          if days.None? {
            CompletedUnfold(ids[i..], events, age);
            raised := Some(ValueError);
            return;
          }
          if days.value > WindowDays {
            x := e.(over200Days := true);
          }
        }
        CompletedAdvance(ids[i..], events, age, x);
        events := events[id := x];
        i := i + 1;
      }
      assert ids[i..] == [];
      RegistrySameKeys(ids, old(events), events);
    }

    /** `update_summary_stats` (photometry_utils.py:644-657). */
    method UpdateSummaryStats(requested: Option<int>, saved: Option<int>, keyword: string) returns (raised: Option<Raised>)
      modifies this
      ensures ids == old(ids) && events == old(events)
      ensures SummaryUpdate(old(stats), requested, saved, keyword).Ok? ==>
        raised.None? && stats == SummaryUpdate(old(stats), requested, saved, keyword).value
      ensures SummaryUpdate(old(stats), requested, saved, keyword).Err? ==>
        raised == Some(SummaryUpdate(old(stats), requested, saved, keyword).error) && stats == old(stats)
    {
      raised := None;
      if keyword == NewRequest {
        if requested.None? {
          raised := Some(TypeError);
          return;
        }
        stats := stats.(totalRequests := stats.totalRequests + requested.value);
      } else if keyword == SavedRequest {
        if saved.None? {
          raised := Some(TypeError);
          return;
        }
        stats := stats.(totalSaved := stats.totalSaved + saved.value);
      } else {
        raised := Some(ValueError);
      }
    }

    /** `save_num_pending` (photometry_utils.py:659-666). */
    method SaveNumPending(numPending: int)
      modifies this
      ensures ids == old(ids) && events == old(events)
      ensures stats == old(stats).(totalCurrentlyPending := numPending)
    {
      stats := stats.(totalCurrentlyPending := numPending);
    }

    /** `add_event` (photometry_utils.py:695-710). */
    method AddEvent(id: string, data: EventRec)
      requires Valid()
      modifies this
      ensures Valid() && stats == old(stats)
      ensures (ids, events) == EventAdded(old(ids), old(events), id, data)
    {
      if id !in events {
        events := events[id := data];
        ids := ids + [id];
      }
    }

    /** `add_zfps_entry` (photometry_utils.py:712-726). */
    method AddZfpsEntry(id: string, entry: ZfpsItem) returns (raised: Option<Raised>)
      requires Valid() && entry.Entry?
      modifies this
      ensures Valid() && ids == old(ids)
      ensures Record(events, stats, raised) == EntryAdded(old(events), old(stats), id, entry)
    {
      raised := None;
      if id in events {
        var e := events[id];
        events := events[id := e.(zfps := e.zfps + [entry])];
        raised := UpdateSummaryStats(entry.numAgnSubmitted, Some(0), NewRequest);
      }
    }

    /** `check_photometry_status` (photometry_utils.py:728-754); it changes nothing. */
    method CheckPhotometryStatus(age: string -> Option<real>) returns (needs: seq<Need>, waiting: seq<Waiting>, raised: Option<Raised>)
      requires Valid()
      ensures StatusFrom(ids, events, age).Ok? ==> raised.None? && Status(needs, waiting) == StatusFrom(ids, events, age).value
      ensures StatusFrom(ids, events, age).Err? ==> raised == Some(ValueError)
    {
      var acc := Status([], []);
      var i := 0;
      assert ids[0..] == ids;
      LeadNothing(StatusFrom(ids, events, age));
      while i < |ids|
        invariant 0 <= i <= |ids|
        invariant StatusFrom(ids, events, age) == Lead(acc, StatusFrom(ids[i..], events, age))
      {
        var id := ids[i];
        assert ids[i..][0] == id && ids[i..][1..] == ids[i + 1..];
        var s := EventStatus(id, events[id], age);
        if s.Err? {
          StatusStops(ids[i..], events, age, acc);
          return [], [], Some(ValueError);
        }
        StatusStep(ids[i..], events, age, acc);
        acc := Combine(acc, s.value);
        i := i + 1;
      }
      assert ids[i..] == [];
      assert Combine(acc, Status([], [])) == acc;
      return acc.needs, acc.waiting, None;
    }

    /** `update_photometry_complete` (photometry_utils.py:756-777). */
    method UpdatePhotometryComplete(id: string, date: Option<string>, batchIds: string, numReturned: int, numBroken: int)
      returns (raised: Option<Raised>)
      requires Valid()
      modifies this
      ensures Valid() && ids == old(ids)
      ensures Record(events, stats, raised) == CompleteUpdate(old(events), old(stats), id, date, batchIds, numReturned, numBroken)
    {
      raised := None;
      if id !in events {
        return;
      }
      var e := events[id];
      var k := 0;
      while k < |e.zfps|
        invariant 0 <= k <= |e.zfps|
        invariant events == old(events) && stats == old(stats)
        invariant forall j :: 0 <= j < k ==> e.zfps[j].Entry? && e.zfps[j].submissionDate != date
      {
        var z := e.zfps[k];
        if z.Marker? {
          PrefixLeadsTo(e.zfps, date, k);
          raised := Some(TypeError);
          return;
        }
        if z.submissionDate == date {
          PrefixLeadsTo(e.zfps, date, k);
          events := events[id := e.(zfps := e.zfps[k := Completed(z, batchIds, numReturned, numBroken)])];
          stats := stats.(totalSaved := stats.totalSaved + numReturned);
          return;
        }
        k := k + 1;
      }
      PrefixLeadsTo(e.zfps, date, k);
    }
  }

  /** After a prefix of entries without the date, the search reports what the next item decides. */
  lemma {:induction false} PrefixLeadsTo(zs: seq<ZfpsItem>, date: Option<string>, k: nat)
    requires k <= |zs| && forall j :: 0 <= j < k ==> zs[j].Entry? && zs[j].submissionDate != date
    ensures k == |zs| ==> FirstDated(zs, date) == Ok(None)
    ensures k < |zs| && zs[k].Marker? ==> FirstDated(zs, date) == Err(TypeError)
    ensures k < |zs| && zs[k].Entry? && zs[k].submissionDate == date ==> FirstDated(zs, date) == Ok(Some(k))
    decreases k
  {
    if k > 0 {
      assert forall j :: 0 <= j < k - 1 ==> zs[1..][j] == zs[j + 1];
      PrefixLeadsTo(zs[1..], date, k - 1);
    }
  }
}
