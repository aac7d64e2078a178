/**
 * The photometry status table (`PhotometryStatus.show_status` and its
 * `assign_status`) in its three versions: flares_utils/photometry_utils.py,
 * FlareBot/bot/photometry_utils.py and emfollowup/photometry_utils.py.
 * The table lists the priority events newest first, with the date of their
 * last forced-photometry request and what is to be done next.
 */
module PhotoStatus {
  import opened Wrappers

  datatype GwSummary = GwSummary(mass: real, area90: real, far: real)

  /** What the table reads of an event: its gw summary, its CatNorth AGN count, and `date_last_zfps` if present. */
  datatype EventSummary = EventSummary(gw: GwSummary, nAgnCatnorth: int, dateLastZfps: Option<string>)

  /** The events dictionary: its keys in order and their values. */
  datatype EventsFile = EventsFile(ids: seq<string>, events: map<string, EventSummary>)

  predicate WellKeyed(f: EventsFile)
  {
    forall id :: id in f.ids ==> id in f.events
  }

  datatype ZfpsStatus = NoAgn | NeedsZfps | UpdateZfps | Complete | StatusError

  datatype StatusRow = StatusRow(id: string, dateLastZfps: string, status: ZfpsStatus, trigger: bool)

  const TriggerList: seq<string> := ["S240919bn", "S240923ct", "S241006k", "S241009em", "S241114y", "S250319bu"]
  /** The FlareBot and emfollowup versions stop before the last trigger. */
  const TriggerListBefore: seq<string> := ["S240919bn", "S240923ct", "S241006k", "S241009em", "S241114y"]
  const LastTrigger: string := "S250319bu"

  /** Requests less than this many whole days old are still updated. */
  const StatusWindowDays: int := 200
  const NoAgnText: string := "NA"

  /** Mass above 60, 90% area under 1000 square degrees, and FAR above 10 years. */
  predicate Priority(g: GwSummary)
  {
    g.mass > 60.0 && g.area90 < 1000.0 && g.far > 10.0
  }

  /** `good_events`, in dictionary order. */
  function PriorityIds(ids: seq<string>, events: map<string, EventSummary>): (r: seq<string>)
    requires forall id :: id in ids ==> id in events
    ensures |r| <= |ids|
    ensures forall id :: id in r <==> id in ids && Priority(events[id].gw)
  {
    if ids == [] then []
    else (if Priority(events[ids[0]].gw) then [ids[0]] else []) + PriorityIds(ids[1..], events)
  }

  /**
   * `assign_status`: no AGN when the event has none crossmatched or nothing
   * was submitted; needs ZFPS when never requested; otherwise update or
   * complete by the age of the last request in whole days, and error when
   * that date does not parse. `daysSince` gives the whole days since a
   * `%Y-%m-%d %H:%M:%S.%f` text, None when it does not parse.
   */
  function AssignStatus(text: string, noCrossmatch: bool, daysSince: string -> Option<int>): (r: ZfpsStatus)
    ensures r == NoAgn <==> noCrossmatch || text == NoAgnText
    ensures r == NeedsZfps <==> !noCrossmatch && text == ""
    ensures r == StatusError <==> !noCrossmatch && text != NoAgnText && text != "" && daysSince(text).None?
    ensures r == UpdateZfps <==> (!noCrossmatch && text != NoAgnText && text != "" && daysSince(text).Some?
                                  && daysSince(text).value <= StatusWindowDays)
    ensures r == Complete <==> (!noCrossmatch && text != NoAgnText && text != "" && daysSince(text).Some?
                                && daysSince(text).value > StatusWindowDays)
  {
    if noCrossmatch || text == NoAgnText then NoAgn
    else if text == "" then NeedsZfps
    else match daysSince(text)
      case None => StatusError
      case Some(days) => if days <= StatusWindowDays then UpdateZfps else Complete
  }

  function RowFor(id: string, e: EventSummary, daysSince: string -> Option<int>, triggers: seq<string>): StatusRow
  {
    var text := e.dateLastZfps.GetOr("");
    StatusRow(id, text, AssignStatus(text, e.nAgnCatnorth == 0, daysSince), id in triggers)
  }

  /** The rows for `good` in reverse order (`iloc[::-1]`). */
  function RowsReversed(good: seq<string>, events: map<string, EventSummary>, daysSince: string -> Option<int>, triggers: seq<string>): (r: seq<StatusRow>)
    requires forall id :: id in good ==> id in events
    ensures |r| == |good|
    ensures forall k :: 0 <= k < |r| ==> r[k] == RowFor(good[|good| - 1 - k], events[good[|good| - 1 - k]], daysSince, triggers)
  {
    if good == [] then []
    else
      var rest := RowsReversed(good[1..], events, daysSince, triggers);
      rest + [RowFor(good[0], events[good[0]], daysSince, triggers)]
  }

  function Table(f: EventsFile, daysSince: string -> Option<int>, triggers: seq<string>): (r: seq<StatusRow>)
    requires WellKeyed(f)
  {
    RowsReversed(PriorityIds(f.ids, f.events), f.events, daysSince, triggers)
  }

  /**
   * flares_utils/photometry_utils.py:22-66: nothing when the events file
   * cannot be read; otherwise one row per priority event, newest first.
   */
  function ShowStatus(file: Option<EventsFile>, daysSince: string -> Option<int>): (r: Option<seq<StatusRow>>)
    requires file.Some? ==> WellKeyed(file.value)
    ensures file.None? <==> r.None?
    ensures r.Some? ==> forall id :: (exists k :: 0 <= k < |r.value| && r.value[k].id == id)
                                  <==> id in file.value.ids && Priority(file.value.events[id].gw)
    ensures r.Some? ==> forall k :: 0 <= k < |r.value| ==> (r.value[k].trigger <==> r.value[k].id in TriggerList)
  {
    match file
    case None => None
    case Some(f) =>
      TableRows(f, daysSince, TriggerList);
      Some(Table(f, daysSince, TriggerList))
  }

  /** The table lists exactly the priority events, each flagged when it is in `triggers`. */
  lemma TableRows(f: EventsFile, daysSince: string -> Option<int>, triggers: seq<string>)
    requires WellKeyed(f)
    ensures var rows := Table(f, daysSince, triggers);
      (forall id :: (exists k :: 0 <= k < |rows| && rows[k].id == id) <==> id in f.ids && Priority(f.events[id].gw))
      && forall k :: 0 <= k < |rows| ==> (rows[k].trigger <==> rows[k].id in triggers)
  {
    var good := PriorityIds(f.ids, f.events);
    var rows := Table(f, daysSince, triggers);
    RowIds(good, f.events, daysSince, triggers);
    forall id ensures (exists k :: 0 <= k < |rows| && rows[k].id == id) <==> id in good {
      if id in good {
        var j :| 0 <= j < |good| && good[j] == id;
        assert rows[|good| - 1 - j].id == id;
      }
    }
  }

  /** Each reversed row is the row of its event, flagged by `triggers`. */
  lemma RowIds(good: seq<string>, events: map<string, EventSummary>, daysSince: string -> Option<int>, triggers: seq<string>)
    requires forall id :: id in good ==> id in events
    ensures var rows := RowsReversed(good, events, daysSince, triggers);
      forall k :: 0 <= k < |rows| ==> rows[k].id == good[|good| - 1 - k] && (rows[k].trigger <==> rows[k].id in triggers)
  {
    var rows := RowsReversed(good, events, daysSince, triggers);
    forall k | 0 <= k < |rows|
      ensures rows[k].id == good[|good| - 1 - k] && (rows[k].trigger <==> rows[k].id in triggers)
    {
      var id := good[|good| - 1 - k];
      assert rows[k] == RowFor(id, events[id], daysSince, triggers);
    }
  }

  /** FlareBot/bot/photometry_utils.py:29-72: the same table with the earlier trigger list. */
  function ShowStatusFlareBot(file: Option<EventsFile>, daysSince: string -> Option<int>): (r: Option<seq<StatusRow>>)
    requires file.Some? ==> WellKeyed(file.value)
    ensures file.None? <==> r.None?
  {
    match file
    case None => None
    case Some(f) => Some(Table(f, daysSince, TriggerListBefore))
  }

  /**
   * emfollowup/photometry_utils.py:29-74: only the O4a and O4b files are
   * read, with no guard; any other run leaves the dictionary unbound
   * (UnboundLocalError, a NameError) and a missing file raises.
   */
  function ShowStatusEmFollowup(run: string, o4a: Option<EventsFile>, o4b: Option<EventsFile>, daysSince: string -> Option<int>): (r: Result<seq<StatusRow>>)
    requires o4a.Some? ==> WellKeyed(o4a.value)
    requires o4b.Some? ==> WellKeyed(o4b.value)
    ensures run != "O4a" && run != "O4b" ==> r == Err(NameError)
    ensures run == "O4b" ==> (r.Ok? <==> o4b.Some?)
    ensures run == "O4a" ==> (r.Ok? <==> o4a.Some?)
    ensures r.Err? ==> r.error == NameError || r.error == OSError
  {
    var file := if run == "O4b" then o4b else if run == "O4a" then o4a else None;
    if run != "O4a" && run != "O4b" then Err(NameError)
    else match file
      case None => Err(OSError)
      case Some(f) => Ok(Table(f, daysSince, TriggerListBefore))
  }

  /** The two lists differ in the last trigger only. */
  lemma TriggerListsDiffer(id: string)
    ensures id in TriggerList <==> id in TriggerListBefore || id == LastTrigger
  {
    assert TriggerList == TriggerListBefore + [LastTrigger];
  }

  /**
   * The FlareBot table is the current one with the Trigger flag of the
   * last trigger cleared, and the emfollowup table for a run it can read is
   * the FlareBot one.
   */
  lemma {:induction false} StatusVersionsAgree(f: EventsFile, daysSince: string -> Option<int>)
    requires WellKeyed(f)
    ensures var now, before := ShowStatus(Some(f), daysSince).value, ShowStatusFlareBot(Some(f), daysSince).value;
      |now| == |before| && forall k :: 0 <= k < |now| ==> before[k] == now[k].(trigger := now[k].trigger && now[k].id != LastTrigger)
    ensures ShowStatusEmFollowup("O4b", None, Some(f), daysSince) == Ok(ShowStatusFlareBot(Some(f), daysSince).value)
    ensures ShowStatusEmFollowup("O4a", Some(f), None, daysSince) == Ok(ShowStatusFlareBot(Some(f), daysSince).value)
  {
    var now, before := ShowStatus(Some(f), daysSince).value, ShowStatusFlareBot(Some(f), daysSince).value;
    forall k | 0 <= k < |now|
      ensures before[k] == now[k].(trigger := now[k].trigger && now[k].id != LastTrigger)
    {
      TriggerListsDiffer(now[k].id);
    }
  }
}
