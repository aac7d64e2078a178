/**
 * Adding audited events to the events dictionary (`NewEventsToDict` in
 * flares_utils/new_events_utils.py and FlareBot/bot/new_events_utils.py):
 * each event's gw summary, its trigger verdict and, for triggered events,
 * the plan it was triggered with and the dates of its follow-up cadence.
 */
module NewEventsDict {
  import opened Wrappers
  import CivilDates
  import PhotoLog
  import TriggerAudit

  /** A JSON value as the dictionary stores it. */
  datatype Cell = IntCell(i: int) | RealCell(x: real) | TextCell(s: string)

  /** A cell of the cadence column: "" or the list of follow-up dates. */
  datatype Cadence = NoCadence | CadenceDates(dates: seq<string>)

  /**
   * One start of `generate_cadence_dates`: "" stays "", anything else is a
   * "%Y-%m-%dT%H:%M:%S.%f" time whose day gives the six follow-up dates.
   */
  function CadenceOf(start: string): (r: Result<Cadence>)
    ensures r.Ok? ==> (r.value == NoCadence <==> start == "")
    ensures start != "" && CivilDates.ParseMicro(start).None? ==> r == Err(ValueError)
    ensures r.Ok? && r.value.CadenceDates? ==>
      var d := CivilDates.ParseMicro(start).value.date;
      |r.value.dates| == |CivilDates.CadenceOffsets|
      && forall i :: 0 <= i < |CivilDates.CadenceOffsets| ==>
        CivilDates.ParseDate(r.value.dates[i]).Some?
        && CivilDates.DayNumber(CivilDates.ParseDate(r.value.dates[i]).value) == CivilDates.DayNumber(d) + CivilDates.CadenceOffsets[i]
  {
    if start == "" then Ok(NoCadence)
    else match CivilDates.ParseMicro(start)
      case None => Err(ValueError)
      case Some(t) =>
        match CivilDates.CadenceFrom(t.date)
        case None => Err(OverflowError)
        case Some(ds) => Ok(CadenceDates(ds))
  }

  /** The cadence column: one cell per start, in order; the first failure raises. */
  function Cadences(starts: seq<string>): (r: Result<seq<Cadence>>)
    ensures r.Ok? <==> forall k :: 0 <= k < |starts| ==> CadenceOf(starts[k]).Ok?
    ensures r.Ok? ==> |r.value| == |starts| && forall k :: 0 <= k < |starts| ==> Ok(r.value[k]) == CadenceOf(starts[k])
  {
    MapAll(CadenceOf, starts)
  }

  /** `generate_cadence_dates`, with its loop. */
  method GenerateCadenceDates(inputDates: seq<string>) returns (result: seq<Cadence>, raised: Option<Raised>)
    ensures raised.None? <==> Cadences(inputDates).Ok?
    ensures raised.None? ==> result == Cadences(inputDates).value
  {
    result := [];
    raised := None;
    var i := 0;
    while i < |inputDates|
      invariant 0 <= i <= |inputDates| && |result| == i
      invariant forall k :: 0 <= k < i ==> CadenceOf(inputDates[k]) == Ok(result[k])
    {
      var c := CadenceOf(inputDates[i]);
      if c.Err? {
        assert !CadenceOf(inputDates[i]).Ok?;
        raised := Some(c.error);
        return;
      }
      result := result + [c.value];
      i := i + 1;
    }
    MapAllOk(CadenceOf, inputDates, result);
  }

  /** Python's `int()` of a float: truncation toward zero. */
  function Truncate(x: real): (n: int)
    ensures x >= 0.0 ==> n as real <= x < n as real + 1.0
  {
    if x >= 0.0 then x.Floor else -((-x).Floor)
  }

  /** `round(p, 2)`, rounding half to even on the exact value. */
  function Round2(p: real): real
  {
    PhotoLog.RoundHalfEven(p * 100.0) as real / 100.0
  }

  /**
   * The current version stores the plan probability as `int(round(p, 2))`:
   * 0 for every probability below 0.995, and 1 from there up to 1.995.
   */
  lemma StoredProbability(p: real)
    requires 0.0 <= p < 1.995
    ensures Truncate(Round2(p)) == if p < 0.995 then 0 else 1
  {
    var n := PhotoLog.RoundHalfEven(p * 100.0);
    assert 0 <= n;
    if p < 0.995 {
      assert n < 100;
    } else {
      assert 100 <= n < 200 by {
        if p * 100.0 == 99.5 {
          assert n == 99 || n == 100;
        }
      }
    }
  }

  /** The formatted gw columns of one event (formatting of the numbers is not modelled). */
  datatype GwColumns = GwColumns(mjd: int, a90: int, a50: int, distance: real, far: Cell, mass: int, chirpMass: int, gcnid: string)

  /** An event from the alerts: its id and its gw columns. */
  datatype EventColumns = EventColumns(id: string, columns: GwColumns)

  type Version = TriggerAudit.Version

  const ChirpMassKey: string := "Chirp Mass (left edge)"
  const TriggerKey: string := "trigger"
  const MjdKey: string := "GW MJD"

  /** The keys of the gw section that are refreshed for events already stored. */
  function UpdatedKeys(version: Version): set<string>
  {
    {"Days since GW", "90% Area (deg2)", "50% Area (deg2)", "Distance (Gpc)", "FAR (years/FA)", "Mass (M_sol)",
     "gcnids", TriggerKey} + (if version == TriggerAudit.Current then {ChirpMassKey} else {})
  }

  /** The gw section of a new event; the FlareBot table has no chirp-mass column. */
  function GwOf(version: Version, g: GwColumns, trigger: string): (r: map<string, Cell>)
    ensures MjdKey in r && TriggerKey in r && r[TriggerKey] == TextCell(trigger)
    ensures ChirpMassKey in r <==> version == TriggerAudit.Current
  {
    var m := map[MjdKey := IntCell(g.mjd), "90% Area (deg2)" := IntCell(g.a90), "50% Area (deg2)" := IntCell(g.a50),
                 "Distance (Gpc)" := RealCell(g.distance), "FAR (years/FA)" := g.far, "Mass (M_sol)" := IntCell(g.mass),
                 "gcnids" := TextCell(g.gcnid), TriggerKey := TextCell(trigger)];
    if version == TriggerAudit.Current then m[ChirpMassKey := IntCell(g.chirpMass)] else m
  }

  /** One row of the new events table. */
  datatype NewRow = NewRow(id: string, gw: map<string, Cell>, trigger: string,
                           planTime: Cell, planProbability: Cell, planStart: string, cadence: Cadence)

  /** The plan columns of a verdict: "" for a verdict without figures. */
  function PlanTime(version: Version, v: TriggerAudit.Verdict): Cell
  {
    match v.figures
    case None => TextCell("")
    case Some(f) => if version == TriggerAudit.Current then IntCell(Truncate(f.totalTime)) else RealCell(f.totalTime)
  }

  function PlanProbability(version: Version, v: TriggerAudit.Verdict): Cell
  {
    match v.figures
    case None => TextCell("")
    case Some(f) => if version == TriggerAudit.Current then IntCell(Truncate(Round2(f.probability))) else RealCell(Round2(f.probability))
  }

  function PlanStart(v: TriggerAudit.Verdict): string
  {
    match v.figures
    case None => ""
    case Some(f) => f.start
  }

  function Starts(statuses: seq<TriggerAudit.Verdict>): (r: seq<string>)
    ensures |r| == |statuses| && forall k :: 0 <= k < |r| ==> r[k] == PlanStart(statuses[k])
  {
    if statuses == [] then [] else [PlanStart(statuses[0])] + Starts(statuses[1..])
  }

  predicate Distinct(rows: seq<NewRow>)
  {
    forall i, j :: 0 <= i < j < |rows| ==> rows[i].id != rows[j].id
  }

  function RowsOf(version: Version, events: seq<EventColumns>, statuses: seq<TriggerAudit.Verdict>, cadences: seq<Cadence>): (r: seq<NewRow>)
    requires |events| == |statuses| == |cadences|
    ensures |r| == |events|
    ensures forall k :: 0 <= k < |r| ==> (r[k] ==
      NewRow(events[k].id, GwOf(version, events[k].columns, statuses[k].reason), statuses[k].reason,
             PlanTime(version, statuses[k]), PlanProbability(version, statuses[k]), PlanStart(statuses[k]), cadences[k]))
  {
    if events == [] then []
    else
      [NewRow(events[0].id, GwOf(version, events[0].columns, statuses[0].reason), statuses[0].reason,
              PlanTime(version, statuses[0]), PlanProbability(version, statuses[0]), PlanStart(statuses[0]), cadences[0])]
      + RowsOf(version, events[1..], statuses[1..], cadences[1..])
  }

  /**
   * The new events table: the cadence column is computed first, then the
   * columns must have one value per event and the ids must be unique to
   * become dictionary keys; ValueError otherwise.
   */
  function Table(version: Version, events: seq<EventColumns>, statuses: seq<TriggerAudit.Verdict>): (r: Result<seq<NewRow>>)
    ensures r.Ok? ==> |r.value| == |events| == |statuses| && Distinct(r.value)
    ensures r.Ok? ==> forall k :: 0 <= k < |events| ==> r.value[k].id == events[k].id && r.value[k].trigger == statuses[k].reason
    ensures Cadences(Starts(statuses)).Ok? && |events| != |statuses| ==> r == Err(ValueError)
  {
    match Cadences(Starts(statuses))
    case Err(e) => Err(e)
    case Ok(cadences) =>
      if |events| != |statuses| then Err(ValueError)
      else
        var rows := RowsOf(version, events, statuses, cadences);
        if Distinct(rows) then Ok(rows) else Err(ValueError)
  }

  /** The plan of a triggered event, as the dictionary keeps it. */
  datatype TriggerPlan = TriggerPlan(time: Cell, probability: Cell, start: string, cadence: Cadence)

  /** The AGN counts of an event's crossmatch; an empty section is `None`. */
  datatype CrossmatchStats = CrossmatchStats(nAgnCatnorth: Option<nat>, nAgnQuaia: Option<nat>)

  /** An event in the dictionary: its gw section (with its trigger plan) and its crossmatch and flare sections. */
  datatype StoredEvent = StoredEvent(gw: map<string, Cell>, triggerPlan: Option<TriggerPlan>,
                                     crossmatch: Option<CrossmatchStats>, flare: map<string, Cell>)

  /** Events whose plan is kept whatever their verdict. */
  const PlanKept: seq<string> := ["S241210cw", "S241130n", "S241129aa", "S240924a"]

  predicate KeepsPlan(row: NewRow)
  {
    row.trigger == TriggerAudit.Triggered || row.trigger == TriggerAudit.BadTrigger || row.id in PlanKept
  }

  /** `int()` of a plan cell in the current version; the empty text raises ValueError. */
  function AsInt(c: Cell): (r: Result<Cell>)
    ensures r.Err? <==> c.TextCell?
  {
    match c
    case IntCell(i) => Ok(IntCell(i))
    case RealCell(x) => Ok(IntCell(Truncate(x)))
    case TextCell(_) => Err(ValueError)
  }

  function PlanOf(version: Version, row: NewRow): (r: Result<TriggerPlan>)
    ensures version == TriggerAudit.FlareBot ==> r == Ok(TriggerPlan(row.planTime, row.planProbability, row.planStart, row.cadence))
  {
    if version == TriggerAudit.FlareBot then Ok(TriggerPlan(row.planTime, row.planProbability, row.planStart, row.cadence))
    else match AsInt(row.planTime)
      case Err(e) => Err(e)
      case Ok(t) =>
        match AsInt(row.planProbability)
        case Err(e) => Err(e)
        case Ok(p) => Ok(TriggerPlan(t, p, row.planStart, row.cadence))
  }

  /** `base` with the refreshed keys of `newer` written over it. */
  function Refreshed(version: Version, base: map<string, Cell>, newer: map<string, Cell>): (r: map<string, Cell>)
    ensures forall k :: k in r <==> k in base || (k in newer && k in UpdatedKeys(version))
    ensures forall k :: k in r ==> r[k] == if k in newer && k in UpdatedKeys(version) then newer[k] else base[k]
  {
    map k | k in base.Keys + (newer.Keys * UpdatedKeys(version)) ::
      if k in newer && k in UpdatedKeys(version) then newer[k] else base[k]
  }

  /** One turn of the merge loop of `save_data`. */
  function MergeRow(version: Version, store: map<string, StoredEvent>, row: NewRow): (r: Result<map<string, StoredEvent>>)
  {
    var base := if row.id in store then store[row.id] else StoredEvent(row.gw, None, None, map[]);
    var gw := Refreshed(version, base.gw, row.gw);
    if KeepsPlan(row) then
      match PlanOf(version, row)
      case Err(e) => Err(e)
      case Ok(plan) => Ok(store[row.id := base.(gw := gw, triggerPlan := Some(plan))])
    else Ok(store[row.id := base.(gw := gw)])
  }

  /** The merge loop from a running dictionary. */
  function MergeFrom(version: Version, store: map<string, StoredEvent>, rows: seq<NewRow>): (r: Result<map<string, StoredEvent>>)
    decreases |rows|
  {
    if rows == [] then Ok(store)
    else match MergeRow(version, store, rows[0])
      case Err(e) => Err(e)
      case Ok(next) => MergeFrom(version, next, rows[1..])
  }

  /** Some row of the table is about event `id`. */
  predicate Lists(rows: seq<NewRow>, id: string)
  {
    exists k :: 0 <= k < |rows| && rows[k].id == id
  }

  lemma ListsTail(rows: seq<NewRow>, id: string)
    requires rows != []
    ensures Lists(rows, id) <==> rows[0].id == id || Lists(rows[1..], id)
  {
    if Lists(rows[1..], id) {
      var k :| 0 <= k < |rows[1..]| && rows[1..][k].id == id;
      assert rows[k + 1].id == id;
    }
    if Lists(rows, id) && rows[0].id != id {
      var k :| 0 <= k < |rows| && rows[k].id == id;
      assert rows[1..][k - 1].id == id;
    }
  }

  /** The order of the table does not matter for events it does not list, nor do the keys shrink. */
  lemma {:induction false} MergeKeepsOthers(version: Version, store: map<string, StoredEvent>, rows: seq<NewRow>)
    requires MergeFrom(version, store, rows).Ok?
    ensures var r := MergeFrom(version, store, rows).value;
      (forall id :: id in r <==> id in store || Lists(rows, id))
      && forall id :: id in store && !Lists(rows, id) ==> r[id] == store[id]
    decreases |rows|
  {
    if rows != [] {
      var next := MergeRow(version, store, rows[0]).value;
      MergeRowKeys(version, store, rows[0]);
      MergeKeepsOthers(version, next, rows[1..]);
      forall id ensures Lists(rows, id) <==> rows[0].id == id || Lists(rows[1..], id) {
        ListsTail(rows, id);
      }
    }
  }

  /** One merge turn adds its event's key and leaves every other event alone. */
  lemma MergeRowKeys(version: Version, store: map<string, StoredEvent>, row: NewRow)
    requires MergeRow(version, store, row).Ok?
    ensures var r := MergeRow(version, store, row).value;
      r.Keys == store.Keys + {row.id} && forall id :: id in store && id != row.id ==> r[id] == store[id]
  {
  }

  /** What one merge turn does to the event it is about. */
  lemma MergedEvent(version: Version, store: map<string, StoredEvent>, row: NewRow)
    requires MergeRow(version, store, row).Ok?
    ensures var e := MergeRow(version, store, row).value[row.id];
      && (row.id !in store ==> e.gw == row.gw && e.crossmatch.None? && e.flare == map[])
      && (row.id in store ==> (e.crossmatch == store[row.id].crossmatch && e.flare == store[row.id].flare
            && (forall k :: k in e.gw <==> k in store[row.id].gw || (k in row.gw && k in UpdatedKeys(version)))
            && (forall k :: k in store[row.id].gw && !(k in row.gw && k in UpdatedKeys(version)) ==> e.gw[k] == store[row.id].gw[k])))
      && (KeepsPlan(row) ==> e.triggerPlan.Some? && e.triggerPlan.value.start == row.planStart && e.triggerPlan.value.cadence == row.cadence)
      && (!KeepsPlan(row) && row.id in store ==> e.triggerPlan == store[row.id].triggerPlan)
    ensures forall id :: id in store && id != row.id ==>
      (id in MergeRow(version, store, row).value && MergeRow(version, store, row).value[id] == store[id])
  {
  }

  /**
   * A stored event keeps its recorded MJD, crossmatch and flare sections
   * when it comes again; the current version fails on a kept plan without
   * figures, the FlareBot one never fails here.
   */
  lemma RefreshKeepsMjd(version: Version, store: map<string, StoredEvent>, row: NewRow)
    requires row.id in store && MjdKey in store[row.id].gw
    ensures version == TriggerAudit.FlareBot ==> MergeRow(version, store, row).Ok?
    ensures MergeRow(version, store, row).Ok? ==>
      MergeRow(version, store, row).value[row.id].gw[MjdKey] == store[row.id].gw[MjdKey]
  {
    assert MjdKey !in UpdatedKeys(version);
  }

  /** What `save_data` returns (the table, or None) and the dictionary left on disk. */
  datatype Saved = Saved(table: Result<Option<seq<NewRow>>>, events: map<string, StoredEvent>)

  /**
   * `save_data`. The current version returns None and writes nothing for an
   * empty table, and writes unless testing; the FlareBot one writes when
   * the run does not ask first or the answer to its question is yes.
   */
  function SaveData(version: Version, store: map<string, StoredEvent>, events: seq<EventColumns>,
                    statuses: seq<TriggerAudit.Verdict>, write: bool): (r: Saved)
    ensures r.table.Err? || !write ==> r.events == store
    ensures r.table.Ok? && r.table.value.Some? && write ==>
      Table(version, events, statuses).Ok? && Ok(r.events) == MergeFrom(version, store, Table(version, events, statuses).value)
    ensures version == TriggerAudit.Current && r.table.Ok? ==> (r.table.value.None? <==> events == [])
  {
    match Table(version, events, statuses)
    case Err(e) => Saved(Err(e), store)
    case Ok(rows) =>
      match MergeFrom(version, store, rows)
      case Err(e) => Saved(Err(e), store)
      case Ok(merged) =>
        if version == TriggerAudit.Current && rows == [] then Saved(Ok(None), store)
        else Saved(Ok(Some(rows)), if write then merged else store)
  }

  /** The merge loop of `save_data`, on a copy of the dictionary. */
  method Merge(version: Version, store: map<string, StoredEvent>, rows: seq<NewRow>) returns (r: Result<map<string, StoredEvent>>)
    ensures r == MergeFrom(version, store, rows)
  {
    var merged := store;
    var i := 0;
    while i < |rows|
      invariant 0 <= i <= |rows|
      invariant MergeFrom(version, store, rows) == MergeFrom(version, merged, rows[i..])
    {
      assert rows[i..][0] == rows[i] && rows[i..][1..] == rows[i + 1..];
      var next := MergeRow(version, merged, rows[i]);
      if next.Err? {
        return Err(next.error);
      }
      merged := next.value;
      i := i + 1;
    }
    assert rows[i..] == [];
    return Ok(merged);
  }

  /** The events dictionary file as `NewEventsToDict` reads and writes it. */
  class NewEventsToDict {
    var events: map<string, StoredEvent>

    constructor (stored: map<string, StoredEvent>)
      ensures events == stored
    {
      events := stored;
    }

    /**
     * `save_data` with its merge loop: the dictionary is written once, after
     * the loop, so a failure leaves it as it was. `write` is `not testing`
     * in the current version and, in the FlareBot one, whether the run saves
     * without asking or the answer typed is "yes".
     */
    method SaveDataToFile(version: Version, params: seq<EventColumns>, statuses: seq<TriggerAudit.Verdict>, write: bool)
      returns (table: Result<Option<seq<NewRow>>>)
      modifies this
      ensures Saved(table, events) == SaveData(version, old(events), params, statuses, write)
    {
      var rows := Table(version, params, statuses);
      if rows.Err? {
        return Err(rows.error);
      }
      var merged := Merge(version, events, rows.value);
      if merged.Err? {
        return Err(merged.error);
      }
      if version == TriggerAudit.Current && rows.value == [] {
        return Ok(None);
      }
      if write {
        events := merged.value;
      }
      table := Ok(Some(rows.value));
    }
  }
}
