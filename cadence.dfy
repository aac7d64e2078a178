/**
 * The cadence bot of trigger_utils/cadence_utils.py and cadence.py: it
 * reads the trigger log, decides for each pending plan whether to wait,
 * check it, or give up on it, moves checked and abandoned plans between the
 * observation columns, collects the follow-ups due today from the stored
 * cadence, and re-triggers ZTF for the follow-ups and the unobserved plans.
 */
module Cadence {
  import opened Wrappers
  import opened PyText
  import opened TriggerLog
  import opened PlanUtils
  import opened Admission
  import CivilDates

  // ---------------------------------------------------------------------
  // Instants: astropy `Time(text)` on the ISO forms the log holds, in days

  function DayFraction(t: CivilDates.DateTime): real
  {
    ((t.hour * 3600 + t.minute * 60 + t.second) as real + t.micro as real / 1000000.0) / 86400.0
  }

  function InstantOf(t: CivilDates.DateTime): real
    requires CivilDates.ValidDateTime(t)
  {
    CivilDates.DayNumber(t.date) as real + DayFraction(t)
  }

  /** The "iso" form `YYYY-MM-DD hh:mm:ss` differs from "isot" only in its separator. */
  function IsotForm(s: string): string
  {
    if |s| > 10 && s[10] == ' ' then s[..10] + "T" + s[11..] else s
  }

  /**
   * `Time(s)` as a day count: a timestamp with or without a fraction, or a
   * bare date for its midnight; `None` where astropy raises `ValueError`.
   */
  function Instant(s: string): Option<real>
  {
    var u := IsotForm(s);
    match CivilDates.ParseMicro(u)
    case Some(t) => Some(InstantOf(t))
    case None =>
      match CivilDates.ParseSeconds(u)
      case Some(t) => Some(InstantOf(t))
      case None =>
        match CivilDates.ParseDate(u)
        case Some(d) => Some(CivilDates.DayNumber(d) as real)
        case None => None
  }

  /** A "%Y-%m-%d" text is the midnight of its date. */
  lemma DateInstant(s: string)
    requires CivilDates.ParseDate(s).Some?
    ensures Instant(s) == Some(CivilDates.DayNumber(CivilDates.ParseDate(s).value) as real)
  {
  }

  /** No text starting with a space is a time astropy reads. */
  lemma LeadingSpaceInstant(s: string)
    requires |s| > 0 && s[0] == ' '
    ensures Instant(s).None?
  {
    var u := IsotForm(s);
    assert u[0] == ' ';
    CivilDates.LeadingSpaceRejected(u);
    if |u| == 10 {
      assert u[..4][0] == ' ';
      assert !AllDigits(u[..4]);
    }
  }

  /**
   * The clock the cadence bot reads: `Time.now()` and astropy's reader of
   * a time text, which the model takes as given (`Instant` is the reading of
   * the ISO forms the log holds).
   */
  datatype Clock = Clock(now: real, time: string -> Option<real>)

  function Abs(x: real): real
  {
    if x < 0.0 then -x else x
  }

  // ---------------------------------------------------------------------
  // check_pending_observations

  /** The rows the cadence bot looks at: `row.valid != 'True'` skips the rest. */
  predicate Examined(r: Row)
  {
    r.valid == Some("True")
  }

  /**
   * One entry of `check_pending`: a plan to check for executed observations
   * (its "(id,start)" text and the event's ids), or an event given up on
   * (carrying its whole pending cell).
   */
  datatype PendingEntry =
    | Check(id: string, item: string, gcnId: Cell, localizationId: Cell, dateobs: Cell)
    | GiveUp(id: string, cell: string)

  function CheckOf(r: Row, item: string): PendingEntry
  {
    Check(r.supereventId, item, r.gcnId, r.localizationId, r.dateobs)
  }

  /** The plan starts after now. */
  predicate Upcoming(p: QueuedPlan, c: Clock)
  {
    c.time(p.start).Some? && c.now < c.time(p.start).value
  }

  /** The plan started at most two days ago. */
  predicate Due(p: QueuedPlan, c: Clock)
  {
    c.time(p.start).Some? && 0.0 <= c.now - c.time(p.start).value <= 2.0
  }

  /** The plan started more than two days ago. */
  predicate Expired(p: QueuedPlan, c: Clock)
  {
    c.time(p.start).Some? && c.now - c.time(p.start).value > 2.0
  }

  /**
   * The classification of one pending plan (cadence_utils.py:29-46):
   * nothing before its start, a check entry within two days after it, and a
   * give-up entry for the whole cell later; an unreadable start raises.
   */
  function ItemEntry(r: Row, cell: string, p: QueuedPlan, c: Clock): (e: Result<Option<PendingEntry>>)
    ensures e.Err? <==> c.time(p.start).None?
    ensures e.Err? ==> e.error == ValueError
    ensures e == Ok(None) <==> Upcoming(p, c)
    ensures e == Ok(Some(CheckOf(r, PlanText(p)))) <==> Due(p, c)
    ensures e == Ok(Some(GiveUp(r.supereventId, cell))) <==> Expired(p, c)
    ensures e.Ok? && e.value.Some? ==> e.value.value == CheckOf(r, PlanText(p)) || e.value.value == GiveUp(r.supereventId, cell)
  {
    match c.time(p.start)
    case None => Err(ValueError)
    case Some(t) =>
      if c.now < t then Ok(None)
      else if Abs(c.now - t) <= 2.0 then Ok(Some(CheckOf(r, PlanText(p))))
      else Ok(Some(GiveUp(r.supereventId, cell)))
  }

  function Listed<T>(o: Option<T>): (s: seq<T>)
    ensures |s| <= 1 && (o.Some? ==> s == [o.value]) && (o.None? ==> s == [])
  {
    if o.None? then [] else [o.value]
  }

  /** The entries of a finished computation put after `acc`; an exception stays one. */
  function Prepend<T>(acc: seq<T>, r: Result<seq<T>>): Result<seq<T>>
  {
    match r
    case Err(e) => Err(e)
    case Ok(x) => Ok(acc + x)
  }

  lemma PrependNothing<T>(r: Result<seq<T>>)
    ensures Prepend([], r) == r
  {
    if r.Ok? {
      assert [] + r.value == r.value;
    }
  }

  lemma PrependTwice<T>(a: seq<T>, b: seq<T>, r: Result<seq<T>>)
    ensures Prepend(a, Prepend(b, r)) == Prepend(a + b, r)
  {
    if r.Ok? {
      assert a + (b + r.value) == (a + b) + r.value;
    }
  }

  /** The entries of a row's plans, in the order the cell lists them. */
  function ItemEntries(r: Row, cell: string, ps: seq<QueuedPlan>, c: Clock): (e: Result<seq<PendingEntry>>)
    ensures e.Ok? ==> |e.value| <= |ps|
    ensures e.Err? <==> exists k :: 0 <= k < |ps| && c.time(ps[k].start).None?
    ensures e.Ok? ==> forall x :: x in e.value ==>
      x == GiveUp(r.supereventId, cell) || exists k :: 0 <= k < |ps| && Due(ps[k], c) && x == CheckOf(r, PlanText(ps[k]))
    ensures (forall k :: 0 <= k < |ps| ==> Upcoming(ps[k], c)) ==> e == Ok([])
    ensures e.Ok? && (exists k :: 0 <= k < |ps| && Expired(ps[k], c)) ==> GiveUp(r.supereventId, cell) in e.value
    ensures e.Ok? ==> forall k :: 0 <= k < |ps| && Due(ps[k], c) ==> CheckOf(r, PlanText(ps[k])) in e.value
  {
    if ps == [] then Ok([])
    else
      match ItemEntry(r, cell, ps[0], c)
      case Err(e) => Err(e)
      case Ok(head) =>
        var rest := ItemEntries(r, cell, ps[1..], c);
        if rest.Err? then
          assert forall k :: 0 <= k < |ps[1..]| ==> ps[1..][k] == ps[k + 1];
          rest
        else
          EntriesCons(r, cell, ps, c, head, rest.value);
          Ok(Listed(head) + rest.value)
  }

  /** The entries of a row's first plan, then those of its other plans. */
  lemma EntriesCons(r: Row, cell: string, ps: seq<QueuedPlan>, c: Clock, head: Option<PendingEntry>, rest: seq<PendingEntry>)
    requires |ps| > 0 && c.time(ps[0].start).Some?
    requires head.None? <==> Upcoming(ps[0], c)
    requires head == Some(CheckOf(r, PlanText(ps[0]))) <==> Due(ps[0], c)
    requires head == Some(GiveUp(r.supereventId, cell)) <==> Expired(ps[0], c)
    requires head.Some? ==> head.value == CheckOf(r, PlanText(ps[0])) || head.value == GiveUp(r.supereventId, cell)
    requires |rest| <= |ps| - 1
    requires forall k :: 1 <= k < |ps| ==> c.time(ps[k].start).Some?
    requires forall x :: x in rest ==>
      x == GiveUp(r.supereventId, cell) || exists k :: 1 <= k < |ps| && Due(ps[k], c) && x == CheckOf(r, PlanText(ps[k]))
    requires (forall k :: 1 <= k < |ps| ==> Upcoming(ps[k], c)) ==> rest == []
    requires (exists k :: 1 <= k < |ps| && Expired(ps[k], c)) ==> GiveUp(r.supereventId, cell) in rest
    requires forall k :: 1 <= k < |ps| && Due(ps[k], c) ==> CheckOf(r, PlanText(ps[k])) in rest
    ensures var all := Listed(head) + rest;
      |all| <= |ps|
      && (forall x :: x in all ==>
            x == GiveUp(r.supereventId, cell) || exists k :: 0 <= k < |ps| && Due(ps[k], c) && x == CheckOf(r, PlanText(ps[k])))
      && ((forall k :: 0 <= k < |ps| ==> Upcoming(ps[k], c)) ==> all == [])
      && ((exists k :: 0 <= k < |ps| && Expired(ps[k], c)) ==> GiveUp(r.supereventId, cell) in all)
      && (forall k :: 0 <= k < |ps| && Due(ps[k], c) ==> CheckOf(r, PlanText(ps[k])) in all)
  {
    var all := Listed(head) + rest;
    assert forall x :: x in all <==> x in Listed(head) || x in rest;
    if head.Some? && head.value == CheckOf(r, PlanText(ps[0])) {
      assert Due(ps[0], c);
    }
  }

  /** The entries of one row of the log, or the exception its pending cell raises. */
  function RowEntries(r: Row, c: Clock): (e: Result<seq<PendingEntry>>)
    ensures !Examined(r) || r.pending.None? ==> e == Ok([])
    ensures e.Ok? ==> forall x :: x in e.value ==> x.id == r.supereventId
    ensures e.Ok? ==> forall x :: x in e.value && x.GiveUp? ==> r.pending == Some(x.cell)
    ensures e.Ok? ==> forall x :: x in e.value && x.Check? ==> x == CheckOf(r, x.item)
  {
    if !Examined(r) || r.pending.None? then Ok([])
    else
      match ParsePendingCell(r.pending.value)
      case Err(e) => Err(e)
      case Ok(ps) => ItemEntries(r, r.pending.value, ps, c)
  }

  /**
   * `check_pending_observations`: the entries of every examined row with a
   * pending cell, in table-row order and then pending-item order.
   */
  function CheckPending(rows: seq<Row>, c: Clock): (e: Result<seq<PendingEntry>>)
    ensures (forall k :: 0 <= k < |rows| ==> !Examined(rows[k]) || rows[k].pending.None?) ==> e == Ok([])
  {
    if rows == [] then Ok([])
    else
      var head := RowEntries(rows[0], c);
      var rest := CheckPending(rows[1..], c);
      if head.Err? then Err(head.error)
      else if rest.Err? then rest
      else
        assert (forall k :: 0 <= k < |rows| ==> !Examined(rows[k]) || rows[k].pending.None?) ==> head.value + rest.value == [] by {
          if forall k :: 0 <= k < |rows| ==> !Examined(rows[k]) || rows[k].pending.None? {
            assert forall k :: 0 <= k < |rows[1..]| ==> rows[1..][k] == rows[k + 1];
          }
        }
        Ok(head.value + rest.value)
  }

  /** The row an entry of `check_pending` comes from: examined, with a pending cell. */
  predicate FromRow(x: PendingEntry, r: Row)
  {
    r.supereventId == x.id && Examined(r) && r.pending.Some?
    && (x.GiveUp? ==> r.pending == Some(x.cell)) && (x.Check? ==> x == CheckOf(r, x.item))
  }

  /** Every entry of `check_pending` comes from an examined row with a pending cell. */
  lemma {:induction false} CheckPendingSources(rows: seq<Row>, c: Clock)
    ensures CheckPending(rows, c).Ok? ==> forall x :: x in CheckPending(rows, c).value ==>
      exists k :: 0 <= k < |rows| && FromRow(x, rows[k])
  {
    if rows != [] && CheckPending(rows, c).Ok? {
      CheckPendingSources(rows[1..], c);
      var head := RowEntries(rows[0], c);
      var rest := CheckPending(rows[1..], c);
      assert CheckPending(rows, c).value == head.value + rest.value;
      forall x | x in head.value + rest.value
        ensures exists k :: 0 <= k < |rows| && FromRow(x, rows[k])
      {
        if x in head.value {
          assert FromRow(x, rows[0]);
        } else {
          var k :| 0 <= k < |rows[1..]| && FromRow(x, rows[1..][k]);
          assert rows[1..][k] == rows[k + 1];
        }
      }
    }
  }

  /**
   * A pending cell written as "(id,start)" texts, starts free of commas and
   * parentheses, is classified plan by plan, exactly the plans written.
   */
  lemma WrittenCellClassified(r: Row, ps: seq<QueuedPlan>, c: Clock)
    requires Examined(r) && |ps| > 0 && forall k :: 0 <= k < |ps| ==> PlainStart(ps[k].start)
    requires r.pending == Some(PendingText(ps))
    ensures RowEntries(r, c) == ItemEntries(r, PendingText(ps), ps, c)
  {
    PendingRoundTrip(ps);
  }

  /**
   * A row pending one plan as the "(id,start)" text (the cell `LoggedRow`
   * writes; the `str(tuple)` cell of trigger.py stops the check instead,
   * `TuplePendingStopsCheck`) gives one check entry for that plan
   * within two days after its start, one give-up entry later, and none
   * before it starts.
   */
  lemma LoggedPlanClassified(r: Row, p: QueuedPlan, c: Clock)
    requires Examined(r) && PlainStart(p.start) && r.pending == Some(PlanText(p))
    ensures Upcoming(p, c) ==> RowEntries(r, c) == Ok([])
    ensures Due(p, c) ==> RowEntries(r, c) == Ok([CheckOf(r, PlanText(p))])
    ensures Expired(p, c) ==> RowEntries(r, c) == Ok([GiveUp(r.supereventId, PlanText(p))])
  {
    var cell := PlanText(p);
    assert PendingText([p]) == cell by { assert PlanTexts([p]) == [cell]; }
    WrittenCellClassified(r, [p], c);
    var e := ItemEntry(r, cell, p, c);
    assert [p][1..] == [] && [p][0] == p;
    assert ItemEntries(r, cell, [], c) == Ok([]);
    assert RowEntries(r, c) == ItemEntries(r, cell, [p], c);
    if e.Ok? {
      assert ItemEntries(r, cell, [p], c) == Prepend(Listed(e.value), Ok([]));
      assert Listed(e.value) + [] == Listed(e.value);
      assert Prepend(Listed(e.value), Ok([])) == Ok(Listed(e.value));
    }
  }

  /**
   * A pending cell holding the Python tuple text of a plan stops the whole
   * check: its start reads back with a leading space, which `Time` rejects.
   */
  lemma TuplePendingStopsCheck(r: Row, p: QueuedPlan, now: real)
    requires Examined(r) && PlainStart(p.start) && '\'' !in p.start
    requires r.pending == Some(TupleText(p))
    ensures RowEntries(r, Clock(now, Instant)) == Err(ValueError)
  {
    TupleTextMisread(p);
    var q := QueuedPlan(p.planId, " '" + p.start + "'");
    LeadingSpaceInstant(q.start);
    assert [q][0] == q;
  }

  /** One row of the check, then the rest of the table. */
  lemma CheckPendingStep(rows: seq<Row>, c: Clock)
    requires |rows| > 0
    ensures RowEntries(rows[0], c).Err? ==> CheckPending(rows, c) == Err(RowEntries(rows[0], c).error)
    ensures RowEntries(rows[0], c).Ok? ==> CheckPending(rows, c) == Prepend(RowEntries(rows[0], c).value, CheckPending(rows[1..], c))
  {
  }

  /** One plan of a row, then the rest of its plans. */
  lemma ItemEntriesStep(r: Row, cell: string, ps: seq<QueuedPlan>, c: Clock)
    requires |ps| > 0
    ensures ItemEntry(r, cell, ps[0], c).Err? ==> ItemEntries(r, cell, ps, c) == Err(ItemEntry(r, cell, ps[0], c).error)
    ensures ItemEntry(r, cell, ps[0], c).Ok? ==>
      ItemEntries(r, cell, ps, c) == Prepend(Listed(ItemEntry(r, cell, ps[0], c).value), ItemEntries(r, cell, ps[1..], c))
  {
  }

  /** The inner loop of `check_pending_observations`: one row's plans, in order. */
  method ClassifyPlans(row: Row, cell: string, ps: seq<QueuedPlan>, c: Clock) returns (r: Result<seq<PendingEntry>>)
    ensures r == ItemEntries(row, cell, ps, c)
  {
    var found: seq<PendingEntry> := [];
    var j := 0;
    assert ps[0..] == ps;
    PrependNothing(ItemEntries(row, cell, ps, c));
    while j < |ps|
      invariant 0 <= j <= |ps|
      invariant ItemEntries(row, cell, ps, c) == Prepend(found, ItemEntries(row, cell, ps[j..], c))
    {
      ghost var rest := ps[j..];
      assert rest[0] == ps[j] && rest[1..] == ps[j + 1..];
      ItemEntriesStep(row, cell, rest, c);
      var entry := ItemEntry(row, cell, ps[j], c);
      if entry.Err? {
        return Err(entry.error);
      }
      PrependTwice(found, Listed(entry.value), ItemEntries(row, cell, ps[j + 1..], c));
      found := found + Listed(entry.value);
      j := j + 1;
    }
    assert ps[j..] == [];
    assert found + [] == found;
    r := Ok(found);
  }

  /** One row of `check_pending_observations`: skipped, or its pending cell parsed and classified. */
  method RowPending(row: Row, c: Clock) returns (r: Result<seq<PendingEntry>>)
    ensures r == RowEntries(row, c)
  {
    if !Examined(row) || row.pending.None? {
      return Ok([]);
    }
    var cell := row.pending.value;
    var items := ParsePendingCell(cell);
    if items.Err? {
      return Err(items.error);
    }
    r := ClassifyPlans(row, cell, items.value, c);
  }

  /** `check_pending_observations`, row by row and plan by plan. */
  method CheckPendingObservations(rows: seq<Row>, c: Clock) returns (r: Result<seq<PendingEntry>>)
    ensures r == CheckPending(rows, c)
  {
    var entries: seq<PendingEntry> := [];
    var i := 0;
    assert rows[0..] == rows;
    PrependNothing(CheckPending(rows, c));
    while i < |rows|
      invariant 0 <= i <= |rows|
      invariant CheckPending(rows, c) == Prepend(entries, CheckPending(rows[i..], c))
    {
      ghost var tail := rows[i..];
      assert tail[0] == rows[i] && tail[1..] == rows[i + 1..];
      CheckPendingStep(tail, c);
      var found := RowPending(rows[i], c);
      if found.Err? {
        return Err(found.error);
      }
      PrependTwice(entries, found.value, CheckPending(rows[i + 1..], c));
      entries := entries + found.value;
      i := i + 1;
    }
    assert rows[i..] == [];
    assert entries + [] == entries;
    r := Ok(entries);
  }
}
