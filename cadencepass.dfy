/**
 * What the cadence bot does with the entries `check_pending_observations`
 * found (`parse_pending_observation`): give-ups and observed plans move from
 * the pending column to the unsuccessful or successful one, unobserved plans
 * become same-night retries; and the follow-ups `trigger_on_cadence` finds
 * for today in the stored cadence lists.
 */
module CadencePass {
  import opened Wrappers
  import opened PyText
  import opened TriggerLog
  import opened Cadence
  import CivilDates

  // ---------------------------------------------------------------------
  // Re-trigger requests

  /** `'followup'` from the stored cadence, `'retry'` after an unobserved plan. */
  datatype RetriggerKind = FollowUp | Retry

  /** `[kind, superevent_id, gcn_id, localization_id, dateobs]`. */
  datatype Retrigger = Retrigger(kind: RetriggerKind, id: string, gcnId: Cell, localizationId: Cell, dateobs: Cell)

  function RetryOf(x: PendingEntry): Retrigger
    requires x.Check?
  {
    Retrigger(Retry, x.id, x.gcnId, x.localizationId, x.dateobs)
  }

  function FollowUpOf(r: Row): Retrigger
  {
    Retrigger(FollowUp, r.supereventId, r.gcnId, r.localizationId, r.dateobs)
  }

  // ---------------------------------------------------------------------
  // parse_pending_observation

  /**
   * The log after some calls of `update_trigger_log`, each of which reads
   * and rewrites the file, the retries found, and the exception the last
   * call raised, if any.
   */
  datatype Step = Step(rows: seq<Row>, retry: seq<Retrigger>, raised: Option<Raised>)

  /** The columns the pass writes. */
  predicate ObservationColumn(d: Column)
  {
    d == PendingObservation || d == SuccessfulObservation || d == UnsuccessfulObservation
  }

  /**
   * Append `text` to the `target` column of the event, then remove it from
   * its pending column; the first write stays when the second raises.
   */
  function MoveText(rows: seq<Row>, id: string, target: Column, text: string): (s: Step)
    ensures s.retry == []
  {
    match UpdatedRows(rows, id, target, text, AppendText)
    case Err(e) => Step(rows, [], Some(e))
    case Ok(r1) =>
      match UpdatedRows(r1, id, PendingObservation, text, RemoveText)
      case Err(e) => Step(r1, [], Some(e))
      case Ok(r2) => Step(r2, [], None)
  }

  /**
   * What a move does: it fails with `IndexError` when the event has no row
   * and with `MyException` when its first row has no pending cell (after the
   * append, which is kept); otherwise every row of the event gets the
   * appended target cell and the pending cell with the text removed, and
   * nothing else changes.
   */
  predicate MoveFacts(rows: seq<Row>, id: string, target: Column, text: string, m: Step)
  {
    && (m.raised == Some(IndexError) <==> FirstRowOf(rows, id).None?)
    && (m.raised == Some(MyException) <==> FirstRowOf(rows, id).Some? && rows[FirstRowOf(rows, id).value].pending.None?)
    && (m.raised.None? || m.raised == Some(IndexError) || m.raised == Some(MyException))
    && |m.rows| == |rows| && NormalRows(m.rows)
    && (forall k :: 0 <= k < |rows| ==> m.rows[k].supereventId == rows[k].supereventId)
    && (forall k :: 0 <= k < |rows| && rows[k].supereventId != id ==> m.rows[k] == rows[k])
    && (forall k, d: Column :: 0 <= k < |rows| && d != target && d != PendingObservation ==> m.rows[k].Get(d) == rows[k].Get(d))
    && (m.raised.None? ==>
          var i := FirstRowOf(rows, id).value;
          forall k :: 0 <= k < |rows| && rows[k].supereventId == id ==>
            m.rows[k].Get(target) == Stored(AppendedText(rows[i].Get(target), text))
            && m.rows[k].pending == Stored(RemovedText(rows[i].pending.value, text)))
  }

  lemma MoveTextEffect(rows: seq<Row>, id: string, target: Column, text: string)
    requires NormalRows(rows) && target != PendingObservation
    ensures MoveFacts(rows, id, target, text, MoveText(rows, id, target, text))
  {
    AppendCell(rows, id, target, text);
    if FirstRowOf(rows, id).None? {
      assert MoveText(rows, id, target, text) == Step(rows, [], Some(IndexError));
    } else if rows[FirstRowOf(rows, id).value].pending.None? {
      MoveWithoutPending(rows, id, target, text);
    } else {
      MoveWithPending(rows, id, target, text);
    }
  }

  /** The table after the append to an event that has a row: only its target cells change, and its first row stays first. */
  predicate AppendedFacts(rows: seq<Row>, id: string, target: Column, text: string, r1: seq<Row>)
  {
    && FirstRowOf(rows, id).Some?
    && var i := FirstRowOf(rows, id).value;
       |r1| == |rows| && NormalRows(r1) && FirstRowOf(r1, id) == Some(i) && r1[i].pending == rows[i].pending
       && (forall k :: 0 <= k < |rows| ==> r1[k].supereventId == rows[k].supereventId)
       && (forall k :: 0 <= k < |rows| && rows[k].supereventId != id ==> r1[k] == rows[k])
       && (forall k, d: Column :: 0 <= k < |rows| && d != target ==> r1[k].Get(d) == rows[k].Get(d))
       && (forall k :: 0 <= k < |rows| && rows[k].supereventId == id ==>
             r1[k].Get(target) == Stored(AppendedText(rows[i].Get(target), text)))
  }

  /** The append keeps the event's first row, and its pending cell. */
  lemma AppendedFirst(rows: seq<Row>, id: string, target: Column, text: string)
    requires NormalRows(rows) && target != PendingObservation && FirstRowOf(rows, id).Some?
    ensures UpdatedRows(rows, id, target, text, AppendText).Ok?
    ensures var r1, i := UpdatedRows(rows, id, target, text, AppendText).value, FirstRowOf(rows, id).value;
      FirstRowOf(r1, id) == Some(i) && r1[i].Get(PendingObservation) == rows[i].Get(PendingObservation)
  {
    UpdateTouchesOnlyColumn(rows, id, target, text, AppendText);
    FirstRowKept(rows, UpdatedRows(rows, id, target, text, AppendText).value, id);
  }

  lemma Appended(rows: seq<Row>, id: string, target: Column, text: string)
    requires NormalRows(rows) && target != PendingObservation && FirstRowOf(rows, id).Some?
    ensures UpdatedRows(rows, id, target, text, AppendText).Ok?
    ensures AppendedFacts(rows, id, target, text, UpdatedRows(rows, id, target, text, AppendText).value)
  {
    AppendCell(rows, id, target, text);
    UpdateTouchesOnlyColumn(rows, id, target, text, AppendText);
    var r1 := UpdatedRows(rows, id, target, text, AppendText).value;
    var i := FirstRowOf(rows, id).value;
    FirstRowKept(rows, r1, id);
    assert r1[i].Get(PendingObservation) == rows[i].Get(PendingObservation);
  }

  lemma MoveWithoutPending(rows: seq<Row>, id: string, target: Column, text: string)
    requires NormalRows(rows) && target != PendingObservation && FirstRowOf(rows, id).Some?
    requires rows[FirstRowOf(rows, id).value].pending.None?
    ensures MoveFacts(rows, id, target, text, MoveText(rows, id, target, text))
  {
    Appended(rows, id, target, text);
    StopsAfterAppend(rows, id, target, text);
    StoppedAfterAppend(rows, id, target, text, UpdatedRows(rows, id, target, text, AppendText).value);
  }

  /** With no pending cell in the event's first row, the removal raises after the append. */
  lemma StopsAfterAppend(rows: seq<Row>, id: string, target: Column, text: string)
    requires NormalRows(rows) && target != PendingObservation && FirstRowOf(rows, id).Some?
    requires rows[FirstRowOf(rows, id).value].pending.None?
    ensures UpdatedRows(rows, id, target, text, AppendText).Ok?
    ensures MoveText(rows, id, target, text) == Step(UpdatedRows(rows, id, target, text, AppendText).value, [], Some(MyException))
  {
    AppendedFirst(rows, id, target, text);
    var r1 := UpdatedRows(rows, id, target, text, AppendText).value;
    RemoveErrors(r1, id, PendingObservation, text);
  }

  /** A move whose removal raised leaves the appended table. */
  lemma StoppedAfterAppend(rows: seq<Row>, id: string, target: Column, text: string, r1: seq<Row>)
    requires NormalRows(rows) && target != PendingObservation && AppendedFacts(rows, id, target, text, r1)
    requires rows[FirstRowOf(rows, id).value].pending.None?
    ensures MoveFacts(rows, id, target, text, Step(r1, [], Some(MyException)))
  {
  }

  lemma MoveWithPending(rows: seq<Row>, id: string, target: Column, text: string)
    requires NormalRows(rows) && target != PendingObservation && FirstRowOf(rows, id).Some?
    requires rows[FirstRowOf(rows, id).value].pending.Some?
    ensures MoveFacts(rows, id, target, text, MoveText(rows, id, target, text))
  {
    Appended(rows, id, target, text);
    var r1 := UpdatedRows(rows, id, target, text, AppendText).value;
    PendingAfterAppend(rows, id, target, text, r1);
    RemoveEffect(r1, id, PendingObservation, text);
    var r2 := UpdatedRows(r1, id, PendingObservation, text, RemoveText).value;
    MovedThrough(rows, id, target, text);
    RemovedAfterAppend(rows, id, target, text, r1, r2);
  }

  /** With a pending cell in the event's first row, the move is the append followed by the removal. */
  lemma MovedThrough(rows: seq<Row>, id: string, target: Column, text: string)
    requires NormalRows(rows) && target != PendingObservation && FirstRowOf(rows, id).Some?
    requires rows[FirstRowOf(rows, id).value].pending.Some?
    ensures UpdatedRows(rows, id, target, text, AppendText).Ok?
    ensures var r1 := UpdatedRows(rows, id, target, text, AppendText).value;
      UpdatedRows(r1, id, PendingObservation, text, RemoveText).Ok?
      && MoveText(rows, id, target, text) == Step(UpdatedRows(r1, id, PendingObservation, text, RemoveText).value, [], None)
  {
    AppendedFirst(rows, id, target, text);
    var r1 := UpdatedRows(rows, id, target, text, AppendText).value;
    RemoveErrors(r1, id, PendingObservation, text);
  }

  /** The append leaves the pending cell of the event's first row as it was. */
  lemma PendingAfterAppend(rows: seq<Row>, id: string, target: Column, text: string, r1: seq<Row>)
    requires AppendedFacts(rows, id, target, text, r1) && rows[FirstRowOf(rows, id).value].pending.Some?
    ensures FirstRowOf(r1, id).Some? && r1[FirstRowOf(r1, id).value].Get(PendingObservation).Some?
  {
    var i := FirstRowOf(rows, id).value;
    assert r1[i].Get(PendingObservation) == r1[i].pending;
  }

  /** The removal from the appended table: only pending cells change, to the first row's cell without the text. */
  lemma RemovedAfterAppend(rows: seq<Row>, id: string, target: Column, text: string, r1: seq<Row>, r2: seq<Row>)
    requires NormalRows(rows) && target != PendingObservation && AppendedFacts(rows, id, target, text, r1)
    requires rows[FirstRowOf(rows, id).value].pending.Some?
    requires var i := FirstRowOf(r1, id).value;
      |r2| == |r1| && NormalRows(r2)
      && (forall k :: 0 <= k < |r1| && r1[k].supereventId != id ==> r2[k] == r1[k])
      && (forall k, d: Column :: 0 <= k < |r1| && d != PendingObservation ==> r2[k].Get(d) == r1[k].Get(d))
      && (forall k :: 0 <= k < |r1| ==> r2[k].supereventId == r1[k].supereventId)
      && (forall k :: 0 <= k < |r1| && r1[k].supereventId == id ==>
            r2[k].Get(PendingObservation) == Stored(RemovedText(r1[i].Get(PendingObservation).value, text)))
    ensures MoveFacts(rows, id, target, text, Step(r2, [], None))
  {
    RemovedCells(rows, id, target, text, r1, r2);
    Removed(rows, id, target, text, r1, r2);
  }

  lemma RemovedCells(rows: seq<Row>, id: string, target: Column, text: string, r1: seq<Row>, r2: seq<Row>)
    requires AppendedFacts(rows, id, target, text, r1) && rows[FirstRowOf(rows, id).value].pending.Some?
    requires |r2| == |r1|
    requires forall k :: 0 <= k < |r1| && r1[k].supereventId == id ==>
      r2[k].Get(PendingObservation) == Stored(RemovedText(r1[FirstRowOf(r1, id).value].Get(PendingObservation).value, text))
    ensures forall k :: 0 <= k < |rows| && rows[k].supereventId == id ==>
      r2[k].pending == Stored(RemovedText(rows[FirstRowOf(rows, id).value].pending.value, text))
  {
    var i := FirstRowOf(rows, id).value;
    var cell := Stored(RemovedText(rows[i].pending.value, text));
    forall k | 0 <= k < |rows| && rows[k].supereventId == id ensures r2[k].pending == cell {
      assert r1[k].supereventId == id;
      assert r2[k].Get(PendingObservation) == cell;
    }
  }

  /** A move whose removal succeeded leaves both writes on the event's rows and nothing else. */
  lemma Removed(rows: seq<Row>, id: string, target: Column, text: string, r1: seq<Row>, r2: seq<Row>)
    requires NormalRows(rows) && target != PendingObservation && AppendedFacts(rows, id, target, text, r1)
    requires rows[FirstRowOf(rows, id).value].pending.Some?
    requires |r2| == |r1| && NormalRows(r2)
    requires forall k :: 0 <= k < |r1| && r1[k].supereventId != id ==> r2[k] == r1[k]
    requires forall k, d: Column :: 0 <= k < |r1| && d != PendingObservation ==> r2[k].Get(d) == r1[k].Get(d)
    requires forall k :: 0 <= k < |r1| ==> r2[k].supereventId == r1[k].supereventId
    requires forall k :: 0 <= k < |rows| && rows[k].supereventId == id ==>
      r2[k].pending == Stored(RemovedText(rows[FirstRowOf(rows, id).value].pending.value, text))
    ensures MoveFacts(rows, id, target, text, Step(r2, [], None))
  {
  }

  /** Rows whose ids are kept have the same first row for every id. */
  lemma {:induction false} FirstRowKept(a: seq<Row>, b: seq<Row>, id: string)
    requires |a| == |b| && forall k :: 0 <= k < |a| ==> b[k].supereventId == a[k].supereventId
    ensures FirstRowOf(b, id) == FirstRowOf(a, id)
  {
    if |a| > 0 && a[0].supereventId != id {
      assert forall k :: 0 <= k < |a| - 1 ==> b[1..][k].supereventId == a[1..][k].supereventId by {
        forall k | 0 <= k < |a| - 1 ensures b[1..][k].supereventId == a[1..][k].supereventId {
          assert b[1..][k] == b[k + 1] && a[1..][k] == a[k + 1];
        }
      }
      FirstRowKept(a[1..], b[1..], id);
    }
  }

  /**
   * One entry of the pass (cadence_utils.py:70-85): a give-up moves the
   * whole pending cell to the unsuccessful column; a checked plan needs a
   * readable `dateobs` (`Time(dateobs)` raises `ValueError` otherwise),
   * moves to the successful column when `check_executed_observation`
   * reports a match, and otherwise becomes a retry.
   */
  function EntryStep(rows: seq<Row>, x: PendingEntry, c: Clock, matches: PendingEntry -> int): (s: Step)
    ensures x.Check? && matches(x) < 1 ==>
      (s.raised.None? && s.retry == [RetryOf(x)] && s.rows == rows) || (s.raised == Some(ValueError) && s.retry == [])
    ensures !(x.Check? && matches(x) < 1) ==> s.retry == []
  {
    match x
    case GiveUp(id, cell) => MoveText(rows, id, UnsuccessfulObservation, cell)
    case Check(id, item, _, _, dateobs) =>
      if dateobs.None? || c.time(dateobs.value).None? then Step(rows, [], Some(ValueError))
      else if matches(x) >= 1 then MoveText(rows, id, SuccessfulObservation, item)
      else Step(rows, [RetryOf(x)], None)
  }

  /** The retries a pass yields, in entry order: the checked plans with no observation. */
  function RetriesOf(entries: seq<PendingEntry>, matches: PendingEntry -> int): (r: seq<Retrigger>)
    ensures |r| <= |entries|
    ensures forall t :: t in r <==> exists x :: x in entries && x.Check? && matches(x) < 1 && t == RetryOf(x)
  {
    if entries == [] then []
    else
      var head := if entries[0].Check? && matches(entries[0]) < 1 then [RetryOf(entries[0])] else [];
      var rest := RetriesOf(entries[1..], matches);
      assert forall x :: x in entries <==> x == entries[0] || x in entries[1..];
      head + rest
  }

  /** The outcome of the pass: the retries, the log as written, and the exception that ended it. */
  datatype PendingRun = PendingRun(retry: seq<Retrigger>, rows: seq<Row>, crash: Option<Raised>)

  /** A finished rest of the pass after the retries `acc`; a crash loses them all. */
  function Lead(acc: seq<Retrigger>, r: PendingRun): PendingRun
  {
    if r.crash.Some? then r else PendingRun(acc + r.retry, r.rows, None)
  }

  /**
   * The loop of `parse_pending_observation`: `MyException` is caught per
   * entry and the pass goes on; any other exception ends the script.
   */
  function PendingPass(rows: seq<Row>, entries: seq<PendingEntry>, c: Clock, matches: PendingEntry -> int): (r: PendingRun)
    ensures r.crash.Some? ==> r.crash.value != MyException && r.retry == []
    ensures r.crash.None? ==> r.retry == RetriesOf(entries, matches)
    decreases |entries|
  {
    if entries == [] then PendingRun([], rows, None)
    else
      var s := EntryStep(rows, entries[0], c, matches);
      if s.raised.Some? && s.raised.value != MyException then PendingRun([], s.rows, s.raised)
      else Lead(s.retry, PendingPass(s.rows, entries[1..], c, matches))
  }

  /** Two logs with the same rows, ids and columns except the three observation columns. */
  ghost predicate SameSkeleton(a: seq<Row>, b: seq<Row>)
  {
    |b| == |a| && NormalRows(b)
    && (forall k :: 0 <= k < |a| ==> b[k].supereventId == a[k].supereventId)
    && (forall k, d: Column :: 0 <= k < |a| && !ObservationColumn(d) ==> b[k].Get(d) == a[k].Get(d))
  }

  lemma SameSkeletonTrans(a: seq<Row>, b: seq<Row>, c: seq<Row>)
    requires SameSkeleton(a, b) && SameSkeleton(b, c)
    ensures SameSkeleton(a, c)
  {
  }

  /** One entry leaves the skeleton of the log alone, and the rows of other events untouched. */
  lemma EntryStepSkeleton(rows: seq<Row>, x: PendingEntry, c: Clock, matches: PendingEntry -> int)
    requires NormalRows(rows)
    ensures var s := EntryStep(rows, x, c, matches);
      SameSkeleton(rows, s.rows) && forall k :: 0 <= k < |rows| && rows[k].supereventId != x.id ==> s.rows[k] == rows[k]
  {
    match x
    case GiveUp(id, cell) => MoveTextEffect(rows, id, UnsuccessfulObservation, cell);
    case Check(id, item, _, _, _) => MoveTextEffect(rows, id, SuccessfulObservation, item);
  }

  /**
   * The pass writes only the observation columns, and only on the rows of
   * the events it has entries for.
   */
  lemma {:induction false} PendingPassSkeleton(rows: seq<Row>, entries: seq<PendingEntry>, c: Clock, matches: PendingEntry -> int)
    requires NormalRows(rows)
    ensures var r := PendingPass(rows, entries, c, matches);
      SameSkeleton(rows, r.rows)
      && forall k :: 0 <= k < |rows| && (forall x :: x in entries ==> x.id != rows[k].supereventId) ==> r.rows[k] == rows[k]
    decreases |entries|
  {
    if entries != [] {
      var s := EntryStep(rows, entries[0], c, matches);
      EntryStepSkeleton(rows, entries[0], c, matches);
      if !(s.raised.Some? && s.raised.value != MyException) {
        PendingPassSkeleton(s.rows, entries[1..], c, matches);
        var r := PendingPass(s.rows, entries[1..], c, matches);
        SameSkeletonTrans(rows, s.rows, r.rows);
        forall k | 0 <= k < |rows| && (forall x :: x in entries ==> x.id != rows[k].supereventId)
          ensures r.rows[k] == rows[k]
        {
          assert entries[0] in entries;
          assert forall x :: x in entries[1..] ==> x in entries;
          assert s.rows[k].supereventId == rows[k].supereventId;
        }
      }
    }
  }

  /** `parse_pending_observation`: the check of the log, then the pass over its entries. */
  function ParsePending(rows: seq<Row>, c: Clock, matches: PendingEntry -> int): (r: PendingRun)
    ensures r.crash.Some? ==> r.retry == []
    ensures r.crash.None? ==> CheckPending(rows, c).Ok? && r.retry == RetriesOf(CheckPending(rows, c).value, matches)
  {
    match CheckPending(rows, c)
    case Err(e) => PendingRun([], rows, Some(e))
    case Ok(entries) => PendingPass(rows, entries, c, matches)
  }

  /** The pass over a single-row log, whose entries are all of that row. */
  lemma OneRowPass(r: Row, c: Clock)
    ensures CheckPending([r], c) == RowEntries(r, c)
  {
    assert [r][0] == r && [r][1..] == [];
    if RowEntries(r, c).Ok? {
      assert RowEntries(r, c).value + [] == RowEntries(r, c).value;
    }
  }

  /**
   * Moving the whole pending cell of a one-row log appends it to the target
   * column and leaves the pending cell NaN.
   */
  lemma MoveWholeCell(r: Row, target: Column, text: string)
    requires NormalRow(r) && target != PendingObservation && text != "" && r.pending == Some(text)
    ensures MoveText([r], r.supereventId, target, text)
      == Step([r.With(target, Some(AppendedText(r.Get(target), text))).(pending := None)], [], None)
  {
    var rows := [r];
    assert FirstRowOf(rows, r.supereventId) == Some(0);
    MoveTextEffect(rows, r.supereventId, target, text);
    RemoveFromItself(text);
    var m := MoveText(rows, r.supereventId, target, text);
    var want := r.With(target, Some(AppendedText(r.Get(target), text))).(pending := None);
    assert m.raised.None?;
    assert |m.rows| == 1;
    assert m.rows[0] == want by {
      assert m.rows[0].Get(target) == want.Get(target);
      assert m.rows[0].Get(PendingObservation) == want.Get(PendingObservation);
      RowByColumns(m.rows[0], want);
    }
    assert m.rows == [want];
  }

  /** The entries of a row pending one plan as the "(id,start)" text, once it is due or has expired. */
  lemma LoggedEntries(r: Row, p: QueuedPlan, c: Clock)
    requires Examined(r) && PlainStart(p.start) && r.pending == Some(PlanText(p))
    ensures Due(p, c) ==> CheckPending([r], c) == Ok([CheckOf(r, PlanText(p))])
    ensures Expired(p, c) ==> CheckPending([r], c) == Ok([GiveUp(r.supereventId, PlanText(p))])
  {
    LoggedPlanClassified(r, p, c);
    OneRowPass(r, c);
  }

  /** A log whose check succeeds is passed over entry by entry. */
  lemma PassOverEntries(rows: seq<Row>, c: Clock, matches: PendingEntry -> int)
    requires CheckPending(rows, c).Ok?
    ensures ParsePending(rows, c, matches) == PendingPass(rows, CheckPending(rows, c).value, c, matches)
  {
  }

  /** The pass over one give-up of a row's whole pending cell. */
  lemma GiveUpPass(r: Row, cell: string, c: Clock, matches: PendingEntry -> int)
    requires NormalRow(r) && cell != "" && r.pending == Some(cell)
    ensures PendingPass([r], [GiveUp(r.supereventId, cell)], c, matches)
      == PendingRun([], [r.(unsuccessful := Some(AppendedText(r.unsuccessful, cell)), pending := None)], None)
  {
    MoveWholeCell(r, UnsuccessfulObservation, cell);
    SingleEntryPass([r], GiveUp(r.supereventId, cell), c, matches);
  }

  /** The pass over one observed check of a row's whole pending cell. */
  lemma ObservedPass(r: Row, cell: string, c: Clock, matches: PendingEntry -> int)
    requires NormalRow(r) && cell != "" && r.pending == Some(cell)
    requires r.dateobs.Some? && c.time(r.dateobs.value).Some? && matches(CheckOf(r, cell)) >= 1
    ensures PendingPass([r], [CheckOf(r, cell)], c, matches)
      == PendingRun([], [r.(successful := Some(AppendedText(r.successful, cell)), pending := None)], None)
  {
    MoveWholeCell(r, SuccessfulObservation, cell);
    SingleEntryPass([r], CheckOf(r, cell), c, matches);
  }

  /** The pass over one unobserved check: the log stays, and the check comes back as a retry. */
  lemma RetryPass(r: Row, cell: string, c: Clock, matches: PendingEntry -> int)
    requires r.dateobs.Some? && c.time(r.dateobs.value).Some? && matches(CheckOf(r, cell)) < 1
    ensures PendingPass([r], [CheckOf(r, cell)], c, matches)
      == PendingRun([Retrigger(Retry, r.supereventId, r.gcnId, r.localizationId, r.dateobs)], [r], None)
  {
    SingleEntryPass([r], CheckOf(r, cell), c, matches);
  }

  /** The pass over two give-ups of the same whole cell: appended twice, the second removal swallowed. */
  lemma TwoGiveUpsPass(r: Row, cell: string, c: Clock, matches: PendingEntry -> int)
    requires NormalRow(r) && cell != "" && r.pending == Some(cell)
    ensures var x := GiveUp(r.supereventId, cell);
      PendingPass([r], [x, x], c, matches)
        == PendingRun([], [r.(unsuccessful := Some(AppendedText(r.unsuccessful, cell) + "," + cell), pending := None)], None)
  {
    var x := GiveUp(r.supereventId, cell);
    MoveWholeCell(r, UnsuccessfulObservation, cell);
    var r1 := r.(unsuccessful := Some(AppendedText(r.unsuccessful, cell)), pending := None);
    assert EntryStep([r], x, c, matches) == Step([r1], [], None);
    SecondGiveUp(r1, cell, c, matches);
    var r2 := r1.(unsuccessful := Some(AppendedText(r1.unsuccessful, cell)));
    assert r2 == r.(unsuccessful := Some(AppendedText(r.unsuccessful, cell) + "," + cell), pending := None);
    assert [x, x][0] == x && [x, x][1..] == [x];
    assert PendingPass([r1], [x], c, matches) == PendingRun([], [r2], None) by {
      assert [x][0] == x && [x][1..] == [];
    }
  }

  /** Two expired plans of a cell each give a give-up of the whole cell. */
  lemma TwoExpiredItems(r: Row, cell: string, p1: QueuedPlan, p2: QueuedPlan, c: Clock)
    requires Expired(p1, c) && Expired(p2, c)
    ensures var x := GiveUp(r.supereventId, cell);
      ItemEntries(r, cell, [p1, p2], c) == Ok([x, x])
  {
    var x := GiveUp(r.supereventId, cell);
    assert ItemEntry(r, cell, p1, c) == Ok(Some(x)) && ItemEntry(r, cell, p2, c) == Ok(Some(x));
    ItemEntriesStep(r, cell, [p1, p2], c);
    ItemEntriesStep(r, cell, [p2], c);
    assert [p1, p2][0] == p1 && [p1, p2][1..] == [p2];
    assert [p2][0] == p2 && [p2][1..] == [];
    assert [x] + [x] == [x, x] && [x] + [] == [x];
  }

  /** A pass whose only entry is handled without an exception gives that entry's outcome. */
  lemma SingleEntryPass(rows: seq<Row>, x: PendingEntry, c: Clock, matches: PendingEntry -> int)
    requires EntryStep(rows, x, c, matches).raised.None?
    ensures var s := EntryStep(rows, x, c, matches);
      PendingPass(rows, [x], c, matches) == PendingRun(s.retry, s.rows, None)
  {
    var s := EntryStep(rows, x, c, matches);
    assert [x][0] == x && [x][1..] == [];
    assert s.retry + [] == s.retry;
  }

  /**
   * A plan pending as the "(id,start)" text and not observed for more than two days is
   * given up on: its text is appended to the unsuccessful column and the
   * pending cell is cleared.
   */
  lemma ExpiredPlanGivenUp(r: Row, p: QueuedPlan, c: Clock, matches: PendingEntry -> int)
    requires NormalRow(r) && Examined(r) && PlainStart(p.start) && r.pending == Some(PlanText(p)) && Expired(p, c)
    ensures ParsePending([r], c, matches)
      == PendingRun([], [r.(unsuccessful := Some(AppendedText(r.unsuccessful, PlanText(p))), pending := None)], None)
  {
    LoggedEntries(r, p, c);
    PassOverEntries([r], c, matches);
    GiveUpPass(r, PlanText(p), c, matches);
  }

  /**
   * A plan pending as the "(id,start)" text, checked within two days of its start and reported
   * observed moves from the pending column to the successful one.
   */
  lemma ObservedPlanSucceeds(r: Row, p: QueuedPlan, c: Clock, matches: PendingEntry -> int)
    requires NormalRow(r) && Examined(r) && PlainStart(p.start) && r.pending == Some(PlanText(p)) && Due(p, c)
    requires r.dateobs.Some? && c.time(r.dateobs.value).Some? && matches(CheckOf(r, PlanText(p))) >= 1
    ensures ParsePending([r], c, matches)
      == PendingRun([], [r.(successful := Some(AppendedText(r.successful, PlanText(p))), pending := None)], None)
  {
    LoggedEntries(r, p, c);
    PassOverEntries([r], c, matches);
    ObservedPass(r, PlanText(p), c, matches);
  }

  /**
   * A plan pending as the "(id,start)" text, checked within two days of its start with nothing
   * observed stays pending and comes back as one retry for tonight.
   */
  lemma UnobservedPlanRetried(r: Row, p: QueuedPlan, c: Clock, matches: PendingEntry -> int)
    requires NormalRow(r) && Examined(r) && PlainStart(p.start) && r.pending == Some(PlanText(p)) && Due(p, c)
    requires r.dateobs.Some? && c.time(r.dateobs.value).Some? && matches(CheckOf(r, PlanText(p))) < 1
    ensures ParsePending([r], c, matches)
      == PendingRun([Retrigger(Retry, r.supereventId, r.gcnId, r.localizationId, r.dateobs)], [r], None)
  {
    LoggedEntries(r, p, c);
    PassOverEntries([r], c, matches);
    RetryPass(r, PlanText(p), c, matches);
  }

  /**
   * Two plans of one cell that have both expired give two give-up entries
   * for the same cell: the cell is appended to the unsuccessful column
   * twice, and the second removal raises `MyException` (pending is already
   * NaN), which the pass swallows.
   */
  lemma TwoExpiredPlansLoggedTwice(r: Row, p1: QueuedPlan, p2: QueuedPlan, c: Clock, matches: PendingEntry -> int)
    requires NormalRow(r) && Examined(r) && PlainStart(p1.start) && PlainStart(p2.start)
    requires r.pending == Some(PendingText([p1, p2])) && Expired(p1, c) && Expired(p2, c)
    ensures var cell := PendingText([p1, p2]);
      ParsePending([r], c, matches)
        == PendingRun([], [r.(unsuccessful := Some(AppendedText(r.unsuccessful, cell) + "," + cell), pending := None)], None)
  {
    TwoExpiredEntries(r, p1, p2, c);
    PassOverEntries([r], c, matches);
    PendingTextNonEmpty(p1, p2);
    TwoGiveUpsPass(r, PendingText([p1, p2]), c, matches);
  }

  /** The two-plan cell of the lemma above is classified as two give-ups of the whole cell. */
  lemma TwoExpiredEntries(r: Row, p1: QueuedPlan, p2: QueuedPlan, c: Clock)
    requires Examined(r) && PlainStart(p1.start) && PlainStart(p2.start)
    requires r.pending == Some(PendingText([p1, p2])) && Expired(p1, c) && Expired(p2, c)
    ensures var x := GiveUp(r.supereventId, PendingText([p1, p2]));
      CheckPending([r], c) == Ok([x, x])
  {
    var cell := PendingText([p1, p2]);
    WrittenCellClassified(r, [p1, p2], c);
    TwoExpiredItems(r, cell, p1, p2, c);
    OneRowPass(r, c);
  }

  lemma PendingTextNonEmpty(p1: QueuedPlan, p2: QueuedPlan)
    ensures PendingText([p1, p2]) != ""
  {
    assert PlanTexts([p2]) == [PlanText(p2)];
    assert PlanTexts([p1, p2]) == [PlanText(p1)] + PlanTexts([p2]) by {
      assert [p1, p2][1..] == [p2];
    }
    var ts := [PlanText(p1), PlanText(p2)];
    assert ts[1..] == [PlanText(p2)];
    assert Join(ts, ",") == PlanText(p1) + "," + PlanText(p2);
  }

  /** A give-up on a row whose pending cell is already NaN appends its cell again, then raises `MyException`. */
  lemma SecondGiveUp(r1: Row, cell: string, c: Clock, matches: PendingEntry -> int)
    requires r1.pending.None? && cell != ""
    ensures EntryStep([r1], GiveUp(r1.supereventId, cell), c, matches)
      == Step([r1.(unsuccessful := Some(AppendedText(r1.unsuccessful, cell)))], [], Some(MyException))
  {
    var id := r1.supereventId;
    var r2 := r1.(unsuccessful := Some(AppendedText(r1.unsuccessful, cell)));
    assert FirstRowOf([r1], id) == Some(0);
    assert |AppendedText(r1.unsuccessful, cell)| >= |cell| > 0;
    assert SetWhere([r1], id, UnsuccessfulObservation, Some(AppendedText(r1.unsuccessful, cell))) == [r2];
    assert FirstRowOf([r2], id) == Some(0);
  }

  /** Two rows that agree on every column are the same row. */
  lemma RowByColumns(a: Row, b: Row)
    requires a.supereventId == b.supereventId && forall d: Column :: a.Get(d) == b.Get(d)
    ensures a == b
  {
    assert a.Get(DateObs) == b.Get(DateObs) && a.Get(GcnType) == b.Get(GcnType) && a.Get(GcnId) == b.Get(GcnId);
    assert a.Get(LocalizationId) == b.Get(LocalizationId) && a.Get(TriggerCadence) == b.Get(TriggerCadence);
    assert a.Get(PendingObservation) == b.Get(PendingObservation) && a.Get(UnsuccessfulObservation) == b.Get(UnsuccessfulObservation);
    assert a.Get(SuccessfulObservation) == b.Get(SuccessfulObservation) && a.Get(SerendipitousObservation) == b.Get(SerendipitousObservation);
    assert a.Get(ValidFlag) == b.Get(ValidFlag);
  }

  // ---------------------------------------------------------------------
  // The pass over the trigger log file

  lemma PendingPassStep(rows: seq<Row>, entries: seq<PendingEntry>, c: Clock, matches: PendingEntry -> int)
    requires |entries| > 0
    ensures var s := EntryStep(rows, entries[0], c, matches);
      PendingPass(rows, entries, c, matches)
        == if s.raised.Some? && s.raised.value != MyException then PendingRun([], s.rows, s.raised)
           else Lead(s.retry, PendingPass(s.rows, entries[1..], c, matches))
  {
  }

  lemma LeadTwice(a: seq<Retrigger>, b: seq<Retrigger>, r: PendingRun)
    ensures Lead(a, Lead(b, r)) == Lead(a + b, r)
  {
    if r.crash.None? {
      assert a + (b + r.retry) == (a + b) + r.retry;
    }
  }

  /** Both writes of a move, each reading and rewriting the file. */
  method MoveEntry(log: TriggerLogFile, id: string, target: Column, text: string) returns (raised: Option<Raised>)
    requires log.Valid()
    modifies log
    ensures log.Valid()
    ensures Step(log.rows, [], raised) == MoveText(old(log.rows), id, target, text)
  {
    raised := log.Update(id, target, text, AppendText);
    if raised.Some? {
      return;
    }
    raised := log.Update(id, PendingObservation, text, RemoveText);
  }

  /** The body of the `try` in `parse_pending_observation`, for one entry. */
  method HandleEntry(log: TriggerLogFile, x: PendingEntry, c: Clock, matches: PendingEntry -> int)
    returns (found: seq<Retrigger>, raised: Option<Raised>)
    requires log.Valid()
    modifies log
    ensures log.Valid()
    ensures Step(log.rows, found, raised) == EntryStep(old(log.rows), x, c, matches)
  {
    found := [];
    match x
    case GiveUp(id, cell) =>
      raised := MoveEntry(log, id, UnsuccessfulObservation, cell);
    case Check(id, item, _, _, dateobs) =>
      if dateobs.None? || c.time(dateobs.value).None? {
        raised := Some(ValueError);
      } else if matches(x) >= 1 {
        raised := MoveEntry(log, id, SuccessfulObservation, item);
      } else {
        found := [RetryOf(x)];
        raised := None;
      }
  }

  /** The loop of `parse_pending_observation` over the entries of the check. */
  method HandleEntries(log: TriggerLogFile, entries: seq<PendingEntry>, c: Clock, matches: PendingEntry -> int)
    returns (retry: seq<Retrigger>, crash: Option<Raised>)
    requires log.Valid()
    modifies log
    ensures log.Valid()
    ensures PendingRun(retry, log.rows, crash) == PendingPass(old(log.rows), entries, c, matches)
  {
    retry := [];
    var i := 0;
    assert entries[0..] == entries;
    while i < |entries|
      invariant 0 <= i <= |entries| && log.Valid()
      invariant PendingPass(old(log.rows), entries, c, matches) == Lead(retry, PendingPass(log.rows, entries[i..], c, matches))
    {
      ghost var rest := entries[i..];
      assert rest[0] == entries[i] && rest[1..] == entries[i + 1..];
      PendingPassStep(log.rows, rest, c, matches);
      var found, raised := HandleEntry(log, entries[i], c, matches);
      if raised.Some? && raised.value != MyException {
        return [], raised;
      }
      LeadTwice(retry, found, PendingPass(log.rows, entries[i + 1..], c, matches));
      retry := retry + found;
      i := i + 1;
    }
    assert entries[i..] == [];
    assert retry + [] == retry;
    crash := None;
  }

  /**
   * `parse_pending_observation` on the trigger log file: the retries for
   * tonight, or the exception that ended the script, with the file as the
   * updates left it.
   */
  method ParsePendingObservations(log: TriggerLogFile, c: Clock, matches: PendingEntry -> int)
    returns (retry: seq<Retrigger>, crash: Option<Raised>)
    requires log.Valid()
    modifies log
    ensures log.Valid()
    ensures PendingRun(retry, log.rows, crash) == ParsePending(old(log.rows), c, matches)
  {
    var pending := CheckPendingObservations(log.rows, c);
    if pending.Err? {
      return [], Some(pending.error);
    }
    retry, crash := HandleEntries(log, pending.value, c, matches);
  }

  // ---------------------------------------------------------------------
  // trigger_on_cadence

  /** How many of the dates `Time` reads as the instant `today`. */
  function CountOn(dates: seq<string>, today: real, c: Clock): nat
  {
    if dates == [] then 0 else (if c.time(dates[0]) == Some(today) then 1 else 0) + CountOn(dates[1..], today, c)
  }

  /**
   * The follow-ups of one row's cadence dates (cadence_utils.py:116-123):
   * one for each date that is today; `Time` raises `ValueError` on a date
   * it cannot read.
   */
  function DateFollowups(r: Row, dates: seq<string>, today: real, c: Clock): (e: Result<seq<Retrigger>>)
    ensures e.Err? <==> exists k :: 0 <= k < |dates| && c.time(dates[k]).None?
    ensures e.Err? ==> e.error == ValueError
    ensures e.Ok? ==> |e.value| == CountOn(dates, today, c)
    ensures e.Ok? ==> forall t :: t in e.value ==> t == FollowUpOf(r)
  {
    if dates == [] then Ok([])
    else
      match c.time(dates[0])
      case None => Err(ValueError)
      case Some(t) =>
        var rest := DateFollowups(r, dates[1..], today, c);
        assert forall k :: 1 <= k < |dates| ==> dates[k] == dates[1..][k - 1];
        Prepend(if t == today then [FollowUpOf(r)] else [], rest)
  }

  /**
   * The follow-ups of one row: none for a row that is not valid, and
   * `AttributeError` from `.strip` when its cadence cell is NaN.
   */
  function RowFollowups(r: Row, today: real, c: Clock): (e: Result<seq<Retrigger>>)
    ensures !Examined(r) ==> e == Ok([])
    ensures Examined(r) && r.triggerCadence.None? ==> e == Err(AttributeError)
    ensures e.Err? ==> e.error == ValueError || e.error == AttributeError
    ensures e.Ok? ==> forall t :: t in e.value ==> t == FollowUpOf(r)
  {
    if !Examined(r) then Ok([])
    else
      match r.triggerCadence
      case None => Err(AttributeError)
      case Some(cell) => DateFollowups(r, ParseCadenceCell(cell), today, c)
  }

  /** `trigger_on_cadence`: the follow-ups due today, in table-row order. */
  function TriggerOnCadence(rows: seq<Row>, today: real, c: Clock): (e: Result<seq<Retrigger>>)
    ensures (forall k :: 0 <= k < |rows| ==> !Examined(rows[k])) ==> e == Ok([])
    ensures e.Err? ==> e.error == ValueError || e.error == AttributeError
    ensures e.Ok? ==> forall t :: t in e.value ==>
      (t.kind == FollowUp && exists k :: 0 <= k < |rows| && Examined(rows[k]) && t == FollowUpOf(rows[k]))
  {
    if rows == [] then Ok([])
    else
      match RowFollowups(rows[0], today, c)
      case Err(e) => Err(e)
      case Ok(fs) =>
        var rest := TriggerOnCadence(rows[1..], today, c);
        assert forall k :: 1 <= k < |rows| ==> rows[k] == rows[1..][k - 1];
        if rest.Ok? then
          assert forall t :: t in fs + rest.value ==> t in fs || t in rest.value;
          Prepend(fs, rest)
        else
          Prepend(fs, rest)
  }

  /** Dates read as strictly increasing day offsets from `base` are today at most once. */
  lemma {:induction false} CountOnIncreasing(dates: seq<string>, base: int, offsets: seq<nat>, today: int, c: Clock)
    requires ReadsDates(c) && |dates| == |offsets|
    requires forall i :: 0 <= i < |dates| ==>
      CivilDates.ParseDate(dates[i]).Some? && CivilDates.DayNumber(CivilDates.ParseDate(dates[i]).value) == base + offsets[i]
    requires forall i, j :: 0 <= i < j < |offsets| ==> offsets[i] < offsets[j]
    ensures CountOn(dates, today as real, c) == if today - base in offsets then 1 else 0
  {
    if dates != [] {
      DateRead(c, dates[0], base + offsets[0]);
      var ds, os := dates[1..], offsets[1..];
      assert forall i :: 0 <= i < |ds| ==> ds[i] == dates[i + 1] && os[i] == offsets[i + 1];
      CountOnIncreasing(ds, base, os, today, c);
      assert today - base in offsets <==> today - base == offsets[0] || today - base in os;
      if today - base == offsets[0] {
        assert forall i :: 0 <= i < |os| ==> os[i] > offsets[0];
      }
    }
  }

  /** The clock reads every "%Y-%m-%d" text as the midnight of that date. */
  ghost predicate ReadsDates(c: Clock)
  {
    forall s :: CivilDates.ParseDate(s).Some? ==> c.time(s) == Some(CivilDates.DayNumber(CivilDates.ParseDate(s).value) as real)
  }

  /** astropy's reading of the ISO forms does. */
  lemma IsoClockReadsDates(now: real)
    ensures ReadsDates(Clock(now, Instant))
  {
    forall s | CivilDates.ParseDate(s).Some?
      ensures Instant(s) == Some(CivilDates.DayNumber(CivilDates.ParseDate(s).value) as real)
    {
      DateInstant(s);
    }
  }

  lemma DateRead(c: Clock, s: string, n: int)
    requires ReadsDates(c) && CivilDates.ParseDate(s).Some? && CivilDates.DayNumber(CivilDates.ParseDate(s).value) == n
    ensures c.time(s) == Some(n as real)
  {
  }

  /** The follow-up dates of `d0` fall on today at most once: exactly when today is a cadence offset away. */
  lemma CadenceDatesOnce(d0: CivilDates.Date, today: int, c: Clock)
    requires ReadsDates(c) && CivilDates.ValidDate(d0) && CivilDates.CadenceFrom(d0).Some?
    ensures CountOn(CivilDates.CadenceFrom(d0).value, today as real, c)
      == if today - CivilDates.DayNumber(d0) in CivilDates.CadenceOffsets then 1 else 0
    ensures forall i :: 0 <= i < |CivilDates.CadenceFrom(d0).value| ==> c.time(CivilDates.CadenceFrom(d0).value[i]).Some?
  {
    var dates := CivilDates.CadenceFrom(d0).value;
    var base := CivilDates.DayNumber(d0);
    forall i | 0 <= i < |dates| ensures c.time(dates[i]).Some? {
      DateRead(c, dates[i], CivilDates.DayNumber(CivilDates.ParseDate(dates[i]).value));
    }
    forall i, j | 0 <= i < j < |CivilDates.CadenceOffsets| ensures CivilDates.CadenceOffsets[i] < CivilDates.CadenceOffsets[j] {
      CivilDates.OffsetsIncrease(i, j);
    }
    CountOnIncreasing(dates, base, CivilDates.CadenceOffsets, today, c);
  }

  /**
   * A row trigger.py logged with the cadence of day `d0` yields exactly one
   * follow-up on each of the days 7, 14, 21, 28, 40 and 50 days after it,
   * and none on any other day.
   */
  lemma LoggedCadenceFollowups(r: Row, d0: CivilDates.Date, today: int, c: Clock)
    requires ReadsDates(c)
    requires Examined(r) && CivilDates.ValidDate(d0) && CivilDates.CadenceFrom(d0).Some?
    requires r.triggerCadence == Some(ListRepr(CivilDates.CadenceFrom(d0).value))
    ensures RowFollowups(r, today as real, c)
      == Ok(if today - CivilDates.DayNumber(d0) in CivilDates.CadenceOffsets then [FollowUpOf(r)] else [])
  {
    var dates := CivilDates.CadenceFrom(d0).value;
    TriggerLog.CadenceDatesPlain(d0);
    CadenceDatesOnce(d0, today, c);
    FollowupsCounted(r, dates, today as real, c, today - CivilDates.DayNumber(d0) in CivilDates.CadenceOffsets);
  }

  /** Readable dates of which `once` says whether one is today give one follow-up or none. */
  lemma FollowupsCounted(r: Row, dates: seq<string>, today: real, c: Clock, once: bool)
    requires forall i :: 0 <= i < |dates| ==> c.time(dates[i]).Some?
    requires CountOn(dates, today, c) == if once then 1 else 0
    ensures DateFollowups(r, dates, today, c) == Ok(if once then [FollowUpOf(r)] else [])
  {
    var e := DateFollowups(r, dates, today, c);
    assert e.Ok?;
    if once {
      assert e.value[0] in e.value;
      assert e.value == [FollowUpOf(r)];
    } else {
      assert e.value == [];
    }
  }

  lemma DateFollowupsStep(r: Row, dates: seq<string>, today: real, c: Clock)
    requires |dates| > 0
    ensures c.time(dates[0]).None? ==> DateFollowups(r, dates, today, c) == Err(ValueError)
    ensures c.time(dates[0]).Some? ==>
      (DateFollowups(r, dates, today, c)
       == Prepend(if c.time(dates[0]).value == today then [FollowUpOf(r)] else [], DateFollowups(r, dates[1..], today, c)))
  {
  }

  lemma TriggerOnCadenceStep(rows: seq<Row>, today: real, c: Clock)
    requires |rows| > 0
    ensures RowFollowups(rows[0], today, c).Err? ==> TriggerOnCadence(rows, today, c) == Err(RowFollowups(rows[0], today, c).error)
    ensures RowFollowups(rows[0], today, c).Ok? ==>
      TriggerOnCadence(rows, today, c) == Prepend(RowFollowups(rows[0], today, c).value, TriggerOnCadence(rows[1..], today, c))
  {
  }

  /** One row of `trigger_on_cadence`: its cadence cell parsed and each date compared with today. */
  method RowCadence(row: Row, today: real, c: Clock) returns (r: Result<seq<Retrigger>>)
    ensures r == RowFollowups(row, today, c)
  {
    if !Examined(row) {
      return Ok([]);
    }
    if row.triggerCadence.None? {
      return Err(AttributeError);
    }
    var dates := ParseCadenceCell(row.triggerCadence.value);
    var found: seq<Retrigger> := [];
    var j := 0;
    assert dates[0..] == dates;
    PrependNothing(DateFollowups(row, dates, today, c));
    while j < |dates|
      invariant 0 <= j <= |dates|
      invariant DateFollowups(row, dates, today, c) == Prepend(found, DateFollowups(row, dates[j..], today, c))
    {
      ghost var rest := dates[j..];
      assert rest[0] == dates[j] && rest[1..] == dates[j + 1..];
      DateFollowupsStep(row, rest, today, c);
      var t := c.time(dates[j]);
      if t.None? {
        return Err(ValueError);
      }
      var hit := if t.value == today then [FollowUpOf(row)] else [];
      PrependTwice(found, hit, DateFollowups(row, dates[j + 1..], today, c));
      found := found + hit;
      j := j + 1;
    }
    assert dates[j..] == [];
    assert found + [] == found;
    r := Ok(found);
  }

  /** `trigger_on_cadence` over the rows of the log. */
  method TriggerOnCadenceRows(rows: seq<Row>, today: real, c: Clock) returns (r: Result<seq<Retrigger>>)
    ensures r == TriggerOnCadence(rows, today, c)
  {
    var trigger: seq<Retrigger> := [];
    var i := 0;
    assert rows[0..] == rows;
    PrependNothing(TriggerOnCadence(rows, today, c));
    while i < |rows|
      invariant 0 <= i <= |rows|
      invariant TriggerOnCadence(rows, today, c) == Prepend(trigger, TriggerOnCadence(rows[i..], today, c))
    {
      ghost var tail := rows[i..];
      assert tail[0] == rows[i] && tail[1..] == rows[i + 1..];
      TriggerOnCadenceStep(tail, today, c);
      var found := RowCadence(rows[i], today, c);
      if found.Err? {
        return Err(found.error);
      }
      PrependTwice(trigger, found.value, TriggerOnCadence(rows[i + 1..], today, c));
      trigger := trigger + found.value;
      i := i + 1;
    }
    assert rows[i..] == [];
    assert trigger + [] == trigger;
    r := Ok(trigger);
  }
}
