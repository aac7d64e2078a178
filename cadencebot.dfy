/**
 * The TriggerBot cadence bot (TriggerBot/bot/cadencefunctions.py and
 * TriggerBot/bot/cadence.py): one "(id,start)" pair per pending cell,
 * give-ups and successes that overwrite the observation columns and clear
 * the pending cell, and a retrigger loop that stops in testing mode before
 * it looks at the plan criteria.
 */
module CadenceBot {
  import opened Wrappers
  import opened PyText
  import opened TriggerLog
  import opened Admission
  import opened Cadence
  import opened CadencePass
  import opened RetriggerLoop
  import opened PlanUtils

  // ---------------------------------------------------------------------
  // check_pending_observations

  /** `pending.strip("()").split(",")` unpacked into two names; any other count raises. */
  function PendingPair(cell: string): (r: Result<(string, string)>)
    ensures r.Err? <==> |Split(Strip(cell, "()"), ",")| != 2
    ensures r.Err? ==> r.error == ValueError
    ensures r.Ok? ==> ',' !in r.value.0
  {
    var parts := Split(Strip(cell, "()"), ",");
    if |parts| != 2 then Err(ValueError)
    else
      SplitHeadFree(Strip(cell, "()"));
      Ok((parts[0], parts[1]))
  }

  /** The first part of a split holds no separator. */
  lemma SplitHeadFree(s: string)
    ensures ',' !in Split(s, ",")[0]
  {
    var h := Split(s, ",")[0];
    var n := match FindFirst(s, ",") case None => |s| case Some(i) => i;
    assert h == s[..n];
    if ',' in h {
      var j :| 0 <= j < |h| && h[j] == ',';
      assert s[j..j + 1] == [s[j]];
      assert OccursAt(s, ",", j);
    }
  }

  /** The pair the bot's cell "(id,start)" reads back as, for a plain start. */
  lemma PlanTextPair(p: QueuedPlan)
    requires PlainStart(p.start)
    ensures PendingPair(PlanText(p)) == Ok((IntText(p.planId), p.start))
  {
    var n, s := IntText(p.planId), p.start;
    StripPlanText(p);
    IntTextChars(p.planId);
    SplitPair(n, ",", s);
  }

  lemma StripPlanText(p: QueuedPlan)
    requires PlainStart(p.start)
    ensures Strip(PlanText(p), "()") == IntText(p.planId) + "," + p.start
  {
    var n, s := IntText(p.planId), p.start;
    IntTextChars(p.planId);
    var inner := n + "," + s;
    assert PlanText(p) == ['('] + inner + [')'];
    assert inner[0] == n[0] && inner[|inner| - 1] == s[|s| - 1];
    assert s[|s| - 1] in s;
    StripBoth('(', inner, ')', "()");
  }

  /** The tuple text "(id, 'start')" reads back with the start quoted after a space. */
  lemma TupleTextPair(p: QueuedPlan)
    requires PlainStart(p.start)
    ensures PendingPair(TupleText(p)) == Ok((IntText(p.planId), " '" + p.start + "'"))
  {
    var n, s := IntText(p.planId), " '" + p.start + "'";
    IntTextChars(p.planId);
    assert TupleText(p) == "(" + n + "," + s + ")";
    assert forall ch :: ch in s ==> ch == ' ' || ch == '\'' || ch in p.start;
    PendingPairOf(n, s);
  }

  /** A parenthesised pair of comma-free texts splits back into its two parts. */
  lemma PendingPairOf(n: string, s: string)
    requires |n| > 0 && |s| > 0 && n[0] !in "()" && s[|s| - 1] !in "()" && ',' !in n && ',' !in s
    ensures PendingPair("(" + n + "," + s + ")") == Ok((n, s))
  {
    var inner := n + "," + s;
    assert "(" + n + "," + s + ")" == ['('] + inner + [')'];
    assert inner[0] == n[0] && inner[|inner| - 1] == s[|s| - 1];
    StripBoth('(', inner, ')', "()");
    SplitPair(n, ",", s);
  }

  /**
   * One row of `check_pending_observations` (cadencefunctions.py:15-38):
   * nothing for a row that is not examined or has no pending cell, nothing
   * before the start, a check entry for the whole cell within two days after
   * it, and a give-up entry later; a cell that is not one pair, or a start
   * `Time` cannot read, raises `ValueError`.
   */
  function BotRowEntry(r: Row, c: Clock): (e: Result<Option<PendingEntry>>)
    ensures !Examined(r) || r.pending.None? ==> e == Ok(None)
    ensures e.Err? ==> e.error == ValueError && Examined(r) && r.pending.Some?
    ensures e.Ok? && e.value.Some? ==> (Examined(r) && r.pending.Some?
      && (e.value.value == CheckOf(r, r.pending.value) || e.value.value == GiveUp(r.supereventId, r.pending.value)))
  {
    if !Examined(r) || r.pending.None? then Ok(None)
    else
      var cell := r.pending.value;
      match PendingPair(cell)
      case Err(e) => Err(e)
      case Ok(pair) =>
        match c.time(pair.1)
        case None => Err(ValueError)
        case Some(t) =>
          if c.now < t then Ok(None)
          else if Abs(c.now - t) <= 2.0 then Ok(Some(CheckOf(r, cell)))
          else Ok(Some(GiveUp(r.supereventId, cell)))
  }

  /**
   * A row holding the text of one plan is classified by that plan's start:
   * nothing before it, a check entry within two days after it, a give-up
   * entry later, and `ValueError` when the start is unreadable.
   */
  lemma BotLoggedPlanClassified(r: Row, p: QueuedPlan, c: Clock)
    requires Examined(r) && PlainStart(p.start) && r.pending == Some(PlanText(p))
    ensures c.time(p.start).None? ==> BotRowEntry(r, c) == Err(ValueError)
    ensures Upcoming(p, c) ==> BotRowEntry(r, c) == Ok(None)
    ensures Due(p, c) ==> BotRowEntry(r, c) == Ok(Some(CheckOf(r, PlanText(p))))
    ensures Expired(p, c) ==> BotRowEntry(r, c) == Ok(Some(GiveUp(r.supereventId, PlanText(p))))
  {
    PlanTextPair(p);
  }

  /**
   * A pending cell holding the Python tuple text of a plan, as the
   * TriggerBot main loop writes it, stops the check: its start reads back
   * with a leading space, which `Time` rejects.
   */
  lemma BotTuplePendingStops(r: Row, p: QueuedPlan, now: real)
    requires Examined(r) && PlainStart(p.start) && r.pending == Some(TupleText(p))
    ensures BotRowEntry(r, Clock(now, Instant)) == Err(ValueError)
  {
    TupleTextPair(p);
    LeadingSpaceInstant(" '" + p.start + "'");
  }

  /** The entry `x` is the one the examined, pending row `r` gives. */
  predicate EntryOfRow(x: PendingEntry, r: Row)
  {
    Examined(r) && r.pending.Some?
    && (x == CheckOf(r, r.pending.value) || x == GiveUp(r.supereventId, r.pending.value))
  }

  /** `check_pending_observations`: at most one entry per row, in table-row order. */
  function BotCheckPending(rows: seq<Row>, c: Clock): (e: Result<seq<PendingEntry>>)
    ensures e.Err? ==> e.error == ValueError
    ensures (forall k :: 0 <= k < |rows| ==> !Examined(rows[k]) || rows[k].pending.None?) ==> e == Ok([])
    ensures e.Ok? ==> |e.value| <= |rows|
    ensures e.Ok? ==> forall x :: x in e.value ==> exists k :: 0 <= k < |rows| && EntryOfRow(x, rows[k])
  {
    if rows == [] then Ok([])
    else
      match BotRowEntry(rows[0], c)
      case Err(e) => Err(e)
      case Ok(h) =>
        var rest := BotCheckPending(rows[1..], c);
        BotPendingCons(rows, h, rest);
        Prepend(Listed(h), rest)
  }

  /** What the first row's entry and the entries of the other rows give together. */
  lemma BotPendingCons(rows: seq<Row>, h: Option<PendingEntry>, rest: Result<seq<PendingEntry>>)
    requires |rows| > 0
    requires !Examined(rows[0]) || rows[0].pending.None? ==> h == None
    requires h.Some? ==> EntryOfRow(h.value, rows[0])
    requires rest.Err? ==> rest.error == ValueError
    requires (forall k :: 0 <= k < |rows[1..]| ==> !Examined(rows[1..][k]) || rows[1..][k].pending.None?) ==> rest == Ok([])
    requires rest.Ok? ==> |rest.value| <= |rows[1..]|
    requires rest.Ok? ==> forall x :: x in rest.value ==> exists k :: 0 <= k < |rows[1..]| && EntryOfRow(x, rows[1..][k])
    ensures var e := Prepend(Listed(h), rest);
      (e.Err? ==> e.error == ValueError)
      && ((forall k :: 0 <= k < |rows| ==> !Examined(rows[k]) || rows[k].pending.None?) ==> e == Ok([]))
      && (e.Ok? ==> |e.value| <= |rows|)
      && (e.Ok? ==> forall x :: x in e.value ==> exists k :: 0 <= k < |rows| && EntryOfRow(x, rows[k]))
  {
    assert forall k :: 1 <= k < |rows| ==> rows[k] == rows[1..][k - 1];
    assert forall x :: x in Listed(h) ==> EntryOfRow(x, rows[0]);
    if rest.Ok? {
      forall x | x in Listed(h) + rest.value
        ensures exists k :: 0 <= k < |rows| && EntryOfRow(x, rows[k])
      {
        if x in rest.value {
          var k :| 0 <= k < |rows[1..]| && EntryOfRow(x, rows[1..][k]);
          assert rows[1..][k] == rows[k + 1];
        }
      }
    }
  }

  lemma BotCheckPendingStep(rows: seq<Row>, c: Clock)
    requires |rows| > 0
    ensures BotRowEntry(rows[0], c).Err? ==> BotCheckPending(rows, c) == Err(BotRowEntry(rows[0], c).error)
    ensures BotRowEntry(rows[0], c).Ok? ==>
      BotCheckPending(rows, c) == Prepend(Listed(BotRowEntry(rows[0], c).value), BotCheckPending(rows[1..], c))
  {
  }

  /** `check_pending_observations`, row by row. */
  method BotCheckPendingObservations(rows: seq<Row>, c: Clock) returns (r: Result<seq<PendingEntry>>)
    ensures r == BotCheckPending(rows, c)
  {
    var entries: seq<PendingEntry> := [];
    var i := 0;
    assert rows[0..] == rows;
    PrependNothing(BotCheckPending(rows, c));
    while i < |rows|
      invariant 0 <= i <= |rows|
      invariant BotCheckPending(rows, c) == Prepend(entries, BotCheckPending(rows[i..], c))
    {
      ghost var tail := rows[i..];
      assert tail[0] == rows[i] && tail[1..] == rows[i + 1..];
      BotCheckPendingStep(tail, c);
      var found := BotRowEntry(rows[i], c);
      if found.Err? {
        return Err(found.error);
      }
      PrependTwice(entries, Listed(found.value), BotCheckPending(rows[i + 1..], c));
      entries := entries + Listed(found.value);
      i := i + 1;
    }
    assert rows[i..] == [];
    assert entries + [] == entries;
    r := Ok(entries);
  }

  // ---------------------------------------------------------------------
  // parse_pending_observation

  /** The log, the retries, the emails sent, and the exception raised, after one entry. */
  datatype BotStep = BotStep(rows: seq<Row>, retry: seq<Retrigger>, calls: seq<Call>, raised: Option<Raised>)

  const GiveUpMessage := "We did not sucessfully observe " + "the queued plans for "

  /** Overwrite the `target` column of the event with `text`, then clear its pending cell. */
  function Settled(rows: seq<Row>, id: string, target: Column, text: string): seq<Row>
  {
    UpdatedRowsTriggerBot(UpdatedRowsTriggerBot(rows, id, target, text), id, PendingObservation, "")
  }

  /**
   * Settling an event sets the target column of each of its rows to the
   * text and clears their pending cells; nothing else changes.
   */
  lemma SettledEffect(rows: seq<Row>, id: string, target: Column, text: string)
    requires NormalRows(rows) && target != PendingObservation
    ensures var r := Settled(rows, id, target, text);
      |r| == |rows| && NormalRows(r)
      && (forall k :: 0 <= k < |rows| && rows[k].supereventId != id ==> r[k] == rows[k])
      && (forall k :: 0 <= k < |rows| && rows[k].supereventId == id ==>
            r[k] == rows[k].With(target, Stored(text)).With(PendingObservation, None))
  {
    TriggerBotUpdateOverwrites(rows, id, target, text);
    UpdateTouchesOnlyColumn(rows, id, target, text, Overwrite);
    var r1 := UpdatedRowsTriggerBot(rows, id, target, text);
    TriggerBotUpdateOverwrites(r1, id, PendingObservation, "");
    UpdateTouchesOnlyColumn(r1, id, PendingObservation, "", Overwrite);
  }

  /**
   * One entry of the pass (cadencefunctions.py:46-72): a give-up records
   * the cell as unsuccessful, clears the pending cell and emails, unless
   * testing, and raises `MyException` either way; a check needs a readable
   * `dateobs`, records a match as successful unless testing, and otherwise
   * becomes a retry.
   */
  function BotEntryStep(rows: seq<Row>, x: PendingEntry, c: Clock, matches: PendingEntry -> int, testing: bool): (s: BotStep)
    ensures x.GiveUp? ==> s.raised == Some(MyException) && s.retry == []
    ensures x.Check? ==> s.calls == [] && (s.raised == Some(ValueError) || s.raised.None?)
    ensures s.raised == Some(ValueError) <==> x.Check? && (x.dateobs.None? || c.time(x.dateobs.value).None?)
    ensures s.raised.None? ==> (s.retry == [RetryOf(x)] <==> matches(x) < 1)
    ensures s.retry != [] ==> s.retry == [RetryOf(x)] && s.rows == rows
    ensures testing ==> s.rows == rows && s.calls == []
    ensures !testing && x.GiveUp? ==> (s.calls == [Email(GiveUpMessage + x.id)]
      && s.rows == Settled(rows, x.id, UnsuccessfulObservation, x.cell))
    ensures !testing && x.Check? && s.raised.None? && matches(x) >= 1 ==> s.rows == Settled(rows, x.id, SuccessfulObservation, x.item)
  {
    match x
    case GiveUp(id, cell) =>
      if testing then BotStep(rows, [], [], Some(MyException))
      else BotStep(Settled(rows, id, UnsuccessfulObservation, cell), [], [Email(GiveUpMessage + id)], Some(MyException))
    case Check(id, item, _, _, dateobs) =>
      if dateobs.None? || c.time(dateobs.value).None? then BotStep(rows, [], [], Some(ValueError))
      else if matches(x) >= 1 then
        (if testing then BotStep(rows, [], [], None)
         else BotStep(Settled(rows, id, SuccessfulObservation, item), [], [], None))
      else BotStep(rows, [RetryOf(x)], [], None)
  }

  /** The outcome of the pass: the retries, the log, the emails, and the exception that ended it. */
  datatype BotRun = BotRun(retry: seq<Retrigger>, rows: seq<Row>, calls: seq<Call>, crash: Option<Raised>)

  /** A finished rest of the pass after the retries `acc` and the emails `sent`; a crash loses the retries. */
  function BotLead(acc: seq<Retrigger>, sent: seq<Call>, r: BotRun): BotRun
  {
    BotRun(if r.crash.Some? then [] else acc + r.retry, r.rows, sent + r.calls, r.crash)
  }

  /** Only emails are sent. */
  predicate OnlyEmails(calls: seq<Call>)
  {
    forall m :: m in calls ==> m.Email?
  }

  /**
   * The loop of `parse_pending_observation`: `MyException` is caught per
   * entry and the pass goes on; `ValueError` ends the script.
   */
  function BotPendingPass(rows: seq<Row>, entries: seq<PendingEntry>, c: Clock, matches: PendingEntry -> int, testing: bool): (r: BotRun)
    ensures r.crash.Some? ==> r.crash == Some(ValueError) && r.retry == []
    ensures r.crash.None? ==> r.retry == RetriesOf(entries, matches)
    ensures testing ==> r.rows == rows && r.calls == []
    ensures OnlyEmails(r.calls)
    decreases |entries|
  {
    if entries == [] then BotRun([], rows, [], None)
    else
      var s := BotEntryStep(rows, entries[0], c, matches, testing);
      if s.raised.Some? && s.raised.value != MyException then BotRun([], s.rows, s.calls, s.raised)
      else
        var rest := BotPendingPass(s.rows, entries[1..], c, matches, testing);
        assert rest.crash.None? ==> s.retry + rest.retry == RetriesOf(entries, matches);
        BotLead(s.retry, s.calls, rest)
  }

  lemma BotPendingPassStep(rows: seq<Row>, entries: seq<PendingEntry>, c: Clock, matches: PendingEntry -> int, testing: bool)
    requires |entries| > 0
    ensures var s := BotEntryStep(rows, entries[0], c, matches, testing);
      BotPendingPass(rows, entries, c, matches, testing)
        == if s.raised.Some? && s.raised.value != MyException then BotRun([], s.rows, s.calls, s.raised)
           else BotLead(s.retry, s.calls, BotPendingPass(s.rows, entries[1..], c, matches, testing))
  {
  }

  lemma BotLeadTwice(a: seq<Retrigger>, ca: seq<Call>, b: seq<Retrigger>, cb: seq<Call>, r: BotRun)
    ensures BotLead(a, ca, BotLead(b, cb, r)) == BotLead(a + b, ca + cb, r)
  {
    assert ca + (cb + r.calls) == (ca + cb) + r.calls;
    if r.crash.None? {
      assert a + (b + r.retry) == (a + b) + r.retry;
    }
  }

  /** `parse_pending_observation` on the log: the check, then its entries in turn. */
  function BotParsePending(rows: seq<Row>, c: Clock, matches: PendingEntry -> int, testing: bool): (r: BotRun)
    ensures r.crash.Some? ==> r.crash == Some(ValueError) && r.retry == []
    ensures r.crash.None? ==> BotCheckPending(rows, c).Ok? && r.retry == RetriesOf(BotCheckPending(rows, c).value, matches)
    ensures testing ==> r.rows == rows && r.calls == []
    ensures OnlyEmails(r.calls)
  {
    match BotCheckPending(rows, c)
    case Err(e) => BotRun([], rows, [], Some(e))
    case Ok(es) => BotPendingPass(rows, es, c, matches, testing)
  }

  /**
   * A give-up outside testing records the whole pending cell as the
   * event's unsuccessful observation, clears its pending cell, and sends the
   * manual-handling email; no other row changes and no retry comes of it.
   */
  lemma BotGiveUpRecorded(rows: seq<Row>, x: PendingEntry, c: Clock, matches: PendingEntry -> int)
    requires NormalRows(rows) && x.GiveUp?
    ensures var s := BotEntryStep(rows, x, c, matches, false);
      s.retry == [] && s.calls == [Email(GiveUpMessage + x.id)] && s.raised == Some(MyException)
      && |s.rows| == |rows| && NormalRows(s.rows)
      && (forall k :: 0 <= k < |rows| && rows[k].supereventId != x.id ==> s.rows[k] == rows[k])
      && (forall k :: 0 <= k < |rows| && rows[k].supereventId == x.id ==>
            s.rows[k] == rows[k].(unsuccessful := Stored(x.cell), pending := None))
  {
    SettledEffect(rows, x.id, UnsuccessfulObservation, x.cell);
  }

  /**
   * An observed plan outside testing records the checked cell as the
   * event's successful observation and clears its pending cell; no other
   * row changes.
   */
  lemma BotSuccessRecorded(rows: seq<Row>, x: PendingEntry, c: Clock, matches: PendingEntry -> int)
    requires NormalRows(rows) && x.Check? && x.dateobs.Some? && c.time(x.dateobs.value).Some? && matches(x) >= 1
    ensures var s := BotEntryStep(rows, x, c, matches, false);
      s.retry == [] && s.calls == [] && s.raised.None?
      && |s.rows| == |rows| && NormalRows(s.rows)
      && (forall k :: 0 <= k < |rows| && rows[k].supereventId != x.id ==> s.rows[k] == rows[k])
      && (forall k :: 0 <= k < |rows| && rows[k].supereventId == x.id ==>
            s.rows[k] == rows[k].(successful := Stored(x.item), pending := None))
  {
    SettledEffect(rows, x.id, SuccessfulObservation, x.item);
  }

  /**
   * A row pending one plan as the "(id,start)" text, once that plan is due and observed,
   * is settled by the pass: its pending cell moves to the successful column.
   */
  lemma BotObservedPlanSettled(r: Row, p: QueuedPlan, c: Clock, matches: PendingEntry -> int)
    requires NormalRow(r) && Examined(r) && PlainStart(p.start) && r.pending == Some(PlanText(p))
    requires Due(p, c) && r.dateobs.Some? && c.time(r.dateobs.value).Some? && matches(CheckOf(r, PlanText(p))) >= 1
    ensures BotParsePending([r], c, matches, false)
      == BotRun([], [r.(successful := Some(PlanText(p)), pending := None)], [], None)
  {
    BotDueEntries(r, p, c);
    BotPassOverEntries([r], c, matches, false);
    BotObservedPass(r, PlanText(p), c, matches);
  }

  /** The check of a one-row table pending a due plan as the "(id,start)" text is that plan's check entry. */
  lemma BotDueEntries(r: Row, p: QueuedPlan, c: Clock)
    requires Examined(r) && PlainStart(p.start) && r.pending == Some(PlanText(p)) && Due(p, c)
    ensures BotCheckPending([r], c) == Ok([CheckOf(r, PlanText(p))])
  {
    BotLoggedPlanClassified(r, p, c);
    BotOneRow(r, c);
  }

  lemma BotPassOverEntries(rows: seq<Row>, c: Clock, matches: PendingEntry -> int, testing: bool)
    requires BotCheckPending(rows, c).Ok?
    ensures BotParsePending(rows, c, matches, testing) == BotPendingPass(rows, BotCheckPending(rows, c).value, c, matches, testing)
  {
  }

  /** The pass over one observed check of a one-row table outside testing settles it as successful. */
  lemma BotObservedPass(r: Row, item: string, c: Clock, matches: PendingEntry -> int)
    requires NormalRow(r) && item != "" && r.dateobs.Some? && c.time(r.dateobs.value).Some? && matches(CheckOf(r, item)) >= 1
    ensures BotPendingPass([r], [CheckOf(r, item)], c, matches, false) == BotRun([], [r.(successful := Some(item), pending := None)], [], None)
  {
    var x := CheckOf(r, item);
    BotOneEntry([r], x, c, matches, false);
    assert NormalRows([r]) by { assert [r][0] == r; }
    BotSuccessRecorded([r], x, c, matches);
    var s := BotEntryStep([r], x, c, matches, false);
    assert s.rows[0] == r.(successful := Some(item), pending := None);
    assert s.rows == [r.(successful := Some(item), pending := None)];
  }

  /** The check of a one-row table is that row's entry. */
  lemma BotOneRow(r: Row, c: Clock)
    ensures BotRowEntry(r, c).Err? ==> BotCheckPending([r], c) == Err(BotRowEntry(r, c).error)
    ensures BotRowEntry(r, c).Ok? ==> BotCheckPending([r], c) == Ok(Listed(BotRowEntry(r, c).value))
  {
    assert [r][1..] == [] && [r][0] == r;
    if BotRowEntry(r, c).Ok? {
      assert Listed(BotRowEntry(r, c).value) + [] == Listed(BotRowEntry(r, c).value);
    }
  }

  /** The pass over one entry is that entry's step. */
  lemma BotOneEntry(rows: seq<Row>, x: PendingEntry, c: Clock, matches: PendingEntry -> int, testing: bool)
    ensures var s := BotEntryStep(rows, x, c, matches, testing);
      BotPendingPass(rows, [x], c, matches, testing)
        == if s.raised.Some? && s.raised.value != MyException then BotRun([], s.rows, s.calls, s.raised)
           else BotRun(s.retry, s.rows, s.calls, None)
  {
    var s := BotEntryStep(rows, x, c, matches, testing);
    assert [x][1..] == [] && [x][0] == x;
    assert s.retry + [] == s.retry && s.calls + [] == s.calls;
  }

  /** The per-entry body of the `try` in `parse_pending_observation`. */
  method BotHandleEntry(log: TriggerLogFile, x: PendingEntry, c: Clock, matches: PendingEntry -> int, testing: bool)
    returns (found: seq<Retrigger>, calls: seq<Call>, raised: Option<Raised>)
    requires log.Valid()
    modifies log
    ensures log.Valid()
    ensures BotStep(log.rows, found, calls, raised) == BotEntryStep(old(log.rows), x, c, matches, testing)
  {
    found, calls := [], [];
    match x
    case GiveUp(id, cell) =>
      if !testing {
        Settle(log, id, UnsuccessfulObservation, cell);
        calls := [Email(GiveUpMessage + id)];
      }
      raised := Some(MyException);
    case Check(id, item, _, _, dateobs) =>
      if dateobs.None? || c.time(dateobs.value).None? {
        raised := Some(ValueError);
      } else if matches(x) >= 1 {
        if !testing {
          Settle(log, id, SuccessfulObservation, item);
        }
        raised := None;
      } else {
        found := [RetryOf(x)];
        raised := None;
      }
  }

  /** The two overwrites of a settled event, each reading and rewriting the file. */
  method Settle(log: TriggerLogFile, id: string, target: Column, text: string)
    requires log.Valid()
    modifies log
    ensures log.Valid()
    ensures log.rows == Settled(old(log.rows), id, target, text)
  {
    TriggerBotUpdateOverwrites(log.rows, id, target, text);
    var _ := log.Update(id, target, text, Overwrite);
    TriggerBotUpdateOverwrites(log.rows, id, PendingObservation, "");
    var _ := log.Update(id, PendingObservation, "", Overwrite);
  }

  /** The loop of `parse_pending_observation` over the entries of the check. */
  method BotHandleEntries(log: TriggerLogFile, entries: seq<PendingEntry>, c: Clock, matches: PendingEntry -> int, testing: bool)
    returns (retry: seq<Retrigger>, calls: seq<Call>, crash: Option<Raised>)
    requires log.Valid()
    modifies log
    ensures log.Valid()
    ensures BotRun(retry, log.rows, calls, crash) == BotPendingPass(old(log.rows), entries, c, matches, testing)
  {
    retry, calls := [], [];
    var i := 0;
    assert entries[0..] == entries;
    assert BotLead([], [], BotPendingPass(log.rows, entries, c, matches, testing)) == BotPendingPass(log.rows, entries, c, matches, testing);
    while i < |entries|
      invariant 0 <= i <= |entries| && log.Valid()
      invariant BotPendingPass(old(log.rows), entries, c, matches, testing)
        == BotLead(retry, calls, BotPendingPass(log.rows, entries[i..], c, matches, testing))
    {
      var found, sent, raised := BotHandleAt(log, entries[i..], c, matches, testing, retry, calls);
      if raised.Some? && raised.value != MyException {
        return [], calls + sent, raised;
      }
      assert entries[i..][1..] == entries[i + 1..];
      retry, calls := retry + found, calls + sent;
      i := i + 1;
    }
    assert entries[i..] == [];
    assert retry + [] == retry && calls + [] == calls;
    crash := None;
  }

  /** One turn of the pass loop: the first entry handled, after the retries and emails so far. */
  method BotHandleAt(log: TriggerLogFile, es: seq<PendingEntry>, c: Clock, matches: PendingEntry -> int, testing: bool,
                     ghost retry: seq<Retrigger>, ghost calls: seq<Call>)
    returns (found: seq<Retrigger>, sent: seq<Call>, raised: Option<Raised>)
    requires log.Valid() && es != []
    modifies log
    ensures log.Valid()
    ensures raised.Some? && raised.value != MyException ==>
      BotLead(retry, calls, BotPendingPass(old(log.rows), es, c, matches, testing)) == BotRun([], log.rows, calls + sent, raised)
    ensures !(raised.Some? && raised.value != MyException) ==>
      BotLead(retry, calls, BotPendingPass(old(log.rows), es, c, matches, testing))
        == BotLead(retry + found, calls + sent, BotPendingPass(log.rows, es[1..], c, matches, testing))
  {
    BotPendingPassStep(log.rows, es, c, matches, testing);
    found, sent, raised := BotHandleEntry(log, es[0], c, matches, testing);
    if !(raised.Some? && raised.value != MyException) {
      BotLeadTwice(retry, calls, found, sent, BotPendingPass(log.rows, es[1..], c, matches, testing));
    }
  }

  /** `parse_pending_observation` on the trigger log file. */
  method BotParsePendingObservations(log: TriggerLogFile, c: Clock, matches: PendingEntry -> int, testing: bool)
    returns (retry: seq<Retrigger>, calls: seq<Call>, crash: Option<Raised>)
    requires log.Valid()
    modifies log
    ensures log.Valid()
    ensures BotRun(retry, log.rows, calls, crash) == BotParsePending(old(log.rows), c, matches, testing)
  {
    var pending := BotCheckPendingObservations(log.rows, c);
    if pending.Err? {
      return [], [], Some(pending.error);
    }
    retry, calls, crash := BotHandleEntries(log, pending.value, c, matches, testing);
  }

  // ---------------------------------------------------------------------
  // TriggerBot/bot/cadence.py

  /** In testing the TriggerBot loop leaves the log as it found it. */
  lemma {:induction false} BotTestingKeepsRows(rows: seq<Row>, xs: seq<Retrigger>, from: nat, ask: nat -> RetriggerAnswers)
    ensures RunRetriggers(TriggerBotLoop, rows, xs, from, ask, true).rows == rows
    decreases |xs|
  {
    if xs != [] {
      var s := RetriggerStep(TriggerBotLoop, rows, xs[0], ask(from), true);
      if !s.outcome.Aborted? {
        BotTestingKeepsRows(s.rows, xs[1..], from + 1, ask);
      }
    }
  }

  /**
   * The whole TriggerBot run: the pending pass, the follow-ups due `today`
   * in the log it left, then the TriggerBot attempts for the follow-ups and
   * the retries; emails of the pass come first.
   */
  function BotCadenceRun(rows: seq<Row>, c: Clock, matches: PendingEntry -> int, today: real,
                         ask: nat -> RetriggerAnswers, testing: bool): (r: CadenceResult)
    ensures FollowUpsFirst(r.triggers)
    ensures testing ==> NoTrigger(r.calls) && r.rows == rows
    ensures |r.outcomes| <= |r.triggers|
    ensures r.crash.None? ==> |r.outcomes| == |r.triggers|
  {
    var pass := BotParsePending(rows, c, matches, testing);
    if pass.crash.Some? then CadenceResult([], [], pass.calls, pass.rows, pass.crash)
    else
      match TriggerOnCadence(pass.rows, today, c)
      case Err(e) => CadenceResult([], [], pass.calls, pass.rows, Some(e))
      case Ok(followup) =>
        var triggers := followup + pass.retry;
        RetriesAreRetries(BotCheckPending(rows, c).value, matches);
        FollowUpsThenRetries(followup, pass.retry);
        var run := RunRetriggers(TriggerBotLoop, pass.rows, triggers, 0, ask, testing);
        RunRetriggersAborts(TriggerBotLoop, pass.rows, triggers, 0, ask, testing);
        RunRetriggersTesting(TriggerBotLoop, pass.rows, triggers, 0, ask);
        BotTestingKeepsRows(pass.rows, triggers, 0, ask);
        NoTriggerJoin(pass.calls, run.calls);
        var last := if run.outcomes != [] && run.outcomes[|run.outcomes| - 1].Aborted?
                    then Some(run.outcomes[|run.outcomes| - 1].error) else None;
        CadenceResult(triggers, run.outcomes, pass.calls + run.calls, run.rows, last)
  }

  /**
   * A failing plan in testing is recorded as unsuccessful by the current
   * loop but left alone by the TriggerBot loop, which stops before the
   * criteria.
   */
  lemma TestingOrderDiffers(rows: seq<Row>, x: Retrigger, p: PlanSummary, triggerOk: bool)
    requires FailsPlanCriteria(p) && FirstRowOf(rows, x.id).Some?
    ensures PlanStep(CurrentLoop, rows, x, p, triggerOk, true).outcome == PlanRejected
    ensures PlanStep(CurrentLoop, rows, x, p, triggerOk, true).rows
      == UpdatedRows(rows, x.id, UnsuccessfulObservation, PlanText(QueuedOf(p)), AppendText).value
    ensures PlanStep(TriggerBotLoop, rows, x, p, triggerOk, true) == StepResult(TestingSkip, [], rows)
  {
    AppendCell(rows, x.id, UnsuccessfulObservation, PlanText(QueuedOf(p)));
  }

  /** TriggerBot/bot/cadence.py on the trigger log file. */
  method RunCadenceTriggerBot(log: TriggerLogFile, c: Clock, matches: PendingEntry -> int, today: real,
                              ask: nat -> RetriggerAnswers, testing: bool)
    returns (triggers: seq<Retrigger>, outcomes: seq<RetriggerOutcome>, calls: seq<Call>, crash: Option<Raised>)
    requires log.Valid()
    modifies log
    ensures log.Valid()
    ensures CadenceResult(triggers, outcomes, calls, log.rows, crash) == BotCadenceRun(old(log.rows), c, matches, today, ask, testing)
  {
    triggers, outcomes := [], [];
    var retry;
    retry, calls, crash := BotParsePendingObservations(log, c, matches, testing);
    if crash.Some? {
      return;
    }
    var followup := TriggerOnCadenceRows(log.rows, today, c);
    if followup.Err? {
      crash := Some(followup.error);
      return;
    }
    triggers := followup.value + retry;
    var run;
    outcomes, run := RunRetriggerLoop(TriggerBotLoop, log, triggers, ask, testing);
    calls := calls + run;
    if outcomes != [] && outcomes[|outcomes| - 1].Aborted? {
      crash := Some(outcomes[|outcomes| - 1].error);
    }
  }
}
