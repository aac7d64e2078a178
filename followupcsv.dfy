/**
 * The FlareBot predecessor of the pipeline record: a CSV table of events
 * (FlareBot/bot/main_utils.py, `FlareFollowup`). It is read from a given
 * path but always written back to `bot/data/flare_pipeline.csv`.
 */
module FollowupCsv {
  import opened Wrappers
  import PhotoLog

  datatype FollowupRow = FollowupRow(eventid: string, dateobs: string, over200Days: bool,
                                     waitingForUpdate: bool, other: map<string, string>)

  /** The value `edit_csv` puts into its column. */
  datatype ColumnEdit = SetOver200(flag: bool) | SetWaiting(flag: bool) | SetOther(column: string, text: string)

  const FixedPath: string := "bot/data/flare_pipeline.csv"
  const WindowDays: real := 200.0
  const FirstUpdateDay: int := 9
  const UpdateDays: set<int> := {20, 30, 50, 100}

  /** `df.loc[df.dateobs == dateobs, 'over_200_days'] = True`. */
  function MarkDate(rows: seq<FollowupRow>, dateobs: string): (r: seq<FollowupRow>)
    ensures |r| == |rows|
    ensures forall k :: 0 <= k < |rows| ==>
      r[k] == (if rows[k].dateobs == dateobs then rows[k].(over200Days := true) else rows[k])
  {
    if rows == [] then []
    else [if rows[0].dateobs == dateobs then rows[0].(over200Days := true) else rows[0]] + MarkDate(rows[1..], dateobs)
  }

  datatype Marked = Marked(rows: seq<FollowupRow>, raised: Option<Raised>)

  /**
   * `check_completed_events` from the `k`-th date on: each row's date older
   * than 200 days marks every row with that date; a date that does not
   * parse stops the loop.
   */
  function MarkFrom(rows: seq<FollowupRow>, dates: seq<string>, age: string -> Option<real>): (r: Marked)
    ensures |r.rows| == |rows|
    decreases |dates|
  {
    if dates == [] then Marked(rows, None)
    else match age(dates[0])
      case None => Marked(rows, Some(ValueError))
      case Some(days) =>
        MarkFrom(if days > WindowDays then MarkDate(rows, dates[0]) else rows, dates[1..], age)
  }

  function Dates(rows: seq<FollowupRow>): (r: seq<string>)
    ensures |r| == |rows| && forall k :: 0 <= k < |rows| ==> r[k] == rows[k].dateobs
  {
    if rows == [] then [] else [rows[0].dateobs] + Dates(rows[1..])
  }

  /** A row past the window: flagged before, or its own date more than 200 days back. */
  predicate PastWindow(row: FollowupRow, age: string -> Option<real>)
  {
    row.over200Days || (age(row.dateobs).Some? && age(row.dateobs).value > WindowDays)
  }

  /** Marking by any list of dates keeps the rows' dates and identities and only sets flags. */
  lemma {:induction false} MarkFromKeeps(rows: seq<FollowupRow>, dates: seq<string>, age: string -> Option<real>)
    ensures var r := MarkFrom(rows, dates, age).rows;
      forall k :: 0 <= k < |rows| ==> (r[k] == rows[k].(over200Days := r[k].over200Days)
        && (rows[k].over200Days ==> r[k].over200Days)
        && (r[k].over200Days && !rows[k].over200Days ==>
              rows[k].dateobs in dates && age(rows[k].dateobs).Some? && age(rows[k].dateobs).value > WindowDays))
    decreases |dates|
  {
    if dates != [] && age(dates[0]).Some? {
      var next := if age(dates[0]).value > WindowDays then MarkDate(rows, dates[0]) else rows;
      MarkFromKeeps(next, dates[1..], age);
    }
  }

  /** Marking by a list of dates marks every row whose date is in it and is old. */
  lemma {:induction false} MarkFromMarks(rows: seq<FollowupRow>, dates: seq<string>, age: string -> Option<real>)
    requires MarkFrom(rows, dates, age).raised.None?
    ensures forall k :: 0 <= k < |rows| && rows[k].dateobs in dates && PastWindow(rows[k], age) ==>
      MarkFrom(rows, dates, age).rows[k].over200Days
    decreases |dates|
  {
    if dates != [] {
      var next := if age(dates[0]).value > WindowDays then MarkDate(rows, dates[0]) else rows;
      MarkFromMarks(next, dates[1..], age);
      MarkFromKeeps(next, dates[1..], age);
      forall k | 0 <= k < |rows| && rows[k].dateobs in dates && PastWindow(rows[k], age)
        ensures MarkFrom(rows, dates, age).rows[k].over200Days
      {
        if rows[k].dateobs != dates[0] {
          assert rows[k].dateobs in dates[1..];
        }
      }
    }
  }

  lemma MarkedRow(rows: seq<FollowupRow>, dates: seq<string>, age: string -> Option<real>, k: int)
    requires dates == Dates(rows) && 0 <= k < |rows|
    requires MarkFrom(rows, dates, age).raised.None?
    ensures MarkFrom(rows, dates, age).rows[k] == rows[k].(over200Days := PastWindow(rows[k], age))
  {
    assert dates[k] == rows[k].dateobs;
    MarkFromKeeps(rows, dates, age);
    MarkFromMarks(rows, dates, age);
  }

  /**
   * When every date parses, `check_completed_events` flags exactly the rows
   * past the window and changes nothing else.
   */
  lemma CompletedRowsExactly(rows: seq<FollowupRow>, dates: seq<string>, age: string -> Option<real>)
    requires dates == Dates(rows)
    requires MarkFrom(rows, dates, age).raised.None?
    ensures forall k :: 0 <= k < |rows| ==>
      MarkFrom(rows, dates, age).rows[k] == rows[k].(over200Days := PastWindow(rows[k], age))
  {
    forall k | 0 <= k < |rows|
      ensures MarkFrom(rows, dates, age).rows[k] == rows[k].(over200Days := PastWindow(rows[k], age))
    {
      MarkedRow(rows, dates, age, k);
    }
  }

  datatype Requests = Requests(firstUpdate: seq<string>, update: seq<string>, pending: seq<string>)

  /**
   * `check_photometry_request` from the `k`-th row on: every row not past
   * the window is scheduled by the age of the FIRST row's date, rounded
   * half to even; an unparsable first date raises at the first such row.
   */
  function RequestsFrom(rows: seq<FollowupRow>, firstDate: string, age: string -> Option<real>): (r: Result<Requests>)
    ensures r.Err? ==> r.error == ValueError
    decreases |rows|
  {
    if rows == [] then Ok(Requests([], [], []))
    else if rows[0].over200Days then RequestsFrom(rows[1..], firstDate, age)
    else match age(firstDate)
      case None => Err(ValueError)
      case Some(days) =>
        var delta := PhotoLog.RoundHalfEven(days);
        Prefix(One(rows[0], delta), RequestsFrom(rows[1..], firstDate, age))
  }

  /** What one row not past the window adds to the three lists, `delta` days on. */
  function One(x: FollowupRow, delta: int): Requests
  {
    Requests(if delta == FirstUpdateDay then [x.eventid] else [],
             if delta in UpdateDays then [x.eventid] else [],
             if x.waitingForUpdate then [x.eventid] else [])
  }

  function Active(rows: seq<FollowupRow>): (r: seq<string>)
    ensures forall id :: id in r <==> exists k :: 0 <= k < |rows| && !rows[k].over200Days && rows[k].eventid == id
  {
    if rows == [] then []
    else
      var rest := Active(rows[1..]);
      assert forall k :: 1 <= k < |rows| ==> rows[k] == rows[1..][k - 1];
      assert forall k :: 0 <= k < |rows[1..]| ==> rows[1..][k] == rows[k + 1];
      (if rows[0].over200Days then [] else [rows[0].eventid]) + rest
  }

  /**
   * Every event not past the window gets the same schedule, taken from the
   * first row's date whatever its own: all of them are first-update
   * requests on day 9, all of them update requests on days 20, 30, 50 and
   * 100, and none on any other day; the two lists are never both non-empty.
   */
  lemma {:induction false} ScheduleFromFirstRow(rows: seq<FollowupRow>, firstDate: string, age: string -> Option<real>)
    requires age(firstDate).Some?
    ensures var r, delta := RequestsFrom(rows, firstDate, age), PhotoLog.RoundHalfEven(age(firstDate).value);
      r.Ok? && r.value.firstUpdate == (if delta == FirstUpdateDay then Active(rows) else [])
      && r.value.update == (if delta in UpdateDays then Active(rows) else [])
      && (r.value.firstUpdate == [] || r.value.update == [])
    decreases |rows|
  {
    if rows != [] {
      ScheduleFromFirstRow(rows[1..], firstDate, age);
    }
  }

  /** One row after `df.loc[df['eventid'] == graceid, column] = value`: only a matching row changes. */
  function EditRow(x: FollowupRow, graceid: string, edit: ColumnEdit): (y: FollowupRow)
    ensures y.eventid == x.eventid && y.dateobs == x.dateobs
    ensures x.eventid != graceid ==> y == x
  {
    if x.eventid != graceid then x
    else match edit
      case SetOver200(b) => x.(over200Days := b)
      case SetWaiting(b) => x.(waitingForUpdate := b)
      case SetOther(c, t) => x.(other := x.other[c := t])
  }

  function Edited(rows: seq<FollowupRow>, graceid: string, edit: ColumnEdit): (r: seq<FollowupRow>)
    ensures |r| == |rows|
    ensures forall k :: 0 <= k < |rows| ==> r[k].eventid == rows[k].eventid && r[k].dateobs == rows[k].dateobs
    ensures forall k :: 0 <= k < |rows| && rows[k].eventid != graceid ==> r[k] == rows[k]
    ensures forall k :: 0 <= k < |rows| && rows[k].eventid == graceid ==>
      r[k] == match edit
        case SetOver200(b) => rows[k].(over200Days := b)
        case SetWaiting(b) => rows[k].(waitingForUpdate := b)
        case SetOther(c, t) => rows[k].(other := rows[k].other[c := t])
  {
    seq(|rows|, k requires 0 <= k < |rows| => EditRow(rows[k], graceid, edit))
  }

  class FlareFollowup {
    var rows: seq<FollowupRow>
    /** The CSV files on disk, by path. */
    var files: map<string, seq<FollowupRow>>
    const pathPipeline: string

    constructor (path: string, disk: map<string, seq<FollowupRow>>)
      requires path in disk
      ensures pathPipeline == path && files == disk && rows == disk[path]
    {
      pathPipeline := path;
      files := disk;
      rows := disk[path];
    }

    /** `pd.read_csv(path_pipeline)` (main_utils.py:5-11): a missing file raises `FileNotFoundError`, an `OSError`. */
    static method Open(path: string, disk: map<string, seq<FollowupRow>>) returns (f: FlareFollowup?, raised: Option<Raised>)
      ensures raised.None? <==> path in disk
      ensures raised.Some? ==> raised.value == OSError && f == null
      ensures raised.None? ==> f != null && fresh(f) && f.pathPipeline == path && f.files == disk && f.rows == disk[path]
    {
      if path !in disk {
        return null, Some(OSError);
      }
      f := new FlareFollowup(path, disk);
      raised := None;
    }

    /** main_utils.py:13-22: the table is written only when every date parses. */
    method CheckCompletedEvents(age: string -> Option<real>) returns (raised: Option<Raised>)
      modifies this
      ensures Marked(rows, raised) == MarkFrom(old(rows), Dates(old(rows)), age)
      ensures raised.None? ==> files == old(files)[FixedPath := rows]
      ensures raised.Some? ==> files == old(files)
    {
      ghost var dates := Dates(rows);
      var i := 0;
      raised := None;
      var n := |rows|;
      while i < n
        invariant 0 <= i <= n && |rows| == n && files == old(files)
        invariant forall k :: 0 <= k < n ==> rows[k].dateobs == dates[k]
        invariant MarkFrom(old(rows), dates, age) == MarkFrom(rows, dates[i..], age)
      {
        var d := rows[i].dateobs;
        assert dates[i..][0] == d && dates[i..][1..] == dates[i + 1..];
        var days := age(d);
        if days.None? {
          raised := Some(ValueError);
          return;
        }
        if days.value > WindowDays {
          rows := MarkDate(rows, d);
        }
        i := i + 1;
      }
      assert dates[i..] == [];
      files := files[FixedPath := rows];
    }

    /** main_utils.py:24-43; it changes nothing. */
    method CheckPhotometryRequest(age: string -> Option<real>) returns (firstUpdate: seq<string>, update: seq<string>, pending: seq<string>, raised: Option<Raised>)
      ensures rows == [] ==> raised.None? && firstUpdate == [] && update == [] && pending == []
      ensures rows != [] ==> (raised.None? <==> RequestsFrom(rows, rows[0].dateobs, age).Ok?)
      ensures rows != [] && raised.None? ==>
        Requests(firstUpdate, update, pending) == RequestsFrom(rows, rows[0].dateobs, age).value
    {
      firstUpdate, update, pending, raised := [], [], [], None;
      if rows == [] {
        return;
      }
      var i := 0;
      PrefixNothing(RequestsFrom(rows, rows[0].dateobs, age));
      assert rows[0..] == rows;
      while i < |rows|
        invariant 0 <= i <= |rows|
        invariant RequestsFrom(rows, rows[0].dateobs, age)
               == Prefix(Requests(firstUpdate, update, pending), RequestsFrom(rows[i..], rows[0].dateobs, age))
      {
        var x := rows[i];
        assert rows[i..][0] == x && rows[i..][1..] == rows[i + 1..];
        if x.over200Days {
          i := i + 1;
          continue;
        }
        var days := age(rows[0].dateobs);
        if days.None? {
          return [], [], [], Some(ValueError);
        }
        var delta := PhotoLog.RoundHalfEven(days.value);
        var one := One(x, delta);
        PrefixStep(Requests(firstUpdate, update, pending), one, RequestsFrom(rows[i + 1..], rows[0].dateobs, age));
        pending := pending + one.pending;
        firstUpdate := firstUpdate + one.firstUpdate;
        update := update + one.update;
        i := i + 1;
      }
      assert rows[i..] == [];
      assert firstUpdate + [] == firstUpdate && update + [] == update && pending + [] == pending;
    }

    /** main_utils.py:45-50. */
    method EditCsv(graceid: string, edit: ColumnEdit)
      modifies this
      ensures rows == Edited(old(rows), graceid, edit)
      ensures files == old(files)[FixedPath := rows]
    {
      rows := Edited(rows, graceid, edit);
      files := files[FixedPath := rows];
    }
  }

  /** The lists gathered so far, put in front of the rest of the loop's. */
  function Prefix(acc: Requests, rest: Result<Requests>): Result<Requests>
  {
    match rest
    case Err(e) => Err(e)
    case Ok(t) => Ok(Requests(acc.firstUpdate + t.firstUpdate, acc.update + t.update, acc.pending + t.pending))
  }

  lemma PrefixNothing(rest: Result<Requests>)
    ensures Prefix(Requests([], [], []), rest) == rest
  {
    if rest.Ok? {
      assert [] + rest.value.firstUpdate == rest.value.firstUpdate;
      assert [] + rest.value.update == rest.value.update;
      assert [] + rest.value.pending == rest.value.pending;
    }
  }

  lemma PrefixStep(acc: Requests, one: Requests, rest: Result<Requests>)
    ensures Prefix(acc, Prefix(one, rest))
      == Prefix(Requests(acc.firstUpdate + one.firstUpdate, acc.update + one.update, acc.pending + one.pending), rest)
  {
    if rest.Ok? {
      var t := rest.value;
      assert acc.firstUpdate + (one.firstUpdate + t.firstUpdate) == (acc.firstUpdate + one.firstUpdate) + t.firstUpdate;
      assert acc.update + (one.update + t.update) == (acc.update + one.update) + t.update;
      assert acc.pending + (one.pending + t.pending) == (acc.pending + one.pending) + t.pending;
    }
  }
}
