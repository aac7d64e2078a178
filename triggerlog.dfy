/**
 * The trigger log `trigger_data/triggered_events.csv` as the bots read it
 * back with pandas: one row per committed decision, text cells, and NaN
 * wherever a field was written empty. Every write rewrites or appends to
 * the file, so the model keeps the rows as they will next be read.
 */
module TriggerLog {
  import opened Wrappers
  import opened PyText
  import CivilDates

  /** A CSV cell as pandas reads it back: `None` is NaN (an empty field). */
  type Cell = Option<string>

  /** What a field reads back as once written: the empty text reads as NaN. */
  function Stored(v: string): Cell
  {
    if v == "" then None else Some(v)
  }

  /** A cell in the form `read_csv` produces: NaN, or a non-empty text. */
  predicate NormalCell(c: Cell)
  {
    c != Some("")
  }

  function Normalised(c: Cell): (r: Cell)
    ensures NormalCell(r)
    ensures c.None? || c.value == "" <==> r.None?
    ensures r.Some? ==> r == c
  {
    if c == Some("") then None else c
  }

  /** The columns after `superevent_id`, in file order. */
  datatype Column =
    | DateObs
    | GcnType
    | GcnId
    | LocalizationId
    | TriggerCadence
    | PendingObservation
    | UnsuccessfulObservation
    | SuccessfulObservation
    | SerendipitousObservation
    | ValidFlag

  /** One line of the trigger log. The TriggerBot log has no serendipitous column; its rows hold NaN there. */
  datatype Row = Row(
    supereventId: string,
    dateobs: Cell,
    gcnType: Cell,
    gcnId: Cell,
    localizationId: Cell,
    triggerCadence: Cell,
    pending: Cell,
    unsuccessful: Cell,
    successful: Cell,
    serendipitous: Cell,
    valid: Cell)
  {
    function Get(c: Column): Cell
    {
      match c
      case DateObs => dateobs
      case GcnType => gcnType
      case GcnId => gcnId
      case LocalizationId => localizationId
      case TriggerCadence => triggerCadence
      case PendingObservation => pending
      case UnsuccessfulObservation => unsuccessful
      case SuccessfulObservation => successful
      case SerendipitousObservation => serendipitous
      case ValidFlag => valid
    }

    /** The row with one cell replaced. */
    function With(c: Column, v: Cell): (r: Row)
      ensures r.supereventId == supereventId && r.Get(c) == v
      ensures forall d: Column :: d != c ==> r.Get(d) == Get(d)
    {
      match c
      case DateObs => this.(dateobs := v)
      case GcnType => this.(gcnType := v)
      case GcnId => this.(gcnId := v)
      case LocalizationId => this.(localizationId := v)
      case TriggerCadence => this.(triggerCadence := v)
      case PendingObservation => this.(pending := v)
      case UnsuccessfulObservation => this.(unsuccessful := v)
      case SuccessfulObservation => this.(successful := v)
      case SerendipitousObservation => this.(serendipitous := v)
      case ValidFlag => this.(valid := v)
    }
  }

  predicate NormalRow(r: Row)
  {
    NormalCell(r.dateobs) && NormalCell(r.gcnType) && NormalCell(r.gcnId) && NormalCell(r.localizationId)
    && NormalCell(r.triggerCadence) && NormalCell(r.pending) && NormalCell(r.unsuccessful)
    && NormalCell(r.successful) && NormalCell(r.serendipitous) && NormalCell(r.valid)
  }

  /** Replacing a cell of a read-back row by a read-back cell keeps the row read-back. */
  lemma WithNormal(r: Row, c: Column, v: Cell)
    requires NormalRow(r) && NormalCell(v)
    ensures NormalRow(r.With(c, v))
  {
  }

  predicate NormalRows(rows: seq<Row>)
  {
    forall k :: 0 <= k < |rows| ==> NormalRow(rows[k])
  }

  /** A row as it reads back after being appended to the file. */
  function ReadBack(r: Row): (n: Row)
    ensures NormalRow(n) && n.supereventId == r.supereventId
    ensures NormalRow(r) ==> n == r
  {
    Row(r.supereventId, Normalised(r.dateobs), Normalised(r.gcnType), Normalised(r.gcnId),
      Normalised(r.localizationId), Normalised(r.triggerCadence), Normalised(r.pending),
      Normalised(r.unsuccessful), Normalised(r.successful), Normalised(r.serendipitous),
      Normalised(r.valid))
  }

  /** The index of the first row of an event, which `.values[0]` reads. */
  function FirstRowOf(rows: seq<Row>, id: string): (r: Option<nat>)
    ensures r.Some? ==> r.value < |rows| && rows[r.value].supereventId == id
    ensures r.Some? ==> forall k :: 0 <= k < r.value ==> rows[k].supereventId != id
    ensures r.None? <==> forall k :: 0 <= k < |rows| ==> rows[k].supereventId != id
  {
    if |rows| == 0 then None
    else if rows[0].supereventId == id then Some(0)
    else match FirstRowOf(rows[1..], id)
      case None => None
      case Some(i) => Some(i + 1)
  }

  /** `df.loc[df["superevent_id"] == id, column] = v`. */
  function SetWhere(rows: seq<Row>, id: string, col: Column, v: Cell): seq<Row>
  {
    seq(|rows|, k requires 0 <= k < |rows| =>
      if rows[k].supereventId == id then rows[k].With(col, v) else rows[k])
  }

  /** The three ways `update_trigger_log` can change a column. */
  datatype UpdateMode = Overwrite | AppendText | RemoveText

  /** `current + "," + value`, or `value` alone when the current cell is not a string. */
  function AppendedText(cur: Cell, value: string): string
  {
    match cur
    case None => value
    case Some(c) => c + "," + value
  }

  /** `cur.replace(value + ",", "").replace("," + value, "").replace(value, "")`. */
  function RemovedText(cur: string, value: string): string
  {
    Replace(Replace(Replace(cur, value + ",", ""), "," + value, ""), value, "")
  }

  /**
   * `update_trigger_log` of trigger_utils: the new rows, `IndexError` when
   * appending to or removing from an event with no row, `MyException` when
   * removing from a NaN cell.
   */
  function UpdatedRows(rows: seq<Row>, id: string, col: Column, value: string, mode: UpdateMode): Result<seq<Row>>
  {
    match mode
    case Overwrite => Ok(SetWhere(rows, id, col, Stored(value)))
    case AppendText =>
      (match FirstRowOf(rows, id)
       case None => Err(IndexError)
       case Some(i) => Ok(SetWhere(rows, id, col, Stored(AppendedText(rows[i].Get(col), value)))))
    case RemoveText =>
      (match FirstRowOf(rows, id)
       case None => Err(IndexError)
       case Some(i) =>
         match rows[i].Get(col)
         case None => Err(MyException)
         case Some(cur) => Ok(SetWhere(rows, id, col, Stored(RemovedText(cur, value)))))
  }

  /** `update_trigger_log` of the TriggerBot variant: every matching row is overwritten. */
  function UpdatedRowsTriggerBot(rows: seq<Row>, id: string, col: Column, value: string): seq<Row>
  {
    SetWhere(rows, id, col, Stored(value))
  }

  /**
   * An update changes only the named column, and only on the rows of the
   * event; every row of the event gets the same new cell; the table stays in
   * read-back form.
   */
  lemma UpdateTouchesOnlyColumn(rows: seq<Row>, id: string, col: Column, value: string, mode: UpdateMode)
    requires NormalRows(rows) && UpdatedRows(rows, id, col, value, mode).Ok?
    ensures var r := UpdatedRows(rows, id, col, value, mode).value;
      |r| == |rows| && NormalRows(r)
      && (forall k :: 0 <= k < |rows| && rows[k].supereventId != id ==> r[k] == rows[k])
      && (forall k, d: Column :: 0 <= k < |rows| && d != col ==> r[k].Get(d) == rows[k].Get(d))
      && (forall k :: 0 <= k < |rows| ==> r[k].supereventId == rows[k].supereventId)
      && (forall j, k :: 0 <= j < |rows| && 0 <= k < |rows| && rows[j].supereventId == id && rows[k].supereventId == id
            ==> r[j].Get(col) == r[k].Get(col))
  {
    match mode
    case Overwrite => SetWhereFacts(rows, id, col, Stored(value));
    case AppendText =>
      var i := FirstRowOf(rows, id).value;
      SetWhereFacts(rows, id, col, Stored(AppendedText(rows[i].Get(col), value)));
    case RemoveText =>
      var i := FirstRowOf(rows, id).value;
      SetWhereFacts(rows, id, col, Stored(RemovedText(rows[i].Get(col).value, value)));
  }

  lemma SetWhereFacts(rows: seq<Row>, id: string, col: Column, v: Cell)
    requires NormalRows(rows) && NormalCell(v)
    ensures var r := SetWhere(rows, id, col, v);
      |r| == |rows| && NormalRows(r)
      && (forall k :: 0 <= k < |rows| && rows[k].supereventId != id ==> r[k] == rows[k])
      && (forall k, d: Column :: 0 <= k < |rows| && d != col ==> r[k].Get(d) == rows[k].Get(d))
      && (forall k :: 0 <= k < |rows| ==> r[k].supereventId == rows[k].supereventId)
      && (forall k :: 0 <= k < |rows| && rows[k].supereventId == id ==> r[k].Get(col) == v)
  {
    var r := SetWhere(rows, id, col, v);
    forall k | 0 <= k < |rows| ensures NormalRow(r[k]) {
      if rows[k].supereventId == id {
        WithNormal(rows[k], col, v);
      }
    }
  }

  /**
   * Appending to an event's column: each of its rows gets `value` when the
   * first row's cell is NaN, and that cell + "," + `value` otherwise;
   * appending fails with `IndexError` exactly when the event has no row.
   */
  lemma AppendCell(rows: seq<Row>, id: string, col: Column, value: string)
    ensures UpdatedRows(rows, id, col, value, AppendText).Err? <==> forall k :: 0 <= k < |rows| ==> rows[k].supereventId != id
    ensures UpdatedRows(rows, id, col, value, AppendText).Err? ==> UpdatedRows(rows, id, col, value, AppendText).error == IndexError
    ensures UpdatedRows(rows, id, col, value, AppendText).Ok? ==>
      var i, r := FirstRowOf(rows, id).value, UpdatedRows(rows, id, col, value, AppendText).value;
      forall k :: 0 <= k < |rows| && rows[k].supereventId == id ==>
        r[k].Get(col) == (if rows[i].Get(col).None? then Stored(value) else Some(rows[i].Get(col).value + "," + value))
  {
  }

  /** Appending a non-empty text to an event that has a row: each of its rows gets the same new cell, and no other row changes. */
  lemma AppendEffect(rows: seq<Row>, id: string, col: Column, value: string)
    requires NormalRows(rows) && FirstRowOf(rows, id).Some? && value != ""
    ensures UpdatedRows(rows, id, col, value, AppendText).Ok?
    ensures var r, i := UpdatedRows(rows, id, col, value, AppendText).value, FirstRowOf(rows, id).value;
      |r| == |rows| && NormalRows(r)
      && (forall k :: 0 <= k < |rows| && rows[k].supereventId != id ==> r[k] == rows[k])
      && (forall k :: 0 <= k < |rows| && rows[k].supereventId == id ==>
            r[k] == rows[k].With(col, Some(AppendedText(rows[i].Get(col), value))))
  {
    var i := FirstRowOf(rows, id).value;
    assert |AppendedText(rows[i].Get(col), value)| >= |value| > 0;
    UpdateTouchesOnlyColumn(rows, id, col, value, AppendText);
  }

  /**
   * Removing from an event's column fails with `IndexError` when the event
   * has no row and with `MyException` when its first row's cell is NaN.
   */
  lemma RemoveErrors(rows: seq<Row>, id: string, col: Column, value: string)
    ensures var u := UpdatedRows(rows, id, col, value, RemoveText);
      (FirstRowOf(rows, id).None? ==> u == Err(IndexError))
      && (FirstRowOf(rows, id).Some? && rows[FirstRowOf(rows, id).value].Get(col).None? ==> u == Err(MyException))
      && (FirstRowOf(rows, id).Some? && rows[FirstRowOf(rows, id).value].Get(col).Some? ==> u.Ok?)
  {
  }

  /** Removing from an event whose first cell is set: each of its rows gets the same new cell, and nothing else changes. */
  lemma RemoveEffect(rows: seq<Row>, id: string, col: Column, value: string)
    requires NormalRows(rows) && FirstRowOf(rows, id).Some? && rows[FirstRowOf(rows, id).value].Get(col).Some?
    ensures UpdatedRows(rows, id, col, value, RemoveText).Ok?
    ensures var r, i := UpdatedRows(rows, id, col, value, RemoveText).value, FirstRowOf(rows, id).value;
      |r| == |rows| && NormalRows(r)
      && (forall k :: 0 <= k < |rows| && rows[k].supereventId != id ==> r[k] == rows[k])
      && (forall k, d: Column :: 0 <= k < |rows| && d != col ==> r[k].Get(d) == rows[k].Get(d))
      && (forall k :: 0 <= k < |rows| ==> r[k].supereventId == rows[k].supereventId)
      && (forall k :: 0 <= k < |rows| && rows[k].supereventId == id ==>
            r[k].Get(col) == Stored(RemovedText(rows[i].Get(col).value, value)))
  {
    var i := FirstRowOf(rows, id).value;
    SetWhereFacts(rows, id, col, Stored(RemovedText(rows[i].Get(col).value, value)));
  }

  /** Removing a text from a cell holding exactly that text leaves NaN. */
  lemma RemoveWholeCell(rows: seq<Row>, id: string, col: Column, v: string)
    requires v != "" && FirstRowOf(rows, id).Some?
    requires rows[FirstRowOf(rows, id).value].Get(col) == Some(v)
    ensures UpdatedRows(rows, id, col, v, RemoveText).Ok?
    ensures var r := UpdatedRows(rows, id, col, v, RemoveText).value;
      forall k :: 0 <= k < |rows| && rows[k].supereventId == id ==> r[k].Get(col).None?
  {
    assert RemovedText(v, v) == "" by { RemoveFromItself(v); }
  }

  /** `v.replace(v + ",", "").replace("," + v, "").replace(v, "") == ""`. */
  lemma RemoveFromItself(v: string)
    requires v != ""
    ensures RemovedText(v, v) == ""
  {
    assert !Contains(v, v + ",");
    assert !Contains(v, "," + v);
    ReplaceAbsent(v, v + ",", "");
    ReplaceAbsent(v, "," + v, "");
    assert OccursAt(v, v, 0) by { assert v[0..|v|] == v; }
    ReplaceAtHead(v, v, "");
    assert v[|v|..] == "";
  }

  /** The TriggerBot update is the current overwrite mode. */
  lemma TriggerBotUpdateOverwrites(rows: seq<Row>, id: string, col: Column, value: string)
    ensures UpdatedRows(rows, id, col, value, Overwrite) == Ok(UpdatedRowsTriggerBot(rows, id, col, value))
    ensures var r := UpdatedRowsTriggerBot(rows, id, col, value);
      |r| == |rows| && forall k :: 0 <= k < |rows| ==>
        r[k] == (if rows[k].supereventId == id then rows[k].With(col, Stored(value)) else rows[k])
  {
  }

  // ---------------------------------------------------------------------
  // The trigger_cadence cell: `str(list_of_dates)` and its reading.

  function Quoted(s: string): string
  {
    "'" + s + "'"
  }

  function QuoteAll(ds: seq<string>): seq<string>
  {
    seq(|ds|, k requires 0 <= k < |ds| => Quoted(ds[k]))
  }

  /** `str(ds)` for a list of texts that hold no quote or backslash. */
  function ListRepr(ds: seq<string>): string
  {
    "[" + Join(QuoteAll(ds), ", ") + "]"
  }

  /** `cadence_str.strip("[]").replace("'", "").split(", ")`. */
  function ParseCadenceCell(cell: string): (r: seq<string>)
    ensures |r| >= 1
  {
    Split(Replace(Strip(cell, "[]"), "'", ""), ", ")
  }

  /** A list item that `str(list)` quotes with single quotes and the reader recovers. */
  predicate PlainItem(s: string)
  {
    |s| > 0 && '\'' !in s && ',' !in s && '\\' !in s
  }

  lemma {:induction false} UnquoteJoin(ds: seq<string>)
    requires forall k :: 0 <= k < |ds| ==> '\'' !in ds[k]
    ensures Replace(Join(QuoteAll(ds), ", "), "'", "") == Join(ds, ", ")
  {
    if |ds| == 1 {
      UnquoteOne(ds[0]);
    } else if |ds| > 1 {
      var q := QuoteAll(ds);
      assert q[1..] == QuoteAll(ds[1..]);
      var rest := Join(q[1..], ", ");
      assert Join(q, ", ") == Quoted(ds[0]) + ", " + rest;
      ReplaceCharConcat(Quoted(ds[0]) + ", ", rest, '\'', "");
      ReplaceCharConcat(Quoted(ds[0]), ", ", '\'', "");
      UnquoteOne(ds[0]);
      ReplaceCharAbsent(", ", '\'', "");
      UnquoteJoin(ds[1..]);
    }
  }

  lemma UnquoteOne(d: string)
    requires '\'' !in d
    ensures Replace(Quoted(d), "'", "") == d
  {
    ReplaceCharConcat("'" + d, "'", '\'', "");
    ReplaceCharConcat("'", d, '\'', "");
    ReplaceCharAbsent(d, '\'', "");
  }

  /** Reading the cadence cell `str(ds)` gives `ds` back. */
  lemma CadenceCellRoundTrip(ds: seq<string>)
    requires |ds| > 0 && forall k :: 0 <= k < |ds| ==> PlainItem(ds[k])
    ensures ParseCadenceCell(ListRepr(ds)) == ds
  {
    var inner := Join(QuoteAll(ds), ", ");
    assert |inner| > 0 && inner[0] == '\'' && inner[|inner| - 1] == '\'' by { JoinEnds(QuoteAll(ds), ", "); }
    StripBoth('[', inner, ']', "[]");
    assert ListRepr(ds) == ['['] + inner + [']'];
    UnquoteJoin(ds);
    NotContainsHead(ds[|ds| - 1], ", ");
    SplitJoin(ds, ", ");
  }

  /** The joined quoted texts start and end with a quote. */
  lemma {:induction false} JoinEnds(q: seq<string>, sep: string)
    requires |q| > 0 && forall k :: 0 <= k < |q| ==> |q[k]| > 1 && q[k][0] == '\'' && q[k][|q[k]| - 1] == '\''
    ensures var j := Join(q, sep); |j| > 0 && j[0] == '\'' && j[|j| - 1] == '\''
  {
    if |q| > 1 {
      JoinEnds(q[1..], sep);
      var rest := Join(q[1..], sep);
      assert Join(q, sep) == q[0] + sep + rest;
    }
  }

  /** The follow-up dates are plain list items, so the cadence cell reads back as them. */
  lemma CadenceDatesPlain(d: CivilDates.Date)
    requires CivilDates.ValidDate(d) && CivilDates.CadenceFrom(d).Some?
    ensures forall k :: 0 <= k < |CivilDates.CadenceFrom(d).value| ==> PlainItem(CivilDates.CadenceFrom(d).value[k])
    ensures ParseCadenceCell(ListRepr(CivilDates.CadenceFrom(d).value)) == CivilDates.CadenceFrom(d).value
  {
    var r := CivilDates.CadenceFrom(d).value;
    forall k | 0 <= k < |r| ensures PlainItem(r[k]) {
      CivilDates.DateTextChars(r[k]);
    }
    CadenceCellRoundTrip(r);
  }

  // ---------------------------------------------------------------------
  // The pending_observation cell: "(id,start),(id,start)".

  /** A queued plan: the plan id the bot triggered and the plan's start time. */
  datatype QueuedPlan = QueuedPlan(planId: int, start: string)

  /** A start time that the "(id,start)" encoding carries unambiguously. */
  predicate PlainStart(s: string)
  {
    |s| > 0 && ',' !in s && '(' !in s && ')' !in s
  }

  /** f"({id},{start})". */
  function PlanText(p: QueuedPlan): string
  {
    "(" + IntText(p.planId) + "," + p.start + ")"
  }

  function PlanTexts(ps: seq<QueuedPlan>): (r: seq<string>)
    ensures |r| == |ps|
  {
    if ps == [] then [] else [PlanText(ps[0])] + PlanTexts(ps[1..])
  }

  /** The pending cell after appending each plan's text in turn. */
  function PendingText(ps: seq<QueuedPlan>): string
  {
    Join(PlanTexts(ps), ",")
  }

  /** `(int(item.split(",")[0].strip("()")), item.split(",")[1].strip("()"))`. */
  function ParseItem(item: string): Result<QueuedPlan>
  {
    var parts := Split(item, ",");
    match PyInt(Strip(parts[0], "()"))
    case None => Err(ValueError)
    case Some(id) => if |parts| < 2 then Err(IndexError) else Ok(QueuedPlan(id, Strip(parts[1], "()")))
  }

  /** `pending.split('),(')` and the parse of each item (cadence_utils). */
  function ParsePendingCell(cell: string): Result<seq<QueuedPlan>>
  {
    MapAll(ParseItem, Split(cell, "),("))
  }

  /** The id and start of one plan, without the parentheses. */
  function Core(p: QueuedPlan): string
  {
    IntText(p.planId) + "," + p.start
  }

  /** The pieces `split('),(')` cuts the pending cell into, the first without its "(". */
  function TailPieces(ps: seq<QueuedPlan>): (r: seq<string>)
    requires |ps| > 0
    ensures |r| == |ps|
  {
    if |ps| == 1 then [Core(ps[0]) + ")"] else [Core(ps[0])] + TailPieces(ps[1..])
  }

  lemma {:induction false} TailPieceAt(ps: seq<QueuedPlan>, k: nat)
    requires k < |ps|
    ensures TailPieces(ps)[k] == if k == |ps| - 1 then Core(ps[k]) + ")" else Core(ps[k])
  {
    if k > 0 {
      assert TailPieces(ps) == [Core(ps[0])] + TailPieces(ps[1..]);
      TailPieceAt(ps[1..], k - 1);
      assert ps[1..][k - 1] == ps[k];
    }
  }

  /** The pieces `split('),(')` cuts the pending cell into. */
  function Pieces(ps: seq<QueuedPlan>): (r: seq<string>)
    requires |ps| > 0
    ensures |r| == |ps|
  {
    var t := TailPieces(ps);
    t[0 := "(" + t[0]]
  }

  lemma {:induction false} PendingAsTailPieces(ps: seq<QueuedPlan>)
    requires |ps| > 0
    ensures PendingText(ps) == "(" + Join(TailPieces(ps), "),(")
  {
    if |ps| > 1 {
      PendingAsTailPieces(ps[1..]);
      PendingTextCons(ps);
      TailPiecesCons(ps);
      PlanTextCore(ps[0]);
      Regroup(Core(ps[0]), Join(TailPieces(ps[1..]), "),("));
    }
  }

  lemma PendingTextCons(ps: seq<QueuedPlan>)
    requires |ps| > 1
    ensures PendingText(ps) == PlanText(ps[0]) + "," + PendingText(ps[1..])
  {
    assert PlanTexts(ps)[1..] == PlanTexts(ps[1..]);
  }

  lemma TailPiecesCons(ps: seq<QueuedPlan>)
    requires |ps| > 1
    ensures Join(TailPieces(ps), "),(") == Core(ps[0]) + "),(" + Join(TailPieces(ps[1..]), "),(")
  {
    assert TailPieces(ps)[1..] == TailPieces(ps[1..]);
  }

  lemma PlanTextCore(p: QueuedPlan)
    ensures PlanText(p) == "(" + Core(p) + ")"
  {
  }

  lemma Regroup(c: string, rest: string)
    ensures "(" + c + ")" + "," + ("(" + rest) == "(" + (c + "),(" + rest)
  {
  }

  lemma PendingAsPieces(ps: seq<QueuedPlan>)
    requires |ps| > 0
    ensures PendingText(ps) == Join(Pieces(ps), "),(")
  {
    PendingAsTailPieces(ps);
    JoinPrefixHead(TailPieces(ps), "(", "),(");
  }

  /** Prefixing the first part prefixes the join. */
  lemma JoinPrefixHead(t: seq<string>, pre: string, sep: string)
    requires |t| > 0
    ensures Join(t[0 := pre + t[0]], sep) == pre + Join(t, sep)
  {
    var p := t[0 := pre + t[0]];
    if |t| > 1 {
      assert p[1..] == t[1..];
      assert Join(p, sep) == p[0] + sep + Join(t[1..], sep);
    }
  }

  /** The characters of `str(i)`: digits and a leading minus. */
  lemma IntTextChars(i: int)
    ensures forall c :: c in IntText(i) ==> IsDigit(c) || c == '-'
    ensures |IntText(i)| > 0 && IsDigit(IntText(i)[|IntText(i)| - 1])
    ensures IsDigit(IntText(i)[0]) || IntText(i)[0] == '-'
  {
    var t := NatText(if i < 0 then -i else i);
    if i < 0 {
      assert IntText(i) == "-" + t;
      assert forall c :: c in "-" + t ==> c == '-' || c in t;
      assert IntText(i)[|IntText(i)| - 1] == t[|t| - 1];
    }
  }

  /** A piece without `)` before its last character holds no "),(". */
  lemma NoSeparatorInLast(x: string)
    requires ')' !in x
    ensures !Contains(x + ")", "),(")
  {
    var s := x + ")";
    forall j: nat ensures !OccursAt(s, "),(", j) {
      if j + 3 <= |s| {
        assert s[j..j + 3][0] == s[j] == x[j];
      }
    }
  }

  /** How `ParseItem` reads an item that splits into two parts. */
  lemma ParseItemOf(item: string, x: string, y: string, id: int)
    requires Split(item, ",") == [x, y] && PyInt(Strip(x, "()")) == Some(id)
    ensures ParseItem(item) == Ok(QueuedPlan(id, Strip(y, "()")))
  {
  }

  /** The id part of a piece strips to the id's text. */
  lemma StripIdPart(n: string, pre: string)
    requires |n| > 0 && n[0] !in "()" && n[|n| - 1] !in "()" && (pre == "" || pre == "(")
    ensures Strip(pre + n, "()") == n
  {
    if pre == "(" { StripLeading('(', n, "()"); assert pre + n == ['('] + n; } else { assert pre + n == n; StripUntouched(n, "()"); }
  }

  /** The start part of a piece strips to the start. */
  lemma StripStartPart(s: string, post: string)
    requires |s| > 0 && s[0] !in "()" && s[|s| - 1] !in "()" && (post == "" || post == ")")
    ensures Strip(s + post, "()") == s
  {
    if post == ")" { StripTrailing(s, ')', "()"); assert s + post == s + [')']; } else { assert s + post == s; StripUntouched(s, "()"); }
  }

  /** Each piece reads back as its plan. */
  lemma ParsePiece(p: QueuedPlan, pre: string, post: string)
    requires PlainStart(p.start) && (pre == "" || pre == "(") && (post == "" || post == ")")
    ensures ParseItem(pre + Core(p) + post) == Ok(p)
  {
    var x, y := pre + IntText(p.planId), p.start + post;
    PieceFields(p, pre, post);
    Regroup3(pre, IntText(p.planId), p.start, post);
    ParseItemOf(x + "," + y, x, y, p.planId);
  }

  /** The two halves of a piece, as `ParseItem` reads them. */
  lemma PieceFields(p: QueuedPlan, pre: string, post: string)
    requires PlainStart(p.start) && (pre == "" || pre == "(") && (post == "" || post == ")")
    ensures var x, y := pre + IntText(p.planId), p.start + post;
      Split(x + "," + y, ",") == [x, y] && PyInt(Strip(x, "()")) == Some(p.planId) && Strip(y, "()") == p.start
  {
    IdHalf(p.planId, pre);
    StartHalf(p.start, post);
    SplitPair(pre + IntText(p.planId), ",", p.start + post);
    PyIntText(p.planId);
  }

  lemma Regroup3(pre: string, n: string, start: string, post: string)
    ensures pre + (n + "," + start) + post == (pre + n) + "," + (start + post)
  {
  }

  /** The id half of a piece holds no comma and strips to the id's text. */
  lemma IdHalf(i: int, pre: string)
    requires pre == "" || pre == "("
    ensures ',' !in pre + IntText(i) && Strip(pre + IntText(i), "()") == IntText(i)
  {
    var n := IntText(i);
    IntTextChars(i);
    assert ',' !in pre + n by { assert forall c :: c in pre + n ==> c in pre || c in n; }
    assert n[0] !in "()" && n[|n| - 1] !in "()";
    StripIdPart(n, pre);
  }

  /** The start half of a piece holds no comma and strips to the start. */
  lemma StartHalf(s: string, post: string)
    requires PlainStart(s) && (post == "" || post == ")")
    ensures ',' !in s + post && Strip(s + post, "()") == s
  {
    assert ',' !in s + post by { assert forall c :: c in s + post ==> c in s || c in post; }
    assert s[0] in s && s[|s| - 1] in s;
    StripStartPart(s, post);
  }

  /** The `k`-th piece, as "(" on the first, the plan's core, and ")" on the last. */
  lemma PieceAt(ps: seq<QueuedPlan>, k: nat)
    requires k < |ps|
    ensures Pieces(ps)[k] == (if k == 0 then "(" else "") + Core(ps[k]) + (if k == |ps| - 1 then ")" else "")
  {
    TailPieceAt(ps, k);
    var c := Core(ps[k]);
    var post := if k == |ps| - 1 then ")" else "";
    assert TailPieces(ps)[k] == c + post;
    if k == 0 {
      assert Pieces(ps)[0] == "(" + (c + post);
      ConcatAssoc("(", c, post);
    } else {
      assert Pieces(ps)[k] == c + post;
      ConcatAssoc("", c, post);
    }
  }

  lemma ConcatAssoc(a: string, b: string, c: string)
    ensures a + (b + c) == a + b + c && (a == "" ==> a + b + c == b + c)
  {
  }

  lemma PieceParses(ps: seq<QueuedPlan>, k: nat)
    requires k < |ps| && PlainStart(ps[k].start)
    ensures ParseItem(Pieces(ps)[k]) == Ok(ps[k])
  {
    PieceAt(ps, k);
    ParsePiece(ps[k], if k == 0 then "(" else "", if k == |ps| - 1 then ")" else "");
  }

  /** Only the last piece holds a `)`, as its last character. */
  lemma PieceParens(ps: seq<QueuedPlan>, k: nat)
    requires k < |ps| && PlainStart(ps[k].start)
    ensures var x := (if k == 0 then "(" else "") + Core(ps[k]);
      ')' !in x && Pieces(ps)[k] == x + (if k == |ps| - 1 then ")" else "")
  {
    PieceAt(ps, k);
    IntTextChars(ps[k].planId);
    var x := (if k == 0 then "(" else "") + IntText(ps[k].planId) + "," + ps[k].start;
    assert forall c :: c in x ==> c == '(' || c in IntText(ps[k].planId) || c == ',' || c in ps[k].start;
  }

  /** `split('),(')` cuts the pending cell into its pieces. */
  lemma PendingSplits(ps: seq<QueuedPlan>)
    requires |ps| > 0 && forall k :: 0 <= k < |ps| ==> PlainStart(ps[k].start)
    ensures Split(PendingText(ps), "),(") == Pieces(ps)
  {
    PendingAsPieces(ps);
    var items := Pieces(ps);
    var last := |ps| - 1;
    forall k | 0 <= k < last ensures ')' !in items[k] {
      PieceParens(ps, k);
    }
    PieceParens(ps, last);
    NoSeparatorInLast((if last == 0 then "(" else "") + Core(ps[last]));
    SplitJoin(items, "),(");
  }

  /**
   * Reading a pending cell written as "(id,start)" texts joined by "," gives
   * back exactly the written plans, in order, when no start holds a comma or
   * a parenthesis.
   */
  lemma PendingRoundTrip(ps: seq<QueuedPlan>)
    requires |ps| > 0 && forall k :: 0 <= k < |ps| ==> PlainStart(ps[k].start)
    ensures ParsePendingCell(PendingText(ps)) == Ok(ps)
  {
    PendingSplits(ps);
    forall k | 0 <= k < |ps| ensures ParseItem(Pieces(ps)[k]) == Ok(ps[k]) {
      PieceParses(ps, k);
    }
    MapAllOk(ParseItem, Pieces(ps), ps);
  }

  /** `str((id, start))`: the Python tuple text trigger.py writes for a plan. */
  function TupleText(p: QueuedPlan): string
  {
    "(" + IntText(p.planId) + ", '" + p.start + "')"
  }

  /**
   * The tuple text does not read back as its plan: the start comes back
   * with a leading space and surrounding quotes.
   */
  lemma TupleTextMisread(p: QueuedPlan)
    requires PlainStart(p.start) && '\'' !in p.start
    ensures ParsePendingCell(TupleText(p)) == Ok([QueuedPlan(p.planId, " '" + p.start + "'")])
  {
    var q := QueuedPlan(p.planId, " '" + p.start + "'");
    assert PlainStart(q.start) by {
      assert forall c :: c in q.start ==> c == ' ' || c == '\'' || c in p.start;
    }
    assert TupleText(p) == PendingText([q]) by {
      assert PlanTexts([q]) == [PlanText(q)];
    }
    PendingRoundTrip([q]);
  }

  /** The start recovered from a tuple text is one no timestamp reader accepts. */
  lemma TupleStartUnreadable(p: QueuedPlan)
    requires PlainStart(p.start) && '\'' !in p.start
    ensures ParsePendingCell(TupleText(p)).Ok? && |ParsePendingCell(TupleText(p)).value| == 1
    ensures var s := ParsePendingCell(TupleText(p)).value[0].start;
      s != p.start && CivilDates.ParseSeconds(s).None? && CivilDates.ParseMicro(s).None?
  {
    TupleTextMisread(p);
    var s := " '" + p.start + "'";
    assert s[0] == ' ';
    assert s != p.start by { assert |s| == |p.start| + 3; }
    CivilDates.LeadingSpaceRejected(s);
  }

  // ---------------------------------------------------------------------
  // check_triggered_csv

  /** Some row of the event has a pending cell (`Series.any()` skips NaN). */
  predicate HasPending(rows: seq<Row>, id: string)
  {
    exists k :: 0 <= k < |rows| && rows[k].supereventId == id && rows[k].pending.Some?
  }

  /**
   * `check_triggered_csv` of trigger_utils: triggered when some row of the
   * event has a pending cell; the plan id is then read from the first row's
   * pending cell, which raises `AttributeError` when that cell is NaN.
   */
  function CheckTriggered(rows: seq<Row>, id: string): (r: Result<(bool, Option<int>)>)
    ensures r.Ok? ==> (r.value.0 <==> HasPending(rows, id))
    ensures r.Ok? ==> (r.value.0 <==> r.value.1.Some?)
    ensures r.Err? ==> HasPending(rows, id) && (r.error == AttributeError || r.error == ValueError)
    ensures HasPending(rows, id) && rows[FirstRowOf(rows, id).value].pending.None? ==> r == Err(AttributeError)
  {
    if HasPending(rows, id) then
      var i := FirstRowOf(rows, id).value;
      match rows[i].pending
      case None => Err(AttributeError)
      case Some(cell) =>
        match PyInt(Split(Strip(cell, "()"), ",")[0])
        case None => Err(ValueError)
        case Some(planId) => Ok((true, Some(planId)))
    else Ok((false, None))
  }

  /**
   * When the event's first row holds a pending cell written from a list of
   * plans, the event is triggered and the plan id is the first plan's.
   */
  lemma CheckTriggeredFirstPlan(rows: seq<Row>, id: string, ps: seq<QueuedPlan>)
    requires |ps| > 0 && forall k :: 0 <= k < |ps| ==> PlainStart(ps[k].start)
    requires FirstRowOf(rows, id).Some? && rows[FirstRowOf(rows, id).value].pending == Some(PendingText(ps))
    ensures CheckTriggered(rows, id) == Ok((true, Some(ps[0].planId)))
  {
    var n := IntText(ps[0].planId);
    IntTextChars(ps[0].planId);
    PendingHead(ps);
    var w := AfterId(ps);
    StripOpenId(n, w);
    assert ',' !in n;
    SplitHead(n, ",", RStrip(w, "()"));
    PyIntText(ps[0].planId);
    assert HasPending(rows, id) by {
      var i := FirstRowOf(rows, id).value;
      assert rows[i].supereventId == id && rows[i].pending.Some?;
    }
  }

  /** What follows the first plan's id and comma in a pending cell. */
  function AfterId(ps: seq<QueuedPlan>): string
    requires |ps| > 0
  {
    ps[0].start + ")" + (if |ps| == 1 then "" else "," + PendingText(ps[1..]))
  }

  lemma PendingHead(ps: seq<QueuedPlan>)
    requires |ps| > 0
    ensures PendingText(ps) == "(" + IntText(ps[0].planId) + "," + AfterId(ps)
  {
    var t := PlanTexts(ps);
    assert t[0] == PlanText(ps[0]);
    if |ps| > 1 {
      assert t[1..] == PlanTexts(ps[1..]);
      assert PendingText(ps) == t[0] + "," + PendingText(ps[1..]);
    } else {
      assert PendingText(ps) == t[0];
    }
  }

  /** Stripping "()" from "(" + id + "," + rest only right-strips the rest. */
  lemma StripOpenId(n: string, w: string)
    requires |n| > 0 && n[0] !in "()"
    ensures Strip("(" + n + "," + w, "()") == n + "," + RStrip(w, "()")
  {
    var s := "(" + n + "," + w;
    assert s[1..] == n + "," + w;
    assert LStrip(s, "()") == LStrip(n + "," + w, "()");
    assert (n + "," + w)[0] == n[0];
    assert n + "," + w == (n + ",") + w;
    RStripKeepsPrefix(n + ",", w, "()");
  }

  /** Right-stripping removes nothing from a prefix that ends outside `chars`. */
  lemma {:induction false} RStripKeepsPrefix(x: string, y: string, chars: string)
    requires |x| > 0 && x[|x| - 1] !in chars
    ensures RStrip(x + y, chars) == x + RStrip(y, chars)
    decreases |y|
  {
    if |y| == 0 {
      assert x + y == x;
    } else if y[|y| - 1] in chars {
      assert (x + y)[..|x + y| - 1] == x + y[..|y| - 1];
      RStripKeepsPrefix(x, y[..|y| - 1], chars);
    }
  }

  /**
   * `check_triggered_csv` of the TriggerBot variant: any row of the event
   * makes it triggered, and reading the `observation_plan_id` column, which
   * that bot's add_triggercsv never writes, raises `KeyError`.
   */
  function CheckTriggeredTriggerBot(rows: seq<Row>, id: string): (r: Result<(bool, Option<int>)>)
    ensures r.Err? <==> exists k :: 0 <= k < |rows| && rows[k].supereventId == id
    ensures r.Err? ==> r.error == KeyError
    ensures r.Ok? ==> r.value == (false, None)
  {
    if exists k :: 0 <= k < |rows| && rows[k].supereventId == id then Err(KeyError) else Ok((false, None))
  }

  // ---------------------------------------------------------------------
  // add_triggercsv

  function BoolText(b: bool): string
  {
    if b then "True" else "False"
  }

  /**
   * The row `add_triggercsv` of trigger_utils appends, as it reads back:
   * the cadence list as `str(list)`, the two observation columns empty.
   */
  function NewRow(id: string, dateobs: string, gcnType: string, gcnId: int, localizationId: int,
                  cadence: seq<string>, queued: Cell, serendipitous: Cell, valid: bool): (r: Row)
    ensures NormalRow(r) && r.supereventId == id
    ensures r.unsuccessful.None? && r.successful.None?
    ensures r.pending == Normalised(queued) && r.serendipitous == Normalised(serendipitous)
    ensures r.valid == Some(BoolText(valid))
    ensures r.triggerCadence == Some(ListRepr(cadence))
  {
    ReadBack(Row(id, Some(dateobs), Some(gcnType), Some(IntText(gcnId)), Some(IntText(localizationId)),
      Some(ListRepr(cadence)), queued, None, None, serendipitous, Some(BoolText(valid))))
  }

  /** The cadence cell of a new row reads back as the follow-up dates written into it. */
  lemma NewRowCadence(id: string, dateobs: string, gcnType: string, gcnId: int, localizationId: int,
                      cadence: seq<string>, queued: Cell, serendipitous: Cell, valid: bool)
    requires |cadence| > 0 && forall k :: 0 <= k < |cadence| ==> PlainItem(cadence[k])
    ensures ParseCadenceCell(NewRow(id, dateobs, gcnType, gcnId, localizationId, cadence, queued, serendipitous, valid)
      .triggerCadence.value) == cadence
  {
    CadenceCellRoundTrip(cadence);
  }

  /** The row `add_triggercsv` of TriggerBot appends: no serendipitous column. */
  function NewRowTriggerBot(id: string, dateobs: string, gcnType: string, gcnId: int, localizationId: int,
                            queued: Cell, cadence: seq<string>, valid: bool): (r: Row)
    ensures r == NewRow(id, dateobs, gcnType, gcnId, localizationId, cadence, queued, None, valid)
  {
    NewRow(id, dateobs, gcnType, gcnId, localizationId, cadence, queued, None, valid)
  }

  /** `str((a, b))` for two texts without quotes: the `gcn_type` cell. */
  function PairText(a: string, b: string): string
  {
    "('" + a + "', '" + b + "')"
  }

  /** The trigger log file, read into memory and rewritten by each update. */
  class TriggerLogFile {
    var rows: seq<Row>

    ghost predicate Valid()
      reads this
    {
      NormalRows(rows)
    }

    constructor (initial: seq<Row>)
      requires NormalRows(initial)
      ensures Valid() && rows == initial
    {
      rows := initial;
    }

    /** `update_trigger_log`; an exception leaves the file as it was. */
    method Update(id: string, col: Column, value: string, mode: UpdateMode) returns (raised: Option<Raised>)
      requires Valid()
      modifies this
      ensures Valid()
      ensures UpdatedRows(old(rows), id, col, value, mode).Ok? ==>
        raised.None? && rows == UpdatedRows(old(rows), id, col, value, mode).value
      ensures UpdatedRows(old(rows), id, col, value, mode).Err? ==>
        raised == Some(UpdatedRows(old(rows), id, col, value, mode).error) && rows == old(rows)
    {
      var u := UpdatedRows(rows, id, col, value, mode);
      if u.Ok? {
        UpdateTouchesOnlyColumn(rows, id, col, value, mode);
        rows := u.value;
        raised := None;
      } else {
        raised := Some(u.error);
      }
    }

    /** `add_triggercsv`: the row is appended; existing rows are not edited. */
    method Append(r: Row)
      requires Valid()
      modifies this
      ensures Valid() && rows == old(rows) + [ReadBack(r)]
    {
      rows := rows + [ReadBack(r)];
    }
  }
}
