/**
 * The daily photometry run of flares.py, parts 0 to 2: bring the pipeline
 * record up to date, drain the backlog of queued requests, pick the new
 * events to request photometry for, admit each request under the service's
 * ceiling of 15000 pending AGN, and mark returned photometry complete.
 *
 * The run is an object holding the pipeline record, the queue directory,
 * the events dictionary's flare sections, the pending counter and the
 * `do_photometry` flag. Every step is proved against a function over a
 * snapshot of that state (`World`); an exception the script does not catch
 * ends the run, which the snapshot records in `failure`.
 */
module FlareRun {
  import opened Wrappers
  import opened Seqs
  import PhotoBatch
  import opened PhotoQueue
  import ZfpsSubmit
  import opened PhotoLog

  /** The most AGN the forced-photometry service accepts pending at once. */
  const Ceiling: int := PhotoBatch.AgnCeiling

  /** What the run may touch, at one moment. */
  datatype World = World(
    pending: int, doPhotometry: bool,
    ids: seq<string>, events: map<string, EventRec>, stats: SummaryStats,
    queued: map<string, QueueFile>, completed: map<string, QueueFile>,
    flares: ZfpsSubmit.EventsDict, writes: nat, failure: Option<Raised>)

  /**
   * The run's inputs from outside: testing mode, the clock (as an ISO text,
   * a Julian date, and one timestamp per queue write), the crossmatch and
   * local photometry each request draws on, and the batching threshold.
   */
  datatype Env = Env(
    testing: bool, nowIso: string, nowJd: real, clock: nat -> string,
    source: string -> PhotoBatch.AgnSource, cat: PhotoBatch.Catalogs,
    local: PhotoBatch.Coord -> Option<real>, threshold: real)

  function ActionName(a: PhotoBatch.Action): string
  {
    match a
    case AllCoords => "all"
    case NewCoords => "new"
    case UpdateCoords => "update"
  }

  /** The pipeline entry recorded for a submission (flares.py:106-117, 235-245). */
  function SubmittedEntry(s: ZfpsSubmit.Submission, action: PhotoBatch.Action, fromQueue: bool): (z: ZfpsItem)
    ensures z.Entry? && !z.complete && z.fromQueue == fromQueue
    ensures z.numAgnSubmitted == s.numAgn && z.submissionDate == s.photometryDate
  {
    Entry(s.photometryDate, ActionName(action), s.numAgn, s.numBatches, None, None, None, false, fromQueue)
  }

  predicate Fits(pending: int, n: int)
  {
    pending + n <= Ceiling
  }

  // ---------------------------------------------------------------------
  // Part 0: the backlog drain (flares.py:71-123)

  /** A queued request submitted: its entry recorded, the counter raised, its file moved. */
  function Drained(w: World, e: Queued, env: Env): (r: World)
    ensures r.doPhotometry == w.doPhotometry && r.ids == w.ids && r.writes == w.writes
    ensures r.events.Keys == w.events.Keys
    ensures e.ra != [] ==> r.failure == w.failure && r.pending == w.pending + TotalLength(e.ra)
    ensures e.ra != [] ==> r.queued == w.queued - {e.fileName}
    ensures e.ra != [] && e.id in w.events ==>
      (|r.events[e.id].zfps| == |w.events[e.id].zfps| + 1 && r.events[e.id].zfps[|w.events[e.id].zfps|].Entry?
       && r.events[e.id].zfps[|w.events[e.id].zfps|].fromQueue)
    ensures e.ra == [] ==> r.failure == Some(TypeError) && r.pending == w.pending
  {
    var out := ZfpsSubmit.Submit(PhotoBatch.Request(e.ra, e.dec, e.jd, e.numberToSubmit), e.id, env.testing, env.nowIso, w.flares);
    var rec := EntryAdded(w.events, w.stats, e.id, SubmittedEntry(out.submission, e.action, true));
    var w1 := w.(flares := out.events, events := rec.events, stats := rec.stats);
    if rec.raised.Some? then w1.(failure := rec.raised)
    else if out.submission.numAgn.None? then w1.(failure := Some(TypeError))
    else if e.fileName in w.queued then
      w1.(pending := w.pending + out.submission.numAgn.value, queued := w.queued - {e.fileName},
          completed := w.completed[e.fileName := w.queued[e.fileName]])
    else w1.(pending := w.pending + out.submission.numAgn.value, queued := w.queued - {e.fileName})
  }

  /** The drain loop: submit in order until an entry would pass the ceiling, then stop. */
  function DrainFrom(w: World, es: seq<Queued>, env: Env): World
    decreases |es|
  {
    if es == [] || w.failure.Some? then w
    else if !Fits(w.pending, es[0].numberToSubmit) then w.(doPhotometry := false)
    else DrainFrom(Drained(w, es[0], env), es[1..], env)
  }

  /** How many entries the drain submits, checking each one's stated size but adding its batches' size. */
  function DrainCount(pending: int, es: seq<Queued>): (k: nat)
    ensures k <= |es|
    decreases |es|
  {
    if es == [] || !Fits(pending, es[0].numberToSubmit) then 0
    else 1 + DrainCount(pending + TotalLength(es[0].ra), es[1..])
  }

  /** The counter after submitting the first `k` entries. */
  function PendingAfter(pending: int, es: seq<Queued>, k: nat): int
    requires k <= |es|
    decreases k
  {
    if k == 0 then pending else PendingAfter(pending + TotalLength(es[0].ra), es[1..], k - 1)
  }

  function FileNames(es: seq<Queued>): set<string>
  {
    set e | e in es :: e.fileName
  }

  /** A queue file as `queue_photometry` writes it: batches present, and the count they hold. */
  predicate WellFormed(e: Queued)
  {
    e.ra != [] && e.numberToSubmit == TotalLength(e.ra)
  }

  /**
   * The drain submits exactly the entries before the first one that would
   * pass the ceiling and tries none after it: each submitted one fitted,
   * the one it stopped at did not, and `do_photometry` is cleared exactly
   * when it stopped early.
   */
  lemma {:induction false} DrainStopsAtFirstMisfit(pending: int, es: seq<Queued>)
    ensures var k := DrainCount(pending, es);
      (forall j :: 0 <= j < k ==> Fits(PendingAfter(pending, es, j), es[j].numberToSubmit))
      && (k < |es| ==> !Fits(PendingAfter(pending, es, k), es[k].numberToSubmit))
    decreases |es|
  {
    if es != [] && Fits(pending, es[0].numberToSubmit) {
      var p1 := pending + TotalLength(es[0].ra);
      DrainStopsAtFirstMisfit(p1, es[1..]);
      forall j | 1 <= j < DrainCount(pending, es)
        ensures Fits(PendingAfter(pending, es, j), es[j].numberToSubmit)
      {
        assert PendingAfter(pending, es, j) == PendingAfter(p1, es[1..], j - 1);
        assert es[j] == es[1..][j - 1];
      }
    }
  }

  /** With well-formed queue files the drain raises nothing and its counter ends at the value after the submitted entries. */
  lemma {:induction false} DrainPending(w: World, es: seq<Queued>, env: Env)
    requires w.failure.None? && forall e :: e in es ==> WellFormed(e)
    ensures DrainFrom(w, es, env).failure.None?
    ensures DrainFrom(w, es, env).pending == PendingAfter(w.pending, es, DrainCount(w.pending, es))
    decreases |es|
  {
    if es != [] && Fits(w.pending, es[0].numberToSubmit) {
      assert es[0] in es && forall e :: e in es[1..] ==> e in es;
      DrainPending(Drained(w, es[0], env), es[1..], env);
    }
  }

  /** One submitted entry of the drain: the rest of the drain goes on from the world it leaves. */
  lemma DrainStep(w: World, es: seq<Queued>, env: Env)
    requires w.failure.None? && es != [] && Fits(w.pending, es[0].numberToSubmit) && WellFormed(es[0])
    ensures var w1 := Drained(w, es[0], env);
      w1.failure.None? && w1.queued == w.queued - {es[0].fileName}
      && DrainFrom(w, es, env) == DrainFrom(w1, es[1..], env)
      && DrainCount(w.pending, es) == 1 + DrainCount(w1.pending, es[1..])
  {
  }

  /** The files of the submitted entries, and only those, leave the queue. */
  lemma {:induction false} DrainMoves(w: World, es: seq<Queued>, env: Env)
    requires w.failure.None? && forall e :: e in es ==> WellFormed(e)
    ensures DrainFrom(w, es, env).queued == w.queued - FileNames(es[..DrainCount(w.pending, es)])
    decreases |es|
  {
    if es == [] || !Fits(w.pending, es[0].numberToSubmit) {
      assert es[..0] == [];
      assert FileNames([]) == {};
    } else {
      var w1 := Drained(w, es[0], env);
      assert es[0] in es && forall e :: e in es[1..] ==> e in es;
      DrainStep(w, es, env);
      DrainMoves(w1, es[1..], env);
      var k := DrainCount(w.pending, es);
      FileNamesCons(es, k);
      MinusBoth(w.queued, es[0].fileName, FileNames(es[1..][..k - 1]));
    }
  }

  lemma FileNamesCons(es: seq<Queued>, k: nat)
    requires 0 < k <= |es|
    ensures FileNames(es[..k]) == {es[0].fileName} + FileNames(es[1..][..k - 1])
  {
    assert es[..k] == [es[0]] + es[1..][..k - 1];
  }

  lemma MinusBoth<V>(m: map<string, V>, a: string, b: set<string>)
    ensures (m - {a}) - b == m - ({a} + b)
  {
  }

  /** `do_photometry` survives the drain only if every entry was submitted. */
  lemma {:induction false} DrainClearsFlag(w: World, es: seq<Queued>, env: Env)
    requires w.failure.None? && forall e :: e in es ==> WellFormed(e)
    ensures DrainFrom(w, es, env).doPhotometry == (w.doPhotometry && DrainCount(w.pending, es) == |es|)
    decreases |es|
  {
    if es != [] && Fits(w.pending, es[0].numberToSubmit) {
      assert es[0] in es && forall e :: e in es[1..] ==> e in es;
      DrainClearsFlag(Drained(w, es[0], env), es[1..], env);
    }
  }

  /**
   * The drain checks each entry's stated size; with well-formed files that
   * is the size it adds, so a counter within the ceiling stays within it.
   */
  lemma {:induction false} DrainWithinCeiling(pending: int, es: seq<Queued>)
    requires pending <= Ceiling && forall e :: e in es ==> WellFormed(e)
    ensures pending <= PendingAfter(pending, es, DrainCount(pending, es)) <= Ceiling
    decreases |es|
  {
    if es != [] && Fits(pending, es[0].numberToSubmit) {
      assert es[0] in es && forall e :: e in es[1..] ==> e in es;
      DrainWithinCeiling(pending + TotalLength(es[0].ra), es[1..]);
    }
  }

  // ---------------------------------------------------------------------
  // Part 1: picking new events (flares.py:177-200)

  /** One new event with the trigger status its audit gave it. */
  datatype Candidate = Candidate(id: string, dateobs: string, tag: string, detail: string)

  /** `[id, date, "new"]`. */
  datatype NewEvent = NewEvent(id: string, dateobs: string)

  const NoRequestMarker: string := "did not make new request"
  const MissedMarker: string := "missed new request"
  /** A request is made automatically only within this many days of the event. */
  const RequestDays: real := 7.0

  predicate Ignored(c: Candidate)
  {
    c.tag == "correct" && c.detail != "triggered"
  }

  /** The marker recorded instead of a request; the age test decides last. */
  function MarkerFor(c: Candidate, age: real): Option<string>
  {
    if age > RequestDays then Some(MissedMarker)
    else if c.tag != "correct" || c.detail != "triggered" then Some(NoRequestMarker)
    else None
  }

  datatype Selection = Selection(w: World, needs: seq<NewEvent>)

  /**
   * The selection loop; `jdOf` converts an observation date, None when the
   * text is not a date (ValueError).
   */
  function SelectFrom(w: World, cs: seq<Candidate>, jdOf: string -> Option<real>, nowJd: real): (r: Selection)
    ensures r.w.pending == w.pending && r.w.stats == w.stats && r.w.queued == w.queued && r.w.flares == w.flares
    decreases |cs|
  {
    if cs == [] || w.failure.Some? then Selection(w, [])
    else
      var c := cs[0];
      if Ignored(c) then SelectFrom(w, cs[1..], jdOf, nowJd)
      else match jdOf(c.dateobs)
        case None => Selection(w.(failure := Some(ValueError)), [])
        case Some(jd) =>
          match MarkerFor(c, nowJd - jd)
          case Some(m) =>
            var added := EventAdded(w.ids, w.events, c.id, EventRec(Some(c.dateobs), false, [Marker(m)]));
            SelectFrom(w.(ids := added.0, events := added.1), cs[1..], jdOf, nowJd)
          case None =>
            var rest := SelectFrom(w, cs[1..], jdOf, nowJd);
            Selection(rest.w, [NewEvent(c.id, c.dateobs)] + rest.needs)
  }

  /** The events requested: audited correct and triggered, and no more than a week old. */
  predicate Requested(c: Candidate, jdOf: string -> Option<real>, nowJd: real)
  {
    c.tag == "correct" && c.detail == "triggered" && jdOf(c.dateobs).Some? && nowJd - jdOf(c.dateobs).value <= RequestDays
  }

  function Requests(cs: seq<Candidate>, jdOf: string -> Option<real>, nowJd: real): seq<NewEvent>
  {
    if cs == [] then []
    else (if Requested(cs[0], jdOf, nowJd) then [NewEvent(cs[0].id, cs[0].dateobs)] else []) + Requests(cs[1..], jdOf, nowJd)
  }

  /**
   * Without a bad date, the requests are exactly the correct triggered
   * events within a week, in order, and every other event not ignored is
   * recorded in the pipeline record with its marker.
   */
  lemma SelectionExactly(w: World, cs: seq<Candidate>, jdOf: string -> Option<real>, nowJd: real)
    requires w.failure.None?
    requires SelectFrom(w, cs, jdOf, nowJd).w.failure.None?
    ensures SelectFrom(w, cs, jdOf, nowJd).needs == Requests(cs, jdOf, nowJd)
    ensures forall c :: c in cs && !Ignored(c) && !Requested(c, jdOf, nowJd) ==> c.id in SelectFrom(w, cs, jdOf, nowJd).w.events
    ensures forall id :: id in w.events ==> id in SelectFrom(w, cs, jdOf, nowJd).w.events
  {
    SelectionNeeds(w, cs, jdOf, nowJd);
    SelectionRecorded(w, cs, jdOf, nowJd);
    SelectionKeeps(w, cs, jdOf, nowJd);
  }

  lemma {:induction false} SelectionNeeds(w: World, cs: seq<Candidate>, jdOf: string -> Option<real>, nowJd: real)
    requires SelectFrom(w, cs, jdOf, nowJd).w.failure.None?
    ensures SelectFrom(w, cs, jdOf, nowJd).needs == Requests(cs, jdOf, nowJd)
    decreases |cs|
  {
    if cs != [] && w.failure.None? {
      var c := cs[0];
      if Ignored(c) {
        SelectionNeeds(w, cs[1..], jdOf, nowJd);
      } else {
        var jd := jdOf(c.dateobs).value;
        match MarkerFor(c, nowJd - jd)
        case Some(m) =>
          var added := EventAdded(w.ids, w.events, c.id, EventRec(Some(c.dateobs), false, [Marker(m)]));
          SelectionNeeds(w.(ids := added.0, events := added.1), cs[1..], jdOf, nowJd);
        case None =>
          SelectionNeeds(w, cs[1..], jdOf, nowJd);
      }
    }
  }

  lemma {:induction false} SelectionKeeps(w: World, cs: seq<Candidate>, jdOf: string -> Option<real>, nowJd: real)
    ensures forall id :: id in w.events ==> id in SelectFrom(w, cs, jdOf, nowJd).w.events
    decreases |cs|
  {
    if cs != [] && w.failure.None? {
      var c := cs[0];
      if Ignored(c) {
        SelectionKeeps(w, cs[1..], jdOf, nowJd);
      } else if jdOf(c.dateobs).Some? {
        var jd := jdOf(c.dateobs).value;
        match MarkerFor(c, nowJd - jd)
        case Some(m) =>
          var added := EventAdded(w.ids, w.events, c.id, EventRec(Some(c.dateobs), false, [Marker(m)]));
          SelectionKeeps(w.(ids := added.0, events := added.1), cs[1..], jdOf, nowJd);
        case None =>
          SelectionKeeps(w, cs[1..], jdOf, nowJd);
      }
    }
  }

  lemma {:induction false} SelectionRecorded(w: World, cs: seq<Candidate>, jdOf: string -> Option<real>, nowJd: real)
    requires SelectFrom(w, cs, jdOf, nowJd).w.failure.None?
    ensures forall c :: c in cs && !Ignored(c) && !Requested(c, jdOf, nowJd) ==> c.id in SelectFrom(w, cs, jdOf, nowJd).w.events
    decreases |cs|
  {
    if cs != [] && w.failure.None? {
      var c := cs[0];
      assert forall d :: d in cs <==> d == c || d in cs[1..];
      if Ignored(c) {
        SelectionRecorded(w, cs[1..], jdOf, nowJd);
      } else {
        var jd := jdOf(c.dateobs).value;
        match MarkerFor(c, nowJd - jd)
        case Some(m) =>
          var added := EventAdded(w.ids, w.events, c.id, EventRec(Some(c.dateobs), false, [Marker(m)]));
          var w1 := w.(ids := added.0, events := added.1);
          SelectionRecorded(w1, cs[1..], jdOf, nowJd);
          SelectionKeeps(w1, cs[1..], jdOf, nowJd);
        case None =>
          SelectionRecorded(w, cs[1..], jdOf, nowJd);
      }
    }
  }

  // ---------------------------------------------------------------------
  // Part 1: admission under the ceiling (flares.py:204-261)

  /** One clock reading per queue write, from the `from`-th on. */
  function Stamps(clock: nat -> string, from: nat, count: nat): (r: seq<string>)
    ensures |r| == count
    decreases count
  {
    if count == 0 then [] else [clock(from)] + Stamps(clock, from + 1, count - 1)
  }

  /**
   * The backlog slices of an event queued, one clock reading each
   * (photometry_utils.py:241-254), under the intended names of `PhotoQueue.Queue`.
   */
  function Backlogged(w: World, id: string, backlog: seq<PhotoBatch.Request>, env: Env): (r: World)
    ensures r == w.(queued := r.queued, writes := w.writes + |backlog|)
    ensures forall n :: n in w.queued ==> n in r.queued
  {
    var stamps := Stamps(env.clock, w.writes, |backlog|);
    QueueAllKeeps(w.queued, id, PhotoBatch.NewCoords, backlog, stamps);
    w.(queued := QueueAll(w.queued, id, PhotoBatch.NewCoords, backlog, stamps), writes := w.writes + |backlog|)
  }

  /**
   * Over the ceiling: the event is recorded with no requests and the batches
   * queued (flares.py:220-228), under the intended name of `PhotoQueue.Queue`.
   */
  function Overflowed(w: World, x: NewEvent, q: PhotoBatch.Request, env: Env): (r: World)
    ensures r.pending == w.pending && !r.doPhotometry && r.failure == w.failure && r.flares == w.flares
    ensures x.id in r.events && forall id :: id in w.events ==> id in r.events
    ensures forall n :: n in w.queued ==> n in r.queued
    ensures QueueName(w.queued, x.id, env.clock(w.writes)) in r.queued
  {
    var added := EventAdded(w.ids, w.events, x.id, EventRec(Some(x.dateobs), false, []));
    var f := QueueFile(q.ra, q.dec, q.jd, q.numAgn, PhotoBatch.NewCoords);
    w.(ids := added.0, events := added.1, doPhotometry := false,
       queued := Queue(w.queued, x.id, env.clock(w.writes), f), writes := w.writes + 1)
  }

  /**
   * Within the ceiling: submit, raise the counter by the AGN count, and
   * record the event and its request (flares.py:230-261).
   */
  function SubmittedNow(w: World, x: NewEvent, q: PhotoBatch.Request, env: Env): (r: World)
    ensures r.pending == w.pending + q.numAgn && r.doPhotometry == w.doPhotometry && r.queued == w.queued
    ensures x.id in r.events && forall id :: id in w.events ==> id in r.events
    ensures q.ra != [] && x.id !in w.events ==> (r.failure.None?
      && r.events[x.id].zfps == [SubmittedEntry(ZfpsSubmit.Submission(Some(env.nowIso), Some(TotalLength(q.ra)), Some(|q.ra|)), PhotoBatch.NewCoords, false)])
  {
    var out := ZfpsSubmit.Submit(q, x.id, env.testing, env.nowIso, w.flares);
    var added := EventAdded(w.ids, w.events, x.id, EventRec(Some(x.dateobs), false, []));
    var rec := EntryAdded(added.1, w.stats, x.id, SubmittedEntry(out.submission, PhotoBatch.NewCoords, false));
    w.(flares := out.events, pending := w.pending + q.numAgn, ids := added.0, events := rec.events,
       stats := rec.stats, failure := rec.raised)
  }

  /**
   * `format_for_zfps` with no coordinates (photometry_utils.py:186-190):
   * the event's `flare` section becomes the marker and the dictionary is
   * saved, in testing mode too, before the caller's unpack of the returned
   * None raises `e`; an event missing from the dictionary raises KeyError
   * at that write instead.
   */
  function NoAgnRecorded(w: World, id: string, e: Raised): World
  {
    if id in w.flares then w.(flares := w.flares[id := Some(PhotoBatch.FlareRecord(Some(PhotoBatch.NoAgnMarker)))], failure := Some(e))
    else w.(failure := Some(KeyError))
  }

  /**
   * One new event: fetch and batch its coordinates, queue the backlog
   * slices, then queue or submit the batches to send now. An event with no
   * coordinates to request is marked "no AGN observable by ZTF" and the
   * unpack of `format_for_zfps`'s None ends the run with TypeError.
   */
  function Admitted(w: World, x: NewEvent, env: Env): (r: World)
    ensures r.pending == w.pending || (r.pending > w.pending && r.pending <= Ceiling)
    ensures r.failure.None? ==> x.id in r.events
    ensures forall id :: id in w.events ==> id in r.events
    ensures forall n :: n in w.queued ==> n in r.queued
    ensures var agn := PhotoBatch.GetAgnCoords(env.source(x.id), env.cat, PhotoBatch.NewCoords, env.local, env.nowJd);
      agn.Ok? && agn.value.coords == [] ==>
        r == if x.id in w.flares
             then w.(flares := w.flares[x.id := Some(PhotoBatch.FlareRecord(Some(PhotoBatch.NoAgnMarker)))], failure := Some(TypeError))
             else w.(failure := Some(KeyError))
  {
    match PhotoBatch.GetPhotometryCoords(env.source(x.id), env.cat, PhotoBatch.NewCoords, env.local, env.nowJd, env.threshold)
    case Err(e) => NoAgnRecorded(w, x.id, e)
    case Ok(split) =>
      var w1 := Backlogged(w, x.id, split.backlog, env);
      if !Fits(w1.pending, split.now.numAgn) then Overflowed(w1, x, split.now, env)
      else SubmittedNow(w1, x, split.now, env)
  }

  /** The admission loop: an event over the ceiling is queued and the loop goes on. */
  function AdmitFrom(w: World, xs: seq<NewEvent>, env: Env): World
    decreases |xs|
  {
    if xs == [] || w.failure.Some? then w
    else AdmitFrom(Admitted(w, xs[0], env), xs[1..], env)
  }

  function Max(a: int, b: int): int
  {
    if a < b then b else a
  }

  /**
   * The admission loop never takes the counter past the higher of where it
   * started and the ceiling, and only ever raises it; every event it
   * reaches is in the pipeline record afterwards, queued or submitted, and
   * no queue file written before is lost.
   */
  lemma {:induction false} AdmissionBounded(w: World, xs: seq<NewEvent>, env: Env)
    ensures var r := AdmitFrom(w, xs, env);
      w.pending <= r.pending <= Max(w.pending, Ceiling)
      && (forall id :: id in w.events ==> id in r.events)
      && (forall n :: n in w.queued ==> n in r.queued)
      && (w.failure.None? && r.failure.None? ==> forall x :: x in xs ==> x.id in r.events)
    decreases |xs|
  {
    if xs != [] && w.failure.None? {
      var w1 := Admitted(w, xs[0], env);
      AdmissionBounded(w1, xs[1..], env);
      if AdmitFrom(w, xs, env).failure.None? {
        NoFailureBefore(w1, xs[1..], env);
      }
    }
  }

  /** A failure, once recorded, is what the rest of the loop ends with. */
  lemma {:induction false} NoFailureBefore(w: World, xs: seq<NewEvent>, env: Env)
    requires AdmitFrom(w, xs, env).failure.None?
    ensures w.failure.None?
    decreases |xs|
  {
    if xs != [] && w.failure.None? {
      NoFailureBefore(Admitted(w, xs[0], env), xs[1..], env);
    }
  }

  // ---------------------------------------------------------------------
  // Part 2: photometry returned (flares.py:272-299)

  /** `(batch_ids, num_returned, num_broken_urls)` from `SavePhotometry.save`. */
  datatype Saved = Saved(batchIds: string, numReturned: int, numBroken: int)

  datatype Retrieval = Retrieval(w: World, flagged: seq<string>)

  /** Each waiting request whose photometry came back is marked complete and its event flagged. */
  function CompleteFrom(w: World, ws: seq<Waiting>, save: Waiting -> Option<Saved>): (r: Retrieval)
    ensures r.w.pending == w.pending && r.w.ids == w.ids && r.w.queued == w.queued
    decreases |ws|
  {
    if ws == [] || w.failure.Some? then Retrieval(w, [])
    else
      var x := ws[0];
      match save(x)
      case None => CompleteFrom(w, ws[1..], save)
      case Some(s) =>
        var rec := CompleteUpdate(w.events, w.stats, x.id, x.submissionDate, s.batchIds, s.numReturned, s.numBroken);
        var w1 := w.(events := rec.events, stats := rec.stats, failure := rec.raised);
        if rec.raised.Some? then Retrieval(w1, [])
        else
          var rest := CompleteFrom(w1, ws[1..], save);
          Retrieval(rest.w, [x.id] + rest.flagged)
  }

  /** With nothing raised, the events flagged for a flare check are exactly those whose photometry was saved. */
  lemma {:induction false} FlaggedExactly(w: World, ws: seq<Waiting>, save: Waiting -> Option<Saved>)
    requires w.failure.None? && CompleteFrom(w, ws, save).w.failure.None?
    ensures forall id :: id in CompleteFrom(w, ws, save).flagged <==> exists x :: x in ws && save(x).Some? && x.id == id
    decreases |ws|
  {
    if ws != [] {
      var x := ws[0];
      match save(x)
      case None =>
        FlaggedExactly(w, ws[1..], save);
        assert forall y :: y in ws <==> y == x || y in ws[1..];
      case Some(s) =>
        var rec := CompleteUpdate(w.events, w.stats, x.id, x.submissionDate, s.batchIds, s.numReturned, s.numBroken);
        FlaggedExactly(w.(events := rec.events, stats := rec.stats, failure := rec.raised), ws[1..], save);
        assert forall y :: y in ws <==> y == x || y in ws[1..];
    }
  }

  // ---------------------------------------------------------------------
  // The run as an object

  class FlareRunState {
    const log: PhotometryLogFile
    const queue: QueueDir
    var pending: int
    var doPhotometry: bool
    var flares: ZfpsSubmit.EventsDict
    var writes: nat
    var failure: Option<Raised>

    ghost function State(): World
      reads this, log, queue
    {
      World(pending, doPhotometry, log.ids, log.events, log.stats, queue.queued, queue.completed, flares, writes, failure)
    }

    ghost predicate Valid()
      reads this, log
    {
      log.Valid()
    }

    /** `do_photometry = True` before anything is known; no clock reading yet. */
    constructor (record: PhotometryLogFile, dir: QueueDir, eventsFlares: ZfpsSubmit.EventsDict)
      requires record.Valid()
      ensures Valid() && log == record && queue == dir && flares == eventsFlares
      ensures pending == 0 && doPhotometry && writes == 0 && failure.None?
    {
      log := record;
      queue := dir;
      pending := 0;
      doPhotometry := true;
      flares := eventsFlares;
      writes := 0;
      failure := None;
    }

    /**
     * flares.py:58-70: mark old events, read the status (the update list it
     * gives is dropped), read the pending count and clear `do_photometry`
     * over the ceiling; a count of None cannot be compared (TypeError).
     */
    method StartUp(age: string -> Option<real>, reported: Option<int>) returns (waiting: seq<Waiting>)
      requires Valid() && failure.None?
      modifies this, log
      ensures Valid() && log.ids == old(log.ids) && log.stats == old(log.stats)
      ensures flares == old(flares) && writes == old(writes)
      ensures failure.None? ==> reported.Some? && pending == reported.value
      ensures failure.None? ==> doPhotometry == (old(doPhotometry) && pending <= Ceiling)
      ensures failure.None? ==> CompletedFrom(old(log.ids), old(log.events), age) == Pass(log.events, None)
      ensures failure.None? ==> StatusFrom(log.ids, log.events, age).Ok? && waiting == StatusFrom(log.ids, log.events, age).value.waiting
    {
      waiting := [];
      var raised := log.CheckCompletedEvents(age);
      if raised.Some? {
        failure := raised;
        return;
      }
      var needs;
      needs, waiting, raised := log.CheckPhotometryStatus(age);
      if raised.Some? {
        failure := raised;
        return;
      }
      needs := [];
      if reported.None? {
        failure := Some(TypeError);
        return;
      }
      pending := reported.value;
      if pending > Ceiling {
        doPhotometry := false;
      }
    }

    /** One queued request submitted (flares.py:91-121). */
    method DrainOne(e: Queued, env: Env)
      requires Valid() && failure.None? && Fits(pending, e.numberToSubmit)
      modifies this, log, queue
      ensures Valid() && State() == Drained(old(State()), e, env)
    {
      var out := ZfpsSubmit.Submit(PhotoBatch.Request(e.ra, e.dec, e.jd, e.numberToSubmit), e.id, env.testing, env.nowIso, flares);
      flares := out.events;
      var raised := log.AddZfpsEntry(e.id, SubmittedEntry(out.submission, e.action, true));
      if raised.Some? {
        failure := raised;
        return;
      }
      if out.submission.numAgn.None? {
        failure := Some(TypeError);
        return;
      }
      pending := pending + out.submission.numAgn.value;
      queue.MoveCompleteQueuedPhotometry(e.fileName);
    }

    /** flares.py:71-121: the drain over the queue directory as listed. */
    method Drain(listing: seq<string>, env: Env)
      requires Valid() && failure.None? && doPhotometry
      requires forall n :: n in listing && IsJsonName(n) ==> n in queue.queued
      modifies this, log, queue
      ensures Valid() && State() == DrainFrom(old(State()), Retrieved(listing, old(queue.queued)), env)
    {
      var es := queue.RetrieveQueuePhotometry(listing);
      ghost var start := State();
      var i := 0;
      while i < |es|
        invariant 0 <= i <= |es| && Valid()
        invariant DrainFrom(start, es, env) == DrainFrom(State(), es[i..], env)
      {
        var stop := DrainNext(es[i..], env);
        if stop {
          return;
        }
        assert es[i..][1..] == es[i + 1..];
        i := i + 1;
      }
    }

    /** One turn of the drain loop over the entries left; `stop` when the loop ends on it. */
    method DrainNext(es: seq<Queued>, env: Env) returns (stop: bool)
      requires Valid() && es != []
      modifies this, log, queue
      ensures Valid()
      ensures stop ==> State() == DrainFrom(old(State()), es, env)
      ensures !stop ==> DrainFrom(old(State()), es, env) == DrainFrom(State(), es[1..], env)
    {
      if failure.Some? {
        return true;
      }
      if !Fits(pending, es[0].numberToSubmit) {
        doPhotometry := false;
        return true;
      }
      DrainOne(es[0], env);
      return false;
    }

    /** flares.py:177-200: returns `needs_photometry_request`, which starts empty. */
    method Select(cs: seq<Candidate>, jdOf: string -> Option<real>, nowJd: real) returns (needs: seq<NewEvent>)
      requires Valid() && failure.None?
      modifies this, log
      ensures Valid()
      ensures Selection(State(), needs) == SelectFrom(old(State()), cs, jdOf, nowJd)
    {
      needs := [];
      ghost var start := State();
      var i := 0;
      while i < |cs|
        invariant 0 <= i <= |cs| && Valid() && failure.None?
        invariant SelectFrom(start, cs, jdOf, nowJd)
               == Selection(SelectFrom(State(), cs[i..], jdOf, nowJd).w, needs + SelectFrom(State(), cs[i..], jdOf, nowJd).needs)
      {
        var c := cs[i];
        assert cs[i..][0] == c && cs[i..][1..] == cs[i + 1..];
        if Ignored(c) {
          i := i + 1;
          continue;
        }
        var jd := jdOf(c.dateobs);
        if jd.None? {
          failure := Some(ValueError);
          assert needs + [] == needs;
          return;
        }
        var marker := MarkerFor(c, nowJd - jd.value);
        if marker.Some? {
          log.AddEvent(c.id, EventRec(Some(c.dateobs), false, [Marker(marker.value)]));
        } else {
          assert needs + ([NewEvent(c.id, c.dateobs)] + SelectFrom(State(), cs[i + 1..], jdOf, nowJd).needs)
              == (needs + [NewEvent(c.id, c.dateobs)]) + SelectFrom(State(), cs[i + 1..], jdOf, nowJd).needs;
          needs := needs + [NewEvent(c.id, c.dateobs)];
        }
        i := i + 1;
      }
      assert cs[i..] == [];
      assert needs + [] == needs;
    }

    method QueueSlices(id: string, backlog: seq<PhotoBatch.Request>, env: Env)
      requires Valid()
      modifies this, queue
      ensures Valid() && State() == Backlogged(old(State()), id, backlog, env)
    {
      queue.QueueBacklog(id, PhotoBatch.NewCoords, backlog, Stamps(env.clock, writes, |backlog|));
      writes := writes + |backlog|;
    }

    method Overflow(x: NewEvent, q: PhotoBatch.Request, env: Env)
      requires Valid()
      modifies this, log, queue
      ensures Valid() && State() == Overflowed(old(State()), x, q, env)
    {
      log.AddEvent(x.id, EventRec(Some(x.dateobs), false, []));
      queue.QueuePhotometry(x.id, env.clock(writes), PhotoBatch.NewCoords, q.ra, q.dec, q.jd, q.numAgn);
      writes := writes + 1;
      doPhotometry := false;
    }

    method SubmitNow(x: NewEvent, q: PhotoBatch.Request, env: Env)
      requires Valid()
      modifies this, log
      ensures Valid() && State() == SubmittedNow(old(State()), x, q, env)
    {
      ghost var w := State();
      var out := ZfpsSubmit.Submit(q, x.id, env.testing, env.nowIso, flares);
      flares := out.events;
      pending := pending + q.numAgn;
      log.AddEvent(x.id, EventRec(Some(x.dateobs), false, []));
      ghost var added := EventAdded(w.ids, w.events, x.id, EventRec(Some(x.dateobs), false, []));
      var entry := SubmittedEntry(out.submission, PhotoBatch.NewCoords, false);
      failure := log.AddZfpsEntry(x.id, entry);
      ghost var rec := EntryAdded(added.1, w.stats, x.id, entry);
      assert log.ids == added.0 && log.events == rec.events && log.stats == rec.stats && failure == rec.raised;
      assert State() == w.(flares := out.events, pending := w.pending + q.numAgn, ids := added.0, events := rec.events,
                           stats := rec.stats, failure := rec.raised);
    }

    /** One new event through the ceiling (flares.py:205-261). */
    method AdmitOne(x: NewEvent, env: Env)
      requires Valid() && failure.None?
      modifies this, log, queue
      ensures Valid() && State() == Admitted(old(State()), x, env)
    {
      var split := PhotoBatch.GetPhotometryCoords(env.source(x.id), env.cat, PhotoBatch.NewCoords, env.local, env.nowJd, env.threshold);
      if split.Err? {
        if x.id in flares {
          flares := flares[x.id := Some(PhotoBatch.FlareRecord(Some(PhotoBatch.NoAgnMarker)))];
          failure := Some(split.error);
        } else {
          failure := Some(KeyError);
        }
        return;
      }
      QueueSlices(x.id, split.value.backlog, env);
      if !Fits(pending, split.value.now.numAgn) {
        Overflow(x, split.value.now, env);
      } else {
        SubmitNow(x, split.value.now, env);
      }
    }

    /** flares.py:204-261. */
    method Admit(xs: seq<NewEvent>, env: Env)
      requires Valid() && failure.None?
      modifies this, log, queue
      ensures Valid() && State() == AdmitFrom(old(State()), xs, env)
    {
      ghost var start := State();
      var i := 0;
      while i < |xs|
        invariant 0 <= i <= |xs| && Valid()
        invariant AdmitFrom(start, xs, env) == AdmitFrom(State(), xs[i..], env)
      {
        assert xs[i..][0] == xs[i] && xs[i..][1..] == xs[i + 1..];
        if failure.Some? {
          return;
        }
        AdmitOne(xs[i], env);
        i := i + 1;
      }
    }

    /** flares.py:264: the counter is written to the record once, after the admission loop. */
    method SavePending()
      requires Valid()
      modifies log
      ensures Valid() && log.ids == old(log.ids) && log.events == old(log.events)
      ensures log.stats == old(log.stats).(totalCurrentlyPending := pending)
    {
      log.SaveNumPending(pending);
    }

    /**
     * flares.py:272-305: mark returned photometry complete; the events to
     * check for flares are the flagged ones, each once.
     */
    method CompleteReturned(ws: seq<Waiting>, save: Waiting -> Option<Saved>) returns (checkForFlares: set<string>)
      requires Valid() && failure.None?
      modifies this, log
      ensures Valid()
      ensures State() == CompleteFrom(old(State()), ws, save).w
      ensures checkForFlares == set id | id in CompleteFrom(old(State()), ws, save).flagged
    {
      ghost var start := State();
      var flagged: seq<string> := [];
      var i := 0;
      while i < |ws|
        invariant 0 <= i <= |ws| && Valid() && failure.None?
        invariant CompleteFrom(start, ws, save)
               == Retrieval(CompleteFrom(State(), ws[i..], save).w, flagged + CompleteFrom(State(), ws[i..], save).flagged)
      {
        var stop, got := CompleteNext(ws[i..], save);
        if stop {
          assert flagged + [] == flagged;
          return set id | id in flagged;
        }
        assert ws[i..][1..] == ws[i + 1..];
        assert flagged + (got + CompleteFrom(State(), ws[i + 1..], save).flagged)
            == (flagged + got) + CompleteFrom(State(), ws[i + 1..], save).flagged;
        flagged := flagged + got;
        i := i + 1;
      }
      assert ws[i..] == [];
      assert flagged + [] == flagged;
      checkForFlares := set id | id in flagged;
    }

    /** One turn of the completion loop over the waiting requests left: the events it flags, and `stop` when it raised. */
    method CompleteNext(ws: seq<Waiting>, save: Waiting -> Option<Saved>) returns (stop: bool, got: seq<string>)
      requires Valid() && failure.None? && ws != []
      modifies this, log
      ensures Valid()
      ensures stop ==> CompleteFrom(old(State()), ws, save) == Retrieval(State(), [])
      ensures !stop ==> failure.None?
      ensures !stop ==>
        var rest := CompleteFrom(State(), ws[1..], save);
        CompleteFrom(old(State()), ws, save) == Retrieval(rest.w, got + rest.flagged)
    {
      var x := ws[0];
      var saved := save(x);
      if saved.None? {
        return false, [];
      }
      var s := saved.value;
      var raised := log.UpdatePhotometryComplete(x.id, x.submissionDate, s.batchIds, s.numReturned, s.numBroken);
      if raised.Some? {
        failure := raised;
        return true, [];
      }
      return false, [x.id];
    }
  }
}
