/**
 * The backlog of photometry requests kept as JSON files under
 * `flare_data/queued_for_photometry` (flares_utils/photometry_utils.py,
 * `PhotometryCoords.queue_photometry`, `retrieve_queue_photometry`,
 * `move_complete_queued_photometry`) and the loop of
 * `get_photometry_coords` that queues the slices over the ceiling.
 */
module PhotoQueue {
  import opened Wrappers
  import opened PyText
  import opened Seqs
  import opened PhotoBatch

  /** The content of one queued file. */
  datatype QueueFile = QueueFile(ra: seq<seq<real>>, dec: seq<seq<real>>, jd: seq<real>, numberToSubmit: nat, action: Action)

  const JsonSuffix: string := ".json"

  predicate IsJsonName(name: string)
  {
    |name| >= |JsonSuffix| && name[|name| - |JsonSuffix|..] == JsonSuffix
  }

  /** `{graceid}.json`. */
  function PlainName(id: string): (name: string)
    ensures IsJsonName(name)
  {
    assert (id + JsonSuffix)[|id|..] == JsonSuffix;
    id + JsonSuffix
  }

  /** `{graceid}_{timestamp}.json`, the name line 268 builds and drops. */
  function StampedName(id: string, stamp: string): (name: string)
    ensures IsJsonName(name)
  {
    assert (id + "_" + stamp + JsonSuffix)[|id + "_" + stamp|..] == JsonSuffix;
    id + "_" + stamp + JsonSuffix
  }

  /** `datetime.now().strftime("%Y%m%d%H%M%S")`: fourteen digits. */
  predicate IsStamp(stamp: string)
  {
    |stamp| == 14 && AllDigits(stamp)
  }

  /** What the optional group `(?:_\d{14})?` matches. */
  predicate StampSuffix(rest: string)
  {
    |rest| == 15 && rest[0] == '_' && AllDigits(rest[1..])
  }

  /**
   * The lazy group `(.*?)` of `^(.*?)(?:_\d{14})?\.json$` on the name
   * without ".json": the shortest prefix from `p` on after which the rest
   * is empty or an underscore and fourteen digits.
   */
  function LazyPrefix(stem: string, p: nat): string
    requires p <= |stem|
    decreases |stem| - p
  {
    if p == |stem| || StampSuffix(stem[p..]) then stem[..p] else LazyPrefix(stem, p + 1)
  }

  /** The event id `retrieve_queue_photometry` reads from a queued file name. */
  function QueueId(name: string): string
    requires IsJsonName(name)
  {
    LazyPrefix(name[..|name| - |JsonSuffix|], 0)
  }

  predicate EndsStamped(stem: string)
  {
    |stem| >= 15 && StampSuffix(stem[|stem| - 15..])
  }

  lemma {:induction false} LazyPrefixFrom(stem: string, p: nat)
    requires p <= |stem|
    requires EndsStamped(stem) ==> p <= |stem| - 15
    ensures LazyPrefix(stem, p) == if EndsStamped(stem) then stem[..|stem| - 15] else stem
    decreases |stem| - p
  {
    if p == |stem| {
    } else if StampSuffix(stem[p..]) {
      assert stem[p..] == stem[|stem| - 15..];
    } else {
      LazyPrefixFrom(stem, p + 1);
    }
  }

  /**
   * The id is the name minus ".json", and minus a trailing underscore and
   * fourteen digits when there is one.
   */
  lemma QueueIdShape(name: string)
    requires IsJsonName(name)
    ensures var stem := name[..|name| - |JsonSuffix|];
      QueueId(name) == if EndsStamped(stem) then stem[..|stem| - 15] else stem
  {
    LazyPrefixFrom(name[..|name| - |JsonSuffix|], 0);
  }

  /** The plain name of an id that does not itself end in a stamp reads back as the id. */
  lemma QueueIdPlain(id: string)
    requires !EndsStamped(id)
    ensures QueueId(PlainName(id)) == id
  {
    var name := PlainName(id);
    assert name[..|name| - |JsonSuffix|] == id;
    QueueIdShape(name);
  }

  /** A stamped name reads back as its id. */
  lemma QueueIdStamped(id: string, stamp: string)
    requires IsStamp(stamp)
    ensures QueueId(StampedName(id, stamp)) == id
  {
    var name := StampedName(id, stamp);
    var stem := name[..|name| - |JsonSuffix|];
    assert stem == id + "_" + stamp;
    assert stem[|stem| - 15..] == "_" + stamp;
    assert ("_" + stamp)[1..] == stamp;
    QueueIdShape(name);
    assert stem[..|stem| - 15] == id;
  }

  /** `queue_photometry` as written: the file is always `{graceid}.json`. */
  function QueueAsWritten(files: map<string, QueueFile>, id: string, f: QueueFile): map<string, QueueFile>
  {
    files[PlainName(id) := f]
  }

  /** Queuing a second slice for the same event overwrites the first. */
  lemma SecondSliceOverwrites(files: map<string, QueueFile>, id: string, first: QueueFile, second: QueueFile)
    requires first != second
    ensures var after := QueueAsWritten(QueueAsWritten(files, id, first), id, second);
      after == QueueAsWritten(files, id, second)
      && (forall n :: n in after ==> after[n] == first ==> n in files && files[n] == first)
  {
  }

  /**
   * The name the timestamp on line 268 is meant for: `{graceid}.json`
   * while that is free, `{graceid}_{timestamp}.json` once it is taken.
   */
  function QueueName(files: map<string, QueueFile>, id: string, stamp: string): string
  {
    if PlainName(id) in files then StampedName(id, stamp) else PlainName(id)
  }

  function Queue(files: map<string, QueueFile>, id: string, stamp: string, f: QueueFile): map<string, QueueFile>
  {
    files[QueueName(files, id, stamp) := f]
  }

  /**
   * With the timestamped name, two slices queued for one event at
   * different times are both kept, and both read back with the event's id.
   */
  lemma {:induction false} QueuedSlicesKept(files: map<string, QueueFile>, id: string, s1: string, s2: string, first: QueueFile, second: QueueFile)
    requires IsStamp(s1) && IsStamp(s2) && s1 != s2
    requires StampedName(id, s1) !in files && StampedName(id, s2) !in files && !EndsStamped(id)
    ensures var mid := Queue(files, id, s1, first);
      var after := Queue(mid, id, s2, second);
      QueueName(files, id, s1) != QueueName(mid, id, s2)
      && after[QueueName(files, id, s1)] == first && after[QueueName(mid, id, s2)] == second
      && QueueId(QueueName(files, id, s1)) == id == QueueId(QueueName(mid, id, s2))
      && (forall n :: n in files ==> n in after)
  {
    QueueIdStamped(id, s1);
    QueueIdStamped(id, s2);
    var mid := Queue(files, id, s1, first);
    assert PlainName(id) in mid;
    assert StampedName(id, s1) != StampedName(id, s2) by {
      assert StampedName(id, s1)[|id| + 1..|id| + 15] == s1;
      assert StampedName(id, s2)[|id| + 1..|id| + 15] == s2;
    }
    if PlainName(id) !in files {
      QueueIdPlain(id);
      assert QueueName(files, id, s1) == PlainName(id);
      assert PlainName(id) != StampedName(id, s2) by {
        assert |PlainName(id)| != |StampedName(id, s2)|;
      }
    }
  }

  /** One entry of `retrieve_queue_photometry`. */
  datatype Queued = Queued(id: string, ra: seq<seq<real>>, dec: seq<seq<real>>, jd: seq<real>,
                           numberToSubmit: nat, action: Action, fileName: string)

  /**
   * `retrieve_queue_photometry` over the directory `listing` in the order
   * the operating system lists it: the JSON files only.
   */
  function Retrieved(listing: seq<string>, files: map<string, QueueFile>): (r: seq<Queued>)
    requires forall n :: n in listing && IsJsonName(n) ==> n in files
    ensures |r| <= |listing|
    ensures forall x :: x in r ==> (x.fileName in listing && IsJsonName(x.fileName) && x.fileName in files
                                   && x.id == QueueId(x.fileName) && x.ra == files[x.fileName].ra
                                   && x.numberToSubmit == files[x.fileName].numberToSubmit)
  {
    if listing == [] then []
    else
      var n := listing[0];
      var rest := Retrieved(listing[1..], files);
      if IsJsonName(n) then
        var f := files[n];
        [Queued(QueueId(n), f.ra, f.dec, f.jd, f.numberToSubmit, f.action, n)] + rest
      else rest
  }

  /** Every JSON file of the listing is retrieved, in listing order. */
  lemma {:induction false} RetrievedAll(listing: seq<string>, files: map<string, QueueFile>, n: string)
    requires forall n :: n in listing && IsJsonName(n) ==> n in files
    requires n in listing && IsJsonName(n)
    ensures exists k :: 0 <= k < |Retrieved(listing, files)| && Retrieved(listing, files)[k].fileName == n
  {
    var r := Retrieved(listing, files);
    var rest := Retrieved(listing[1..], files);
    if IsJsonName(listing[0]) {
      var f := files[listing[0]];
      assert r == [Queued(QueueId(listing[0]), f.ra, f.dec, f.jd, f.numberToSubmit, f.action, listing[0])] + rest;
      if n == listing[0] {
        assert r[0].fileName == n;
      } else {
        RetrievedAll(listing[1..], files, n);
        var k :| 0 <= k < |rest| && rest[k].fileName == n;
        assert r[k + 1].fileName == n;
      }
    } else {
      assert r == rest;
      RetrievedAll(listing[1..], files, n);
    }
  }

  /** The two directories of queued requests: waiting, and submitted. */
  class QueueDir {
    var queued: map<string, QueueFile>
    var completed: map<string, QueueFile>

    constructor (waiting: map<string, QueueFile>, done: map<string, QueueFile>)
      ensures queued == waiting && completed == done
    {
      queued := waiting;
      completed := done;
    }

    /** `queue_photometry`, with the timestamped name it is meant to use. */
    method QueuePhotometry(id: string, stamp: string, action: Action, ra: seq<seq<real>>, dec: seq<seq<real>>, jd: seq<real>, number: nat)
      modifies this
      ensures queued == Queue(old(queued), id, stamp, QueueFile(ra, dec, jd, number, action))
      ensures completed == old(completed)
    {
      var name := if PlainName(id) in queued then StampedName(id, stamp) else PlainName(id);
      queued := queued[name := QueueFile(ra, dec, jd, number, action)];
    }

    /** `retrieve_queue_photometry`, over the names the directory lists. */
    method RetrieveQueuePhotometry(listing: seq<string>) returns (data: seq<Queued>)
      requires forall n :: n in listing && IsJsonName(n) ==> n in queued
      ensures data == Retrieved(listing, queued)
    {
      data := [];
      var i := |listing|;
      while i > 0
        invariant 0 <= i <= |listing|
        invariant data == Retrieved(listing[i..], queued)
      {
        i := i - 1;
        var n := listing[i];
        assert listing[i..][1..] == listing[i + 1..] && listing[i..][0] == n;
        if IsJsonName(n) {
          var f := queued[n];
          data := [Queued(QueueId(n), f.ra, f.dec, f.jd, f.numberToSubmit, f.action, n)] + data;
        }
      }
      assert listing[0..] == listing;
    }

    /** `move_complete_queued_photometry`: a present file moves to the completed directory. */
    method MoveCompleteQueuedPhotometry(fileName: string)
      modifies this
      ensures fileName in old(queued) ==>
        queued == old(queued) - {fileName} && completed == old(completed)[fileName := old(queued)[fileName]]
      ensures fileName !in old(queued) ==> queued == old(queued) && completed == old(completed)
    {
      if fileName in queued {
        completed := completed[fileName := queued[fileName]];
        queued := queued - {fileName};
      }
    }

    /**
     * The loop of `get_photometry_coords` (photometry_utils.py:243-252):
     * queue each backlog slice in turn, one clock reading per write, under
     * the intended names of `Queue` (as written every slice overwrites
     * `{graceid}.json`, `SecondSliceOverwrites`).
     */
    method QueueBacklog(id: string, action: Action, backlog: seq<Request>, stamps: seq<string>)
      requires |stamps| == |backlog|
      modifies this
      ensures queued == QueueAll(old(queued), id, action, backlog, stamps)
      ensures completed == old(completed)
    {
      var i := 0;
      while i < |backlog|
        invariant 0 <= i <= |backlog|
        invariant QueueAll(old(queued), id, action, backlog, stamps)
               == QueueAll(queued, id, action, backlog[i..], stamps[i..])
        invariant completed == old(completed)
      {
        var s := backlog[i];
        assert backlog[i..][0] == s && backlog[i..][1..] == backlog[i + 1..];
        assert stamps[i..][0] == stamps[i] && stamps[i..][1..] == stamps[i + 1..];
        QueuePhotometry(id, stamps[i], action, s.ra, s.dec, s.jd, s.numAgn);
        i := i + 1;
      }
    }
  }

  /** The directory after queuing the slices in order. */
  function QueueAll(files: map<string, QueueFile>, id: string, action: Action, backlog: seq<Request>, stamps: seq<string>): map<string, QueueFile>
    requires |stamps| == |backlog|
    decreases |backlog|
  {
    if backlog == [] then files
    else
      var s := backlog[0];
      QueueAll(Queue(files, id, stamps[0], QueueFile(s.ra, s.dec, s.jd, s.numAgn, action)), id, action, backlog[1..], stamps[1..])
  }

  /**
   * With the intended names of `Queue`, queuing only adds files: nothing
   * already waiting is lost. As written, a second slice replaces the
   * contents of `{graceid}.json` (`SecondSliceOverwrites`).
   */
  lemma {:induction false} QueueAllKeeps(files: map<string, QueueFile>, id: string, action: Action, backlog: seq<Request>, stamps: seq<string>)
    requires |stamps| == |backlog|
    ensures forall n :: n in files ==> n in QueueAll(files, id, action, backlog, stamps)
    decreases |backlog|
  {
    if backlog != [] {
      var s := backlog[0];
      QueueAllKeeps(Queue(files, id, stamps[0], QueueFile(s.ra, s.dec, s.jd, s.numAgn, action)), id, action, backlog[1..], stamps[1..]);
    }
  }

  /** Two different clock readings give two different timestamped names. */
  lemma StampedNamesDiffer(id: string, s1: string, s2: string)
    requires IsStamp(s1) && IsStamp(s2) && s1 != s2
    ensures StampedName(id, s1) != StampedName(id, s2)
    ensures PlainName(id) != StampedName(id, s1)
  {
    assert StampedName(id, s1)[|id| + 1..|id| + 15] == s1;
    assert StampedName(id, s2)[|id| + 1..|id| + 15] == s2;
    assert |PlainName(id)| != |StampedName(id, s1)|;
  }

  /** The file one backlog slice becomes. */
  function SliceFile(action: Action, s: Request): QueueFile
  {
    QueueFile(s.ra, s.dec, s.jd, s.numAgn, action)
  }

  /**
   * The name slice `k` of the backlog is meant to go to: the first slice
   * takes `Queue`'s name, and every later one finds `{graceid}.json` taken
   * and goes to its own timestamped name.
   */
  function SliceName(files: map<string, QueueFile>, id: string, stamps: seq<string>, k: nat): string
    requires k < |stamps|
  {
    if k == 0 then QueueName(files, id, stamps[0]) else StampedName(id, stamps[k])
  }

  /** The clock readings of a backlog: all distinct, none naming a waiting file. */
  predicate FreshStamps(files: map<string, QueueFile>, id: string, stamps: seq<string>)
  {
    (forall k :: 0 <= k < |stamps| ==> IsStamp(stamps[k]) && StampedName(id, stamps[k]) !in files)
    && (forall j, k :: 0 <= j < k < |stamps| ==> stamps[j] != stamps[k])
  }

  /** Fresh readings give every slice a name of its own that is not waiting yet. */
  lemma SliceNamesDistinct(files: map<string, QueueFile>, id: string, stamps: seq<string>)
    requires FreshStamps(files, id, stamps)
    ensures forall k :: 0 <= k < |stamps| ==> SliceName(files, id, stamps, k) !in files
    ensures forall j, k :: 0 <= j < k < |stamps| ==> SliceName(files, id, stamps, j) != SliceName(files, id, stamps, k)
  {
    forall j, k | 0 <= j < k < |stamps|
      ensures SliceName(files, id, stamps, j) != SliceName(files, id, stamps, k)
    {
      StampedNamesDiffer(id, stamps[k], stamps[j]);
    }
  }

  /**
   * After the first slice is queued, the remaining readings are still
   * fresh, `{graceid}.json` is taken, and the remaining slices keep their names.
   */
  lemma FirstQueued(files: map<string, QueueFile>, id: string, stamps: seq<string>, f: QueueFile)
    requires |stamps| > 0 && FreshStamps(files, id, stamps)
    ensures var next := Queue(files, id, stamps[0], f);
      next == files[SliceName(files, id, stamps, 0) := f]
      && SliceName(files, id, stamps, 0) !in files
      && PlainName(id) in next
      && FreshStamps(next, id, stamps[1..])
      && forall k :: 0 <= k < |stamps| - 1 ==> SliceName(next, id, stamps[1..], k) == SliceName(files, id, stamps, k + 1)
  {
    SliceNamesDistinct(files, id, stamps);
    var next := Queue(files, id, stamps[0], f);
    forall k | 1 <= k < |stamps|
      ensures StampedName(id, stamps[k]) != SliceName(files, id, stamps, 0)
    {
      StampedNamesDiffer(id, stamps[k], stamps[0]);
    }
    assert PlainName(id) in next;
  }

  /** Fresh readings never overwrite a waiting file. */
  lemma {:induction false} QueueAllKeepsContents(files: map<string, QueueFile>, id: string, action: Action, backlog: seq<Request>, stamps: seq<string>)
    requires |stamps| == |backlog| && FreshStamps(files, id, stamps)
    ensures var after := QueueAll(files, id, action, backlog, stamps);
      forall n :: n in files ==> n in after && after[n] == files[n]
    decreases |backlog|
  {
    if backlog != [] {
      FirstQueued(files, id, stamps, SliceFile(action, backlog[0]));
      QueueAllKeepsContents(Queue(files, id, stamps[0], SliceFile(action, backlog[0])), id, action, backlog[1..], stamps[1..]);
    }
  }

  /** With fresh readings, slice `k` ends up under its own name. */
  lemma {:induction false} QueueAllSlices(files: map<string, QueueFile>, id: string, action: Action, backlog: seq<Request>, stamps: seq<string>)
    requires |stamps| == |backlog| && FreshStamps(files, id, stamps)
    ensures var after := QueueAll(files, id, action, backlog, stamps);
      forall k :: 0 <= k < |backlog| ==>
        SliceName(files, id, stamps, k) in after && after[SliceName(files, id, stamps, k)] == SliceFile(action, backlog[k])
    decreases |backlog|
  {
    if backlog != [] {
      var next := Queue(files, id, stamps[0], SliceFile(action, backlog[0]));
      FirstQueued(files, id, stamps, SliceFile(action, backlog[0]));
      QueueAllKeepsContents(next, id, action, backlog[1..], stamps[1..]);
      QueueAllSlices(next, id, action, backlog[1..], stamps[1..]);
      var after := QueueAll(files, id, action, backlog, stamps);
      assert after == QueueAll(next, id, action, backlog[1..], stamps[1..]);
      forall k | 0 <= k < |backlog|
        ensures SliceName(files, id, stamps, k) in after && after[SliceName(files, id, stamps, k)] == SliceFile(action, backlog[k])
      {
        if k > 0 {
          assert SliceName(files, id, stamps, k) == SliceName(next, id, stamps[1..], k - 1);
          assert backlog[1..][k - 1] == backlog[k];
        }
      }
    }
  }

  /** Queuing adds no file but the slices'. */
  lemma {:induction false} QueueAllOnly(files: map<string, QueueFile>, id: string, action: Action, backlog: seq<Request>, stamps: seq<string>)
    requires |stamps| == |backlog| && FreshStamps(files, id, stamps)
    ensures var after := QueueAll(files, id, action, backlog, stamps);
      forall n :: n in after ==> n in files || exists k :: 0 <= k < |backlog| && n == SliceName(files, id, stamps, k)
    decreases |backlog|
  {
    if backlog != [] {
      var next := Queue(files, id, stamps[0], SliceFile(action, backlog[0]));
      FirstQueued(files, id, stamps, SliceFile(action, backlog[0]));
      QueueAllOnly(next, id, action, backlog[1..], stamps[1..]);
      forall n | n in QueueAll(next, id, action, backlog[1..], stamps[1..])
        ensures n in files || exists k :: 0 <= k < |backlog| && n == SliceName(files, id, stamps, k)
      {
        if n !in next {
          var k :| 0 <= k < |backlog| - 1 && n == SliceName(next, id, stamps[1..], k);
          assert n == SliceName(files, id, stamps, k + 1);
        } else if n !in files {
          assert n == SliceName(files, id, stamps, 0);
        }
      }
    }
  }

  /**
   * With the intended names, queuing a backlog whose clock readings all
   * differ and name no file already waiting keeps every waiting file with
   * its contents, stores slice `k` under a name of its own, and adds
   * nothing else. Two readings within the same second give one name, and
   * the later slice replaces the earlier (`QueuedSlicesKept` needs distinct
   * stamps for the same reason).
   */
  lemma QueueAllStores(files: map<string, QueueFile>, id: string, action: Action, backlog: seq<Request>, stamps: seq<string>)
    requires |stamps| == |backlog|
    requires forall k :: 0 <= k < |stamps| ==> IsStamp(stamps[k]) && StampedName(id, stamps[k]) !in files
    requires forall j, k :: 0 <= j < k < |stamps| ==> stamps[j] != stamps[k]
    ensures var after := QueueAll(files, id, action, backlog, stamps);
      (forall n :: n in files ==> n in after && after[n] == files[n])
      && (forall k :: 0 <= k < |backlog| ==>
            SliceName(files, id, stamps, k) !in files && SliceName(files, id, stamps, k) in after
            && after[SliceName(files, id, stamps, k)] == SliceFile(action, backlog[k]))
      && (forall j, k :: 0 <= j < k < |backlog| ==> SliceName(files, id, stamps, j) != SliceName(files, id, stamps, k))
      && (forall n :: n in after ==> n in files || exists k :: 0 <= k < |backlog| && n == SliceName(files, id, stamps, k))
  {
    SliceNamesDistinct(files, id, stamps);
    QueueAllKeepsContents(files, id, action, backlog, stamps);
    QueueAllSlices(files, id, action, backlog, stamps);
    QueueAllOnly(files, id, action, backlog, stamps);
  }
}
