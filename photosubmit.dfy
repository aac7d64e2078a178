/**
 * Handing a photometry request to the ZTF forced-photometry service
 * (flares_utils/photometry_utils.py, `GetPhotometry.submit` and
 * `save_photometry_date`): one POST per batch, then the submission time is
 * written into the event's `flare` section of the events dictionary.
 */
module ZfpsSubmit {
  import opened Wrappers
  import opened Seqs
  import PhotoBatch

  /** One POST: the batch's coordinates and its start date. */
  datatype Post = Post(ra: seq<real>, dec: seq<real>, jdStart: real)

  /** `(photometry_date, num_agn, num_batches)`. */
  datatype Submission = Submission(photometryDate: Option<string>, numAgn: Option<int>, numBatches: Option<int>)

  /**
   * The events dictionary as far as these calls touch it: per event its
   * `flare` section, None when the event has no such key.
   */
  type EventsDict = map<string, Option<PhotoBatch.FlareSection>>

  /** The value recorded for an event when nothing was submitted. */
  const NotSubmitted: string := "NA"

  /** `zip(ra, dec, jd)`: as many posts as the shortest of the three lists. */
  function Posts(ra: seq<seq<real>>, dec: seq<seq<real>>, jd: seq<real>): (r: seq<Post>)
    ensures |r| == (if |ra| <= |dec| && |ra| <= |jd| then |ra| else if |dec| <= |jd| then |dec| else |jd|)
    ensures forall k :: 0 <= k < |r| ==> r[k] == Post(ra[k], dec[k], jd[k])
  {
    if ra == [] || dec == [] || jd == [] then []
    else [Post(ra[0], dec[0], jd[0])] + Posts(ra[1..], dec[1..], jd[1..])
  }

  /** The coordinates the posts carry, in order. */
  function PostedRa(posts: seq<Post>): seq<seq<real>>
  {
    if posts == [] then [] else [posts[0].ra] + PostedRa(posts[1..])
  }

  /**
   * `save_photometry_date`: record "NA" when there are no coordinates and
   * the current time otherwise, under the event's `flare` section, which is
   * created when missing; an event not in the dictionary is left alone, and
   * in testing mode the dictionary on disk is not rewritten.
   */
  function SavePhotometryDate(events: EventsDict, id: string, raEmpty: bool, nowIso: string, testing: bool): (r: (Option<string>, EventsDict))
    ensures r.0 == (if raEmpty then None else Some(nowIso))
    ensures testing || id !in events ==> r.1 == events
    ensures !testing && id in events ==>
      r.1 == events[id := Some(PhotoBatch.FlareRecord(Some(if raEmpty then NotSubmitted else nowIso)))]
  {
    var date := if raEmpty then None else Some(nowIso);
    var value := if raEmpty then NotSubmitted else nowIso;
    if id in events && !testing then (date, events[id := Some(PhotoBatch.FlareRecord(Some(value)))])
    else (date, events)
  }

  /** What `submit` returns, posts and leaves in the events dictionary. */
  datatype Outcome = Outcome(submission: Submission, posts: seq<Post>, events: EventsDict)

  /**
   * `submit` on a request of batches: nothing for an empty request,
   * otherwise one post per batch (none in testing mode) and the submission
   * date recorded.
   */
  function Submit(req: PhotoBatch.Request, id: string, testing: bool, nowIso: string, events: EventsDict): (r: Outcome)
    ensures req.ra == [] ==> r == Outcome(Submission(None, None, None), [], events)
    ensures req.ra != [] ==> r.submission == Submission(Some(nowIso), Some(TotalLength(req.ra)), Some(|req.ra|))
    ensures req.ra != [] ==> r.events == SavePhotometryDate(events, id, false, nowIso, testing).1
    ensures testing ==> r.posts == [] && r.events == events
  {
    if req.ra == [] then Outcome(Submission(None, None, None), [], events)
    else
      var posts := if testing then [] else Posts(req.ra, req.dec, req.jd);
      var saved := SavePhotometryDate(events, id, false, nowIso, testing);
      Outcome(Submission(saved.0, Some(TotalLength(req.ra)), Some(|req.ra|)), posts, saved.1)
  }

  lemma {:induction false} PostedRaOf(ra: seq<seq<real>>, dec: seq<seq<real>>, jd: seq<real>)
    requires |ra| == |dec| == |jd|
    ensures PostedRa(Posts(ra, dec, jd)) == ra
  {
    if ra != [] {
      PostedRaOf(ra[1..], dec[1..], jd[1..]);
    }
  }

  /**
   * A live submission of a request whose three lists line up posts every
   * batch once, in order, so the AGN posted are exactly the count it
   * reports.
   */
  lemma PostsAllAgn(req: PhotoBatch.Request, id: string, nowIso: string, events: EventsDict)
    requires req.ra != [] && |req.ra| == |req.dec| == |req.jd|
    ensures var r := Submit(req, id, false, nowIso, events);
      PostedRa(r.posts) == req.ra && |r.posts| == r.submission.numBatches.value
      && TotalLength(PostedRa(r.posts)) == r.submission.numAgn.value
  {
    PostedRaOf(req.ra, req.dec, req.jd);
  }

  /**
   * After a live submission for a known event, its `flare` section holds the
   * submission date, so the next update request for it neither fails on a
   * missing date nor finds nothing to update, and starts from that record.
   */
  lemma SubmissionEnablesUpdate(req: PhotoBatch.Request, id: string, nowIso: string, events: EventsDict,
                                src: PhotoBatch.AgnSource, cat: PhotoBatch.Catalogs, local: PhotoBatch.Coord -> Option<real>, now: real)
    requires req.ra != [] && id in events
    requires Some(src.flare) == Submit(req, id, false, nowIso, events).events[id]
    ensures src.flare == PhotoBatch.FlareRecord(Some(nowIso))
    ensures PhotoBatch.GetAgnCoords(src, cat, PhotoBatch.UpdateCoords, local, now).Ok?
    ensures PhotoBatch.GetAgnCoords(src, cat, PhotoBatch.UpdateCoords, local, now).value.Dated?
  {
  }
}
