/**
 * Choosing which GraceDB alert file to read for each new superevent and
 * which events pass the BBH probability cut (`GetSuperevents.read_from_gracedb`
 * and `get_new_events` in flares_utils/new_events_utils.py; the FlareBot copy
 * in FlareBot/bot/new_events_utils.py has the same selection and filters).
 */
module AlertFiles {
  import opened PyText

  /** The alert files in order of preference, after the superevent id. */
  const Suffixes: seq<string> := ["-5-Update.xml,0", "-5-Update.xml", "-4-Update.xml,0", "-4-Update.xml",
                                  "-3-Update.xml,0", "-2-Update.xml,0", "-4-Initial.xml,0", "-3-Initial.xml,0",
                                  "-2-Initial.xml,0", "-2-Preliminary.xml,0"]

  const NoFile: string := "none"
  const RetractionMark: string := "etraction"

  predicate Retracted(files: seq<string>)
  {
    exists k :: 0 <= k < |files| && Contains(files[k], RetractionMark)
  }

  /** The first of `suffixes`, from position `k` on, whose file is listed; `NoFile` when none is. */
  function FirstListed(id: string, files: seq<string>, k: nat): (r: string)
    requires k <= |Suffixes|
    ensures r == NoFile <==> forall j :: k <= j < |Suffixes| ==> id + Suffixes[j] !in files
    ensures r != NoFile ==> exists j :: k <= j < |Suffixes| && r == id + Suffixes[j] && r in files
                                        && forall i :: k <= i < j ==> id + Suffixes[i] !in files
    decreases |Suffixes| - k
  {
    if k == |Suffixes| then NoFile
    else if id + Suffixes[k] in files then
      NotNoFile(id, Suffixes[k]);
      id + Suffixes[k]
    else FirstListed(id, files, k + 1)
  }

  /** A listed alert file never reads "none": every suffix has a dash. */
  lemma NotNoFile(id: string, suffix: string)
    requires suffix in Suffixes
    ensures id + suffix != NoFile
  {
    assert '-' in suffix;
    assert '-' in id + suffix;
    assert '-' !in NoFile;
  }

  /**
   * The file chosen for one superevent: none for a retracted event, else the
   * most preferred alert file it lists.
   */
  function SelectFile(id: string, files: seq<string>): (r: string)
    ensures r == NoFile <==> Retracted(files) || forall j :: 0 <= j < |Suffixes| ==> id + Suffixes[j] !in files
    ensures r != NoFile ==> exists j :: 0 <= j < |Suffixes| && r == id + Suffixes[j] && r in files
                                        && forall i :: 0 <= i < j ==> id + Suffixes[i] !in files
  {
    if Retracted(files) then NoFile else FirstListed(id, files, 0)
  }

  /** A superevent as listed by GraceDB: its id and the link to its files. */
  datatype Superevent = Superevent(id: string, filesLink: string)

  /** The URL of one event's chosen file. */
  function AlertUrl(e: Superevent, listing: string -> seq<string>): string
  {
    e.filesLink + SelectFile(e.id, listing(e.id))
  }

  /** The URLs fetched: one per event, dropping every one that contains "none". */
  function AlertUrls(events: seq<Superevent>, listing: string -> seq<string>): (r: seq<string>)
    ensures |r| <= |events|
    ensures forall u :: u in r <==> exists k :: 0 <= k < |events| && u == AlertUrl(events[k], listing) && !Contains(u, NoFile)
  {
    if events == [] then []
    else
      var u := AlertUrl(events[0], listing);
      var rest := AlertUrls(events[1..], listing);
      assert forall k :: 1 <= k < |events| ==> events[k] == events[1..][k - 1];
      assert forall k :: 0 <= k < |events[1..]| ==> events[1..][k] == events[k + 1];
      (if Contains(u, NoFile) then [] else [u]) + rest
  }

  /**
   * An event given no file yields a URL containing "none", so no URL is
   * fetched for it.
   */
  lemma NoFileDropped(e: Superevent, listing: string -> seq<string>)
    ensures SelectFile(e.id, listing(e.id)) == NoFile ==> Contains(AlertUrl(e, listing), NoFile)
  {
    if SelectFile(e.id, listing(e.id)) == NoFile {
      EndsWith(e.filesLink, NoFile);
    }
  }

  lemma EndsWith(a: string, pat: string)
    ensures Contains(a + pat, pat)
  {
    assert (a + pat)[|a|..|a| + |pat|] == pat;
    assert OccursAt(a + pat, pat, |a|);
  }

  /** The superevents not yet in the events dictionary, unless every event is to be retrieved. */
  function FreshEvents(events: seq<Superevent>, known: set<string>, retrieveAll: bool): (r: seq<Superevent>)
    ensures retrieveAll ==> r == events
    ensures !retrieveAll ==> forall e :: e in r <==> e in events && e.id !in known
  {
    if retrieveAll || events == [] then events
    else (if events[0].id in known then [] else [events[0]]) + FreshEvents(events[1..], known, false)
  }

  /** What the probability cut reads of an alert: its id, P(BBH) and P(terrestrial). */
  datatype AlertParams = AlertParams(id: string, probBbh: real, probTer: real)

  predicate PassesCut(x: AlertParams)
  {
    x.probBbh > 0.5 && x.probTer < 0.3
  }

  predicate FailsCut(x: AlertParams)
  {
    x.probBbh < 0.5 || x.probTer > 0.3
  }

  /** The alerts processed further, in order. */
  function Kept(xs: seq<AlertParams>): (r: seq<AlertParams>)
    ensures forall x :: x in r <==> x in xs && PassesCut(x)
  {
    if xs == [] then [] else (if PassesCut(xs[0]) then [xs[0]] else []) + Kept(xs[1..])
  }

  /** The alerts counted as cut low-probability events. */
  function Cut(xs: seq<AlertParams>): (r: seq<AlertParams>)
    ensures forall x :: x in r <==> x in xs && FailsCut(x)
  {
    if xs == [] then [] else (if FailsCut(xs[0]) then [xs[0]] else []) + Cut(xs[1..])
  }

  /**
   * No alert is both kept and cut, so the two counts never exceed the
   * alerts read.
   */
  lemma {:induction false} CutsDisjoint(xs: seq<AlertParams>)
    ensures forall x :: !(x in Kept(xs) && x in Cut(xs))
    ensures |Kept(xs)| + |Cut(xs)| <= |xs|
  {
    if xs != [] {
      CutsDisjoint(xs[1..]);
    }
  }

  /** An alert exactly on a threshold is neither kept nor cut. */
  lemma CutsNotExhaustive(id: string, ter: real)
    requires ter <= 0.3
    ensures var x := AlertParams(id, 0.5, ter);
      x !in Kept([x]) && x !in Cut([x])
    ensures var y := AlertParams(id, 0.9, 0.3);
      y !in Kept([y]) && y !in Cut([y])
  {
  }
}
