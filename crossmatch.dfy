/**
 * Recording the AGN crossmatches of new events (`KowalskiCrossmatch.get_crossmatches`):
 * the current version crossmatches only events not yet in the crossmatch
 * dictionary and replaces what it redoes (flares_utils/new_events_utils.py);
 * the FlareBot one crossmatches every event given and keeps what is stored
 * (FlareBot/bot/new_events_utils.py). Both write the AGN counts into the
 * events dictionary.
 */
module Crossmatch {
  import opened Wrappers
  import NewEventsDict

  datatype Agn = Agn(ra: real, dec: real)

  /** An event handed to the crossmatch: its localization name and its skymap (base64 text). */
  datatype CrossmatchInput = CrossmatchInput(name: string, skymap: string)

  /** The AGN of one event; `None` when the catalog was not queried. */
  type Coords = Option<seq<Agn>>

  /** The events to crossmatch, in order: those not crossmatched yet, or all of them. */
  function ToCrossmatch(inputs: seq<CrossmatchInput>, crossmatched: set<string>, newOnly: bool): (r: seq<CrossmatchInput>)
    ensures |r| <= |inputs|
    ensures !newOnly ==> r == inputs
    ensures newOnly ==> forall x :: x in r <==> x in inputs && x.name !in crossmatched
  {
    if !newOnly || inputs == [] then inputs
    else (if inputs[0].name in crossmatched then [] else [inputs[0]]) + ToCrossmatch(inputs[1..], crossmatched, true)
  }

  function Names(xs: seq<CrossmatchInput>): (r: seq<string>)
    ensures |r| == |xs| && forall k :: 0 <= k < |xs| ==> r[k] == xs[k].name
  {
    if xs == [] then [] else [xs[0].name] + Names(xs[1..])
  }

  /** Each event's catalog answer, unsorted. */
  function Queried(xs: seq<CrossmatchInput>, query: string -> seq<Agn>): (r: seq<Coords>)
    ensures |r| == |xs| && forall k :: 0 <= k < |xs| ==> r[k] == Some(query(xs[k].name))
  {
    if xs == [] then [] else [Some(query(xs[0].name))] + Queried(xs[1..], query)
  }

  function Unqueried(n: nat): (r: seq<Coords>)
    ensures |r| == n && forall k :: 0 <= k < n ==> r[k].None?
  {
    if n == 0 then [] else [None] + Unqueried(n - 1)
  }

  /**
   * The CatNorth answers as `get_crossmatches` sorts them: the k-th event
   * crossmatched paired with the k-th skymap of ALL the events given.
   */
  function CatnorthAsWritten(inputs: seq<CrossmatchInput>, chosen: seq<CrossmatchInput>, query: string -> seq<Agn>,
                             sort: (string, seq<Agn>) -> seq<Agn>): (r: seq<Coords>)
    requires |chosen| <= |inputs|
    ensures |r| == |chosen|
    ensures forall k :: 0 <= k < |r| ==> r[k] == Some(sort(inputs[k].skymap, query(chosen[k].name)))
  {
    if chosen == [] then []
    else [Some(sort(inputs[0].skymap, query(chosen[0].name)))] + CatnorthAsWritten(inputs[1..], chosen[1..], query, sort)
  }

  /** The CatNorth answers sorted by each event's own skymap, highest probability first. */
  function CatnorthSorted(chosen: seq<CrossmatchInput>, query: string -> seq<Agn>, sort: (string, seq<Agn>) -> seq<Agn>): (r: seq<Coords>)
    ensures |r| == |chosen|
    ensures forall k :: 0 <= k < |r| ==> r[k] == Some(sort(chosen[k].skymap, query(chosen[k].name)))
  {
    if chosen == [] then [] else [Some(sort(chosen[0].skymap, query(chosen[0].name)))] + CatnorthSorted(chosen[1..], query, sort)
  }

  /**
   * When an event earlier in the list is already crossmatched, the next
   * event's AGN are ordered by the skipped event's skymap.
   */
  lemma CatnorthMisaligned()
    ensures var a, b := CrossmatchInput("A", "skymap A"), CrossmatchInput("B", "skymap B");
      var query := (name: string) => [Agn(1.0, 2.0), Agn(3.0, 4.0)];
      var sort := (skymap: string, c: seq<Agn>) => if skymap == "skymap B" then c else [];
      var chosen := ToCrossmatch([a, b], {"A"}, true);
      CatnorthAsWritten([a, b], chosen, query, sort) == [Some([])]
      && CatnorthSorted(chosen, query, sort) == [Some([Agn(1.0, 2.0), Agn(3.0, 4.0)])]
  {
    var a, b := CrossmatchInput("A", "skymap A"), CrossmatchInput("B", "skymap B");
    assert ToCrossmatch([a, b], {"A"}, true) == [b] by {
      assert [a, b][1..] == [b];
      assert ToCrossmatch([b], {"A"}, true) == [b] by { assert "B" != "A"; }
    }
  }

  /** `dict` built from names and values in order, later values winning, over a running dictionary. */
  function EntriesFrom<V>(acc: map<string, V>, names: seq<string>, vals: seq<V>): (r: map<string, V>)
    requires |names| == |vals|
    decreases |names|
  {
    if names == [] then acc else EntriesFrom(acc[names[0] := vals[0]], names[1..], vals[1..])
  }

  /**
   * The keys are the running ones and the names; a name takes its last
   * value, and every other key stays.
   */
  lemma {:induction false} EntriesFromValues<V>(acc: map<string, V>, names: seq<string>, vals: seq<V>)
    requires |names| == |vals|
    ensures var r := EntriesFrom(acc, names, vals);
      (forall n :: n in r <==> n in acc || n in names)
      && (forall n :: n in acc && n !in names ==> r[n] == acc[n])
      && (forall k :: 0 <= k < |names| && (forall j :: k < j < |names| ==> names[j] != names[k]) ==> r[names[k]] == vals[k])
    decreases |names|
  {
    if names != [] {
      EntriesFromValues(acc[names[0] := vals[0]], names[1..], vals[1..]);
      assert forall n :: n in names <==> n == names[0] || n in names[1..];
      forall k | 0 <= k < |names| && (forall j :: k < j < |names| ==> names[j] != names[k])
        ensures EntriesFrom(acc, names, vals)[names[k]] == vals[k]
      {
        if k > 0 {
          assert names[1..][k - 1] == names[k] && vals[1..][k - 1] == vals[k];
          assert forall j :: k - 1 < j < |names[1..]| ==> names[1..][j] == names[j + 1];
        } else {
          assert names[0] !in names[1..] by {
            forall j | 0 <= j < |names[1..]| ensures names[1..][j] != names[0] {
              assert names[1..][j] == names[j + 1];
            }
          }
        }
      }
    }
  }

  /** The merge loop over new entries, on a copy of the dictionary. */
  method Overlay<V>(m: map<string, V>, names: seq<string>, vals: seq<V>) returns (r: map<string, V>)
    requires |names| == |vals|
    ensures r == EntriesFrom(m, names, vals)
  {
    r := m;
    var i := 0;
    while i < |names|
      invariant 0 <= i <= |names|
      invariant EntriesFrom(m, names, vals) == EntriesFrom(r, names[i..], vals[i..])
    {
      assert names[i..][0] == names[i] && names[i..][1..] == names[i + 1..];
      assert vals[i..][0] == vals[i] && vals[i..][1..] == vals[i + 1..];
      r := r[names[i] := vals[i]];
      i := i + 1;
    }
    assert names[i..] == [] && vals[i..] == [];
  }

  /** The FlareBot merge: only keys not stored yet are added. */
  function KeepExisting(stored: map<string, Coords>, entries: map<string, Coords>): (r: map<string, Coords>)
    ensures forall n :: n in r <==> n in stored || n in entries
    ensures forall n :: n in stored ==> r[n] == stored[n]
    ensures forall n :: n in entries && n !in stored ==> r[n] == entries[n]
  {
    map n | n in stored.Keys + entries.Keys :: if n in stored then stored[n] else entries[n]
  }

  /** `len(c) if c else None`: no count for an unqueried or empty answer. */
  function CountOf(c: Coords): (r: Option<nat>)
    ensures r.None? <==> c.None? || c.value == []
  {
    if c.None? || c.value == [] then None else Some(|c.value|)
  }

  function StatsOf(catnorth: seq<Coords>, quaia: seq<Coords>): (r: seq<NewEventsDict.CrossmatchStats>)
    requires |catnorth| == |quaia|
    ensures |r| == |catnorth| && forall k :: 0 <= k < |r| ==> r[k] == NewEventsDict.CrossmatchStats(CountOf(catnorth[k]), CountOf(quaia[k]))
  {
    if catnorth == [] then []
    else [NewEventsDict.CrossmatchStats(CountOf(catnorth[0]), CountOf(quaia[0]))] + StatsOf(catnorth[1..], quaia[1..])
  }

  /** The FlareBot counts: `len` of every answer. */
  function Lengths(catnorth: seq<seq<Agn>>, quaia: seq<seq<Agn>>): (r: seq<NewEventsDict.CrossmatchStats>)
    requires |catnorth| == |quaia|
    ensures |r| == |catnorth| && forall k :: 0 <= k < |r| ==> r[k] == NewEventsDict.CrossmatchStats(Some(|catnorth[k]|), Some(|quaia[k]|))
  {
    if catnorth == [] then []
    else [NewEventsDict.CrossmatchStats(Some(|catnorth[0]|), Some(|quaia[0]|))] + Lengths(catnorth[1..], quaia[1..])
  }

  /** The events dictionary with the counts of its listed events as their crossmatch section. */
  function WithStats(events: map<string, NewEventsDict.StoredEvent>, stats: map<string, NewEventsDict.CrossmatchStats>): (r: map<string, NewEventsDict.StoredEvent>)
    ensures r.Keys == events.Keys
    ensures forall id :: id in events ==>
      r[id] == if id in stats then events[id].(crossmatch := Some(stats[id])) else events[id]
  {
    map id | id in events :: if id in stats then events[id].(crossmatch := Some(stats[id])) else events[id]
  }

  function Answers(xs: seq<seq<Agn>>): (r: seq<Coords>)
    ensures |r| == |xs| && forall k :: 0 <= k < |xs| ==> r[k] == Some(xs[k])
  {
    if xs == [] then [] else [Some(xs[0])] + Answers(xs[1..])
  }

  function Raw(xs: seq<CrossmatchInput>, query: string -> seq<Agn>): (r: seq<seq<Agn>>)
    ensures |r| == |xs| && forall k :: 0 <= k < |xs| ==> r[k] == query(xs[k].name)
  {
    if xs == [] then [] else [query(xs[0].name)] + Raw(xs[1..], query)
  }

  /** The CatNorth answer the current version gives a redone event: its AGN sorted by its own skymap, or None. */
  function CatnorthAnswer(x: CrossmatchInput, catalogs: seq<string>, query: string -> seq<Agn>,
                          sort: (string, seq<Agn>) -> seq<Agn>): Coords
  {
    if "catnorth" in catalogs then Some(sort(x.skymap, query(x.name))) else None
  }

  /** The Quaia answer the current version gives a redone event, or None. */
  function QuaiaAnswer(x: CrossmatchInput, catalogs: seq<string>, quaiaQuery: string -> seq<Agn>): Coords
  {
    if "quaia" in catalogs then Some(quaiaQuery(x.name)) else None
  }

  /** No later name repeats the k-th one, so a `dict` built from the names keeps the k-th value. */
  predicate LastAt(names: seq<string>, k: nat)
  {
    k < |names| && forall j :: k < j < |names| ==> names[j] != names[k]
  }

  /** A `dict` built from values that depend on the name alone gives every name its value. */
  lemma {:induction false} EntriesFromUniform<V>(acc: map<string, V>, names: seq<string>, vals: seq<V>, h: string -> V)
    requires |names| == |vals|
    requires forall k :: 0 <= k < |names| ==> vals[k] == h(names[k])
    ensures forall n :: n in EntriesFrom(acc, names, vals) <==> n in acc || n in names
    ensures forall n :: n in names ==> EntriesFrom(acc, names, vals)[n] == h(n)
    decreases |names|
  {
    if names != [] {
      var acc' := acc[names[0] := vals[0]];
      EntriesFromUniform(acc', names[1..], vals[1..], h);
      EntriesFromValues(acc', names[1..], vals[1..]);
      assert forall n :: n in names ==> n == names[0] || n in names[1..];
    }
  }

  /** The two dictionaries on disk: events, and crossmatches (`None` when that file is missing). */
  datatype Files = Files(events: map<string, NewEventsDict.StoredEvent>, crossmatches: Option<map<string, Coords>>)

  /** What `get_crossmatches` returns, `(catnorth, quaia)` or None, and the files it leaves. */
  datatype Lists = Lists(catnorth: seq<Coords>, quaia: seq<Coords>)
  datatype Outcome = Outcome(result: Result<Option<Lists>>, files: Files)

  /**
   * The current `get_crossmatches`, with its CatNorth answers sorted by each
   * event's own skymap (`CatnorthSorted`, the corrected zip; as written,
   * lines 918-921 pair them with the skymaps of all inputs,
   * `CatnorthAsWritten`). A missing crossmatch file leaves its dictionary
   * unbound (NameError); nothing to crossmatch returns None; testing writes
   * nothing.
   */
  function CurrentRun(f: Files, inputs: seq<CrossmatchInput>, newOnly: bool, catalogs: seq<string>, testing: bool,
                      query: string -> seq<Agn>, quaiaQuery: string -> seq<Agn>, sort: (string, seq<Agn>) -> seq<Agn>): (r: Outcome)
    ensures f.crossmatches.None? ==> r == Outcome(Err(NameError), f)
    ensures testing || r.result.Err? || (r.result.Ok? && r.result.value.None?) ==> r.files == f
    ensures f.crossmatches.Some? ==>
      var chosen := ToCrossmatch(inputs, f.crossmatches.value.Keys, newOnly);
      r.result.Ok? && (r.result.value.None? <==> chosen == [])
      && (r.result.value.Some? ==>
            |r.result.value.value.catnorth| == |chosen| && |r.result.value.value.quaia| == |chosen|
            && forall k :: 0 <= k < |chosen| ==>
                 r.result.value.value.catnorth[k] == CatnorthAnswer(chosen[k], catalogs, query, sort)
                 && r.result.value.value.quaia[k] == QuaiaAnswer(chosen[k], catalogs, quaiaQuery))
  {
    match f.crossmatches
    case None => Outcome(Err(NameError), f)
    case Some(cm) =>
      var chosen := ToCrossmatch(inputs, cm.Keys, newOnly);
      var names := Names(chosen);
      var catnorth := if "catnorth" in catalogs then CatnorthSorted(chosen, query, sort) else Unqueried(|chosen|);
      var quaia := if "quaia" in catalogs then Queried(chosen, quaiaQuery) else Unqueried(|chosen|);
      if catnorth == [] then Outcome(Ok(None), f)
      else
        var stats := EntriesFrom(map[], names, StatsOf(catnorth, quaia));
        var written := Files(WithStats(f.events, stats), Some(EntriesFrom(cm, names, catnorth)));
        Outcome(Ok(Some(Lists(catnorth, quaia))), if testing then f else written)
  }

  /** With `newOnly`, exactly the events given that are not crossmatched yet are redone. */
  lemma SelectionExact(inputs: seq<CrossmatchInput>, crossmatched: set<string>)
    ensures forall n :: n in Names(ToCrossmatch(inputs, crossmatched, true)) <==> n in Names(inputs) && n !in crossmatched
  {
    var chosen := ToCrossmatch(inputs, crossmatched, true);
    forall n ensures n in Names(chosen) <==> n in Names(inputs) && n !in crossmatched {
      InNames(chosen, n);
      InNames(inputs, n);
    }
  }

  /** A name is listed exactly when one of the inputs carries it. */
  lemma InNames(xs: seq<CrossmatchInput>, n: string)
    ensures n in Names(xs) <==> exists x :: x in xs && x.name == n
  {
    if n in Names(xs) {
      var k :| 0 <= k < |xs| && Names(xs)[k] == n;
      assert xs[k] in xs;
    }
    if exists x :: x in xs && x.name == n {
      var x :| x in xs && x.name == n;
      var k :| 0 <= k < |xs| && xs[k] == x;
      assert Names(xs)[k] == n;
    }
  }

  /**
   * What is redone replaces the stored answer and nothing else changes in
   * the crossmatch dictionary; the events dictionary keeps its events and
   * changes only the crossmatch sections of the events redone. A redone
   * name takes the answer of its last position, and a stored event of that
   * name takes the counts of that answer (`len(c) if c else None`).
   */
  lemma CurrentRunUpdates(f: Files, inputs: seq<CrossmatchInput>, newOnly: bool, catalogs: seq<string>,
                          query: string -> seq<Agn>, quaiaQuery: string -> seq<Agn>, sort: (string, seq<Agn>) -> seq<Agn>)
    requires f.crossmatches.Some?
    requires CurrentRun(f, inputs, newOnly, catalogs, false, query, quaiaQuery, sort).result.Ok?
    requires CurrentRun(f, inputs, newOnly, catalogs, false, query, quaiaQuery, sort).result.value.Some?
    ensures var cm, g := f.crossmatches.value, CurrentRun(f, inputs, newOnly, catalogs, false, query, quaiaQuery, sort).files;
      var redone := Names(ToCrossmatch(inputs, cm.Keys, newOnly));
      g.crossmatches.Some?
      && (forall n :: n in g.crossmatches.value <==> n in cm || n in redone)
      && (forall n :: n in cm && n !in redone ==> g.crossmatches.value[n] == cm[n])
      && g.events.Keys == f.events.Keys
      && (forall id :: id in f.events ==> g.events[id].(crossmatch := f.events[id].crossmatch) == f.events[id])
      && (forall id :: id in f.events && id !in redone ==> g.events[id] == f.events[id])
      && (forall k :: 0 <= k < |redone| && LastAt(redone, k) ==>
            var x := ToCrossmatch(inputs, cm.Keys, newOnly)[k];
            g.crossmatches.value[redone[k]] == CatnorthAnswer(x, catalogs, query, sort)
            && (redone[k] in f.events ==>
                  g.events[redone[k]].crossmatch
                  == Some(NewEventsDict.CrossmatchStats(CountOf(CatnorthAnswer(x, catalogs, query, sort)),
                                                        CountOf(QuaiaAnswer(x, catalogs, quaiaQuery))))))
  {
    var cm := f.crossmatches.value;
    var chosen := ToCrossmatch(inputs, cm.Keys, newOnly);
    var names := Names(chosen);
    var catnorth := if "catnorth" in catalogs then CatnorthSorted(chosen, query, sort) else Unqueried(|chosen|);
    var quaia := if "quaia" in catalogs then Queried(chosen, quaiaQuery) else Unqueried(|chosen|);
    var stats := EntriesFrom(map[], names, StatsOf(catnorth, quaia));
    assert CurrentRun(f, inputs, newOnly, catalogs, false, query, quaiaQuery, sort).files
      == Files(WithStats(f.events, stats), Some(EntriesFrom(cm, names, catnorth)));
    assert forall k :: 0 <= k < |chosen| ==>
      catnorth[k] == CatnorthAnswer(chosen[k], catalogs, query, sort) && quaia[k] == QuaiaAnswer(chosen[k], catalogs, quaiaQuery);
    WrittenValues(cm, f.events, chosen, catnorth, quaia, catalogs, query, quaiaQuery, sort);
  }

  /** The two dictionaries the current version writes, given the answers of the events redone. */
  lemma WrittenValues(cm: map<string, Coords>, events: map<string, NewEventsDict.StoredEvent>, chosen: seq<CrossmatchInput>,
                      catnorth: seq<Coords>, quaia: seq<Coords>, catalogs: seq<string>,
                      query: string -> seq<Agn>, quaiaQuery: string -> seq<Agn>, sort: (string, seq<Agn>) -> seq<Agn>)
    requires |catnorth| == |chosen| && |quaia| == |chosen|
    requires forall k :: 0 <= k < |chosen| ==>
      catnorth[k] == CatnorthAnswer(chosen[k], catalogs, query, sort) && quaia[k] == QuaiaAnswer(chosen[k], catalogs, quaiaQuery)
    ensures var names := Names(chosen);
      var written, stored := EntriesFrom(cm, names, catnorth), WithStats(events, EntriesFrom(map[], names, StatsOf(catnorth, quaia)));
      (forall n :: n in written <==> n in cm || n in names)
      && (forall n :: n in cm && n !in names ==> written[n] == cm[n])
      && stored.Keys == events.Keys
      && (forall id :: id in events ==> stored[id].(crossmatch := events[id].crossmatch) == events[id])
      && (forall id :: id in events && id !in names ==> stored[id] == events[id])
      && (forall k :: 0 <= k < |names| && LastAt(names, k) ==>
            written[names[k]] == CatnorthAnswer(chosen[k], catalogs, query, sort)
            && (names[k] in events ==>
                  stored[names[k]].crossmatch
                  == Some(NewEventsDict.CrossmatchStats(CountOf(CatnorthAnswer(chosen[k], catalogs, query, sort)),
                                                        CountOf(QuaiaAnswer(chosen[k], catalogs, quaiaQuery))))))
  {
    var names := Names(chosen);
    EntriesFromValues(cm, names, catnorth);
    EntriesFromValues(map[], names, StatsOf(catnorth, quaia));
  }

  /**
   * The FlareBot `get_crossmatches`: every event is crossmatched, new
   * answers are added only for events not stored yet, and the counts of
   * every event are written; a missing crossmatch file raises OSError.
   */
  function FlareBotRun(f: Files, inputs: seq<CrossmatchInput>, testing: bool,
                       query: string -> seq<Agn>, quaiaQuery: string -> seq<Agn>): (r: Outcome)
    ensures testing ==> r.files == f && r.result.Ok?
    ensures !testing && f.crossmatches.None? ==> r == Outcome(Err(OSError), f)
    ensures testing || f.crossmatches.Some? ==>
      r.result.Ok? && r.result.value.Some?
      && |r.result.value.value.catnorth| == |inputs| && |r.result.value.value.quaia| == |inputs|
      && forall k :: 0 <= k < |inputs| ==>
           r.result.value.value.catnorth[k] == Some(query(inputs[k].name))
           && r.result.value.value.quaia[k] == Some(quaiaQuery(inputs[k].name))
  {
    var catnorth := Raw(inputs, query);
    var quaia := Raw(inputs, quaiaQuery);
    var lists := Lists(Answers(catnorth), Answers(quaia));
    if testing then Outcome(Ok(Some(lists)), f)
    else match f.crossmatches
      case None => Outcome(Err(OSError), f)
      case Some(cm) =>
        var names := Names(inputs);
        var entries := EntriesFrom(map[], names, Answers(catnorth));
        var stats := EntriesFrom(map[], names, Lengths(catnorth, quaia));
        Outcome(Ok(Some(lists)), Files(WithStats(f.events, stats), Some(KeepExisting(cm, entries))))
  }

  /**
   * The FlareBot run never replaces a stored crossmatch and adds the
   * catalog answer of every new event given; every stored event given gets
   * the lengths of its two answers as its crossmatch section, and nothing
   * else in the events dictionary changes.
   */
  lemma FlareBotKeepsStored(f: Files, inputs: seq<CrossmatchInput>, query: string -> seq<Agn>, quaiaQuery: string -> seq<Agn>)
    requires f.crossmatches.Some?
    ensures var cm, g := f.crossmatches.value, FlareBotRun(f, inputs, false, query, quaiaQuery).files;
      g.crossmatches.Some?
      && (forall n :: n in cm ==> g.crossmatches.value[n] == cm[n])
      && (forall n :: n in g.crossmatches.value <==> n in cm || n in Names(inputs))
      && (forall n :: n in Names(inputs) && n !in cm ==> g.crossmatches.value[n] == Some(query(n)))
      && g.events.Keys == f.events.Keys
      && (forall id :: id in f.events ==>
            g.events[id] == if id in Names(inputs)
                            then f.events[id].(crossmatch := Some(NewEventsDict.CrossmatchStats(Some(|query(id)|), Some(|quaiaQuery(id)|))))
                            else f.events[id])
  {
    var catnorth := Raw(inputs, query);
    var entries := EntriesFrom(map[], Names(inputs), Answers(catnorth));
    var stats := EntriesFrom(map[], Names(inputs), Lengths(catnorth, Raw(inputs, quaiaQuery)));
    assert FlareBotRun(f, inputs, false, query, quaiaQuery).files
      == Files(WithStats(f.events, stats), Some(KeepExisting(f.crossmatches.value, entries)));
    FlareBotAnswersStored(inputs, query);
    FlareBotCountsStored(inputs, query, quaiaQuery);
  }

  /** Every name given maps to its CatNorth answer in the FlareBot's new entries. */
  lemma FlareBotAnswersStored(inputs: seq<CrossmatchInput>, query: string -> seq<Agn>)
    ensures var entries := EntriesFrom(map[], Names(inputs), Answers(Raw(inputs, query)));
      (forall n :: n in entries <==> n in Names(inputs))
      && forall n :: n in Names(inputs) ==> entries[n] == Some(query(n))
  {
    EntriesFromUniform(map[], Names(inputs), Answers(Raw(inputs, query)), (n: string) => Some(query(n)));
  }

  /** Every name given maps to the lengths of its two answers in the FlareBot's counts. */
  lemma FlareBotCountsStored(inputs: seq<CrossmatchInput>, query: string -> seq<Agn>, quaiaQuery: string -> seq<Agn>)
    ensures var stats := EntriesFrom(map[], Names(inputs), Lengths(Raw(inputs, query), Raw(inputs, quaiaQuery)));
      (forall n :: n in stats <==> n in Names(inputs))
      && forall n :: n in Names(inputs) ==> stats[n] == NewEventsDict.CrossmatchStats(Some(|query(n)|), Some(|quaiaQuery(n)|))
  {
    EntriesFromUniform(map[], Names(inputs), Lengths(Raw(inputs, query), Raw(inputs, quaiaQuery)),
      (n: string) => NewEventsDict.CrossmatchStats(Some(|query(n)|), Some(|quaiaQuery(n)|)));
  }

  /** The two dictionary files as `KowalskiCrossmatch` reads and writes them. */
  class KowalskiCrossmatch {
    var events: map<string, NewEventsDict.StoredEvent>
    var crossmatches: Option<map<string, Coords>>

    ghost function State(): Files
      reads this
    {
      Files(events, crossmatches)
    }

    constructor (stored: map<string, NewEventsDict.StoredEvent>, matches: Option<map<string, Coords>>)
      ensures events == stored && crossmatches == matches
    {
      events := stored;
      crossmatches := matches;
    }

    /** flares_utils/new_events_utils.py:866-1006, with the merge loop; CatNorth is sorted as in `CurrentRun`. */
    method GetCrossmatches(inputs: seq<CrossmatchInput>, newOnly: bool, catalogs: seq<string>, testing: bool,
                           query: string -> seq<Agn>, quaiaQuery: string -> seq<Agn>, sort: (string, seq<Agn>) -> seq<Agn>)
      returns (result: Result<Option<Lists>>)
      modifies this
      ensures Outcome(result, State()) == CurrentRun(old(State()), inputs, newOnly, catalogs, testing, query, quaiaQuery, sort)
    {
      if crossmatches.None? {
        return Err(NameError);
      }
      var cm := crossmatches.value;
      var chosen := ToCrossmatch(inputs, cm.Keys, newOnly);
      var names := Names(chosen);
      var catnorth := if "catnorth" in catalogs then CatnorthSorted(chosen, query, sort) else Unqueried(|chosen|);
      var quaia := if "quaia" in catalogs then Queried(chosen, quaiaQuery) else Unqueried(|chosen|);
      if catnorth == [] {
        return Ok(None);
      }
      var merged := Overlay(cm, names, catnorth);
      var stats := Overlay(map[], names, StatsOf(catnorth, quaia));
      if !testing {
        crossmatches := Some(merged);
        events := WithStats(events, stats);
      }
      result := Ok(Some(Lists(catnorth, quaia)));
    }

    /** FlareBot/bot/new_events_utils.py:510-558. */
    method GetCrossmatchesFlareBot(inputs: seq<CrossmatchInput>, testing: bool,
                                   query: string -> seq<Agn>, quaiaQuery: string -> seq<Agn>)
      returns (result: Result<Option<Lists>>)
      modifies this
      ensures Outcome(result, State()) == FlareBotRun(old(State()), inputs, testing, query, quaiaQuery)
    {
      var catnorth := Raw(inputs, query);
      var quaia := Raw(inputs, quaiaQuery);
      result := Ok(Some(Lists(Answers(catnorth), Answers(quaia))));
      if testing {
        return;
      }
      if crossmatches.None? {
        return Err(OSError);
      }
      var names := Names(inputs);
      var entries := Overlay(map[], names, Answers(catnorth));
      var stats := Overlay(map[], names, Lengths(catnorth, quaia));
      crossmatches := Some(KeepExisting(crossmatches.value, entries));
      events := WithStats(events, stats);
    }
  }
}
