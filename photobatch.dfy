/**
 * The coordinate side of a forced-photometry request
 * (flares_utils/photometry_utils.py, `PhotometryCoords`, and its FlareBot
 * variant): the AGN of an event in the ZTF footprint, the ones to request
 * new or updated photometry for, the date-window batching of update
 * requests, and the chunks of at most 1500 coordinates ZFPS accepts.
 */
module PhotoBatch {
  import opened Wrappers
  import opened Seqs

  /** An AGN from the crossmatch, by its sky position in degrees. */
  datatype Coord = Coord(ra: real, dec: real)

  /** The rough southern edge of the ZTF footprint. */
  const MinDec: real := -30.0
  /** The largest batch ZFPS accepts. */
  const BatchSize: nat := 1500
  /** The number of requests ZFPS allows to be pending at once. */
  const AgnCeiling: nat := 15000
  /** The date window `custom_update_batching` groups by, in days. */
  const UpdateWindow: real := 60.0
  /** The latest date taken for a stored light curve with no points. */
  const EmptyLatest: real := 2459367.5
  const MjdToJd: real := 2400000.5
  /** The baseline reaches two years before the event. */
  const BaselineDays: real := 730.0

  // ---------------------------------------------------------------------
  // get_agn_coords

  /** `[d for d in all_coords if d.get('dec', 0) >= -30]`. */
  function Footprint(all: seq<Coord>): (r: seq<Coord>)
    ensures |r| <= |all|
    ensures forall d :: d in r <==> d in all && d.dec >= MinDec
  {
    if all == [] then []
    else
      var rest := Footprint(all[1..]);
      assert forall d :: d in all <==> d == all[0] || d in all[1..];
      (if all[0].dec >= MinDec then [all[0]] else []) + rest
  }

  /** The coordinates with no light curve stored locally. */
  function Unobserved(z: seq<Coord>, local: Coord -> Option<real>): (r: seq<Coord>)
    ensures forall d :: d in r <==> d in z && local(d).None?
  {
    if z == [] then []
    else
      assert forall d :: d in z <==> d == z[0] || d in z[1..];
      (if local(z[0]).None? then [z[0]] else []) + Unobserved(z[1..], local)
  }

  /** The coordinates with a stored light curve, in order. */
  function Observed(z: seq<Coord>, local: Coord -> Option<real>): (r: seq<Coord>)
    ensures forall d :: d in r <==> d in z && local(d).Some?
  {
    if z == [] then []
    else
      assert forall d :: d in z <==> d == z[0] || d in z[1..];
      (if local(z[0]).Some? then [z[0]] else []) + Observed(z[1..], local)
  }

  /** The latest date of each stored light curve, in the same order. */
  function LatestDates(z: seq<Coord>, local: Coord -> Option<real>): (r: seq<real>)
    ensures |r| == |Observed(z, local)|
    ensures forall k :: 0 <= k < |r| ==> local(Observed(z, local)[k]) == Some(r[k])
  {
    if z == [] then []
    else if local(z[0]).Some? then
      var rest := LatestDates(z[1..], local);
      assert Observed(z, local) == [z[0]] + Observed(z[1..], local);
      [local(z[0]).value] + rest
    else
      assert Observed(z, local) == Observed(z[1..], local);
      LatestDates(z[1..], local)
  }

  /** Photometry older than a week and ending less than 200 days after the event. */
  predicate Updatable(date: real, now: real, gwJd: real)
  {
    now - date > 7.0 && date - gwJd < 200.0
  }

  /** `[x for x, date in zip(existing_coords, latest_dates) if ...]`. */
  function KeptCoords(cs: seq<Coord>, ds: seq<real>, now: real, gwJd: real): seq<Coord>
  {
    if cs == [] || ds == [] then []
    else (if Updatable(ds[0], now, gwJd) then [cs[0]] else []) + KeptCoords(cs[1..], ds[1..], now, gwJd)
  }

  /** `[date for date in latest_dates if ...]`. */
  function KeptDates(ds: seq<real>, now: real, gwJd: real): seq<real>
  {
    if ds == [] then []
    else (if Updatable(ds[0], now, gwJd) then [ds[0]] else []) + KeptDates(ds[1..], now, gwJd)
  }

  /**
   * The two filters keep the same positions: the k-th kept coordinate has
   * the k-th kept date as its latest date, and that date is updatable;
   * every updatable pair is kept.
   */
  lemma {:induction false} KeptAligned(cs: seq<Coord>, ds: seq<real>, now: real, gwJd: real, local: Coord -> Option<real>)
    requires |cs| == |ds| && forall k :: 0 <= k < |cs| ==> local(cs[k]) == Some(ds[k])
    ensures var kc, kd := KeptCoords(cs, ds, now, gwJd), KeptDates(ds, now, gwJd);
      |kc| == |kd|
      && (forall k :: 0 <= k < |kc| ==> local(kc[k]) == Some(kd[k]) && Updatable(kd[k], now, gwJd) && kc[k] in cs)
      && (forall k :: 0 <= k < |cs| && Updatable(ds[k], now, gwJd) ==> cs[k] in kc)
  {
    if cs != [] {
      assert forall k :: 0 <= k < |cs| - 1 ==> local(cs[1..][k]) == Some(ds[1..][k]) by {
        forall k | 0 <= k < |cs| - 1 ensures local(cs[1..][k]) == Some(ds[1..][k]) {
          assert cs[1..][k] == cs[k + 1] && ds[1..][k] == ds[k + 1];
        }
      }
      KeptAligned(cs[1..], ds[1..], now, gwJd, local);
      var rc, rd := KeptCoords(cs[1..], ds[1..], now, gwJd), KeptDates(ds[1..], now, gwJd);
      var hc: seq<Coord> := if Updatable(ds[0], now, gwJd) then [cs[0]] else [];
      var hd: seq<real> := if Updatable(ds[0], now, gwJd) then [ds[0]] else [];
      assert KeptCoords(cs, ds, now, gwJd) == hc + rc;
      assert KeptDates(ds, now, gwJd) == hd + rd;
      assert forall k :: 1 <= k < |cs| ==> cs[k] == cs[1..][k - 1] && ds[k] == ds[1..][k - 1];
      assert forall d :: d in rc ==> d in cs;
    }
  }

  /**
   * The `flare` section of an event in the events dictionary: empty, or a
   * record that may or may not hold `date_last_zfps`.
   */
  datatype FlareSection = EmptyFlare | FlareRecord(dateLastZfps: Option<string>)

  /** The crossmatch of an event and what the events dictionary holds about it. */
  datatype AgnSource = AgnSource(catnorth: seq<Coord>, quaia: seq<Coord>, gwMjd: real, flare: FlareSection)

  /** Which catalogs to draw from (`'catnorth' in self.catalog`, `'quaia' in self.catalog`). */
  datatype Catalogs = Catalogs(catnorth: bool, quaia: bool)

  datatype Action = AllCoords | NewCoords | UpdateCoords

  /** The coordinates with the two-year baseline, with one date each, or nothing. */
  datatype AgnCoords =
    | Baseline(coords: seq<Coord>, jd: real)
    | Dated(coords: seq<Coord>, dates: seq<real>)
    | NoPhotometry

  function Crossmatched(src: AgnSource, cat: Catalogs): seq<Coord>
  {
    (if cat.catnorth then src.catnorth else []) + (if cat.quaia then src.quaia else [])
  }

  /**
   * `get_agn_coords` (photometry_utils.py:77-133): every footprint AGN with
   * the baseline for 'all'; those with no stored light curve for 'new';
   * and for 'update', those whose stored light curve is updatable, each
   * with its latest date, or nothing when the event has no flare record.
   * `local` gives the latest date of the light curve stored for a
   * position, if there is one.
   */
  function GetAgnCoords(src: AgnSource, cat: Catalogs, action: Action, local: Coord -> Option<real>, now: real): (r: Result<AgnCoords>)
    ensures r.Err? <==> action == UpdateCoords && src.flare.FlareRecord? && src.flare.dateLastZfps.None?
    ensures r.Err? ==> r.error == KeyError
    ensures r.Ok? && action != UpdateCoords ==> r.value.Baseline? && r.value.jd == src.gwMjd + MjdToJd - BaselineDays
    ensures r.Ok? && action == AllCoords ==> forall d :: d in r.value.coords <==> d in Crossmatched(src, cat) && d.dec >= MinDec
    ensures r.Ok? && action == NewCoords ==>
      forall d :: d in r.value.coords <==> d in Crossmatched(src, cat) && d.dec >= MinDec && local(d).None?
    ensures r.Ok? && action == UpdateCoords ==> (r.value.NoPhotometry? <==> src.flare.EmptyFlare?) && !r.value.Baseline?
    ensures r.Ok? && r.value.Dated? ==> (
      var a := r.value;
      |a.coords| == |a.dates|
      && (forall k :: 0 <= k < |a.coords| ==>
            local(a.coords[k]) == Some(a.dates[k]) && Updatable(a.dates[k], now, src.gwMjd + MjdToJd)
            && a.coords[k] in Crossmatched(src, cat) && a.coords[k].dec >= MinDec)
      && (forall d :: (d in Crossmatched(src, cat) && d.dec >= MinDec && local(d).Some?
                       && Updatable(local(d).value, now, src.gwMjd + MjdToJd)) ==> d in a.coords))
  {
    var z := Footprint(Crossmatched(src, cat));
    var gwJd := src.gwMjd + MjdToJd;
    match action
    case AllCoords => Ok(Baseline(z, gwJd - BaselineDays))
    case NewCoords => Ok(Baseline(Unobserved(z, local), gwJd - BaselineDays))
    case UpdateCoords =>
      if src.flare.EmptyFlare? then Ok(NoPhotometry)
      else if src.flare.dateLastZfps.None? then Err(KeyError)
      else
        var existing, latest := Observed(z, local), LatestDates(z, local);
        KeptAligned(existing, latest, now, gwJd, local);
        UpdatableKept(existing, latest, now, gwJd, local);
        Ok(Dated(KeptCoords(existing, latest, now, gwJd), KeptDates(latest, now, gwJd)))
  }

  lemma UpdatableKept(cs: seq<Coord>, ds: seq<real>, now: real, gwJd: real, local: Coord -> Option<real>)
    requires |cs| == |ds| && forall k :: 0 <= k < |cs| ==> local(cs[k]) == Some(ds[k])
    ensures forall d :: d in cs && Updatable(local(d).value, now, gwJd) ==> d in KeptCoords(cs, ds, now, gwJd)
  {
    KeptAligned(cs, ds, now, gwJd, local);
    forall d | d in cs && Updatable(local(d).value, now, gwJd) ensures d in KeptCoords(cs, ds, now, gwJd) {
      var k :| 0 <= k < |cs| && cs[k] == d;
    }
  }

  // ---------------------------------------------------------------------
  // custom_update_batching

  datatype Stamped = Stamped(date: real, coord: Coord)

  /** `zip(dates, coords)`, as long as the shorter list. */
  function Zip(dates: seq<real>, coords: seq<Coord>): (r: seq<Stamped>)
    ensures |r| == if |dates| < |coords| then |dates| else |coords|
    ensures forall k :: 0 <= k < |r| ==> r[k] == Stamped(dates[k], coords[k])
  {
    if dates == [] || coords == [] then []
    else [Stamped(dates[0], coords[0])] + Zip(dates[1..], coords[1..])
  }

  function DatesOf(s: seq<Stamped>): (r: seq<real>)
    ensures |r| == |s|
  {
    seq(|s|, k requires 0 <= k < |s| => s[k].date)
  }

  function CoordsOf(s: seq<Stamped>): (r: seq<Coord>)
    ensures |r| == |s|
  {
    seq(|s|, k requires 0 <= k < |s| => s[k].coord)
  }

  /** Put `x` before the first element not earlier than it. */
  function Insert(x: Stamped, s: seq<Stamped>): seq<Stamped>
  {
    if s == [] || x.date <= s[0].date then [x] + s else [s[0]] + Insert(x, s[1..])
  }

  /** `sorted(..., key=lambda x: x[0])`: a stable insertion sort by date. */
  function SortByDate(s: seq<Stamped>): seq<Stamped>
  {
    if s == [] then [] else Insert(s[0], SortByDate(s[1..]))
  }

  predicate DateSorted(s: seq<Stamped>)
  {
    forall i, j :: 0 <= i < j < |s| ==> s[i].date <= s[j].date
  }

  /** Every element of `s` is dated `b` or later. */
  predicate DatedFrom(b: real, s: seq<Stamped>)
  {
    forall k :: 0 <= k < |s| ==> b <= s[k].date
  }

  lemma {:induction false} InsertPerm(x: Stamped, s: seq<Stamped>)
    ensures multiset(Insert(x, s)) == multiset([x]) + multiset(s) && |Insert(x, s)| == |s| + 1
  {
    if s != [] && x.date > s[0].date {
      InsertPerm(x, s[1..]);
      assert s == [s[0]] + s[1..];
    }
  }

  lemma {:induction false} InsertDatedFrom(b: real, x: Stamped, s: seq<Stamped>)
    requires DatedFrom(b, s) && b <= x.date
    ensures DatedFrom(b, Insert(x, s))
  {
    if s != [] && x.date > s[0].date {
      InsertDatedFrom(b, x, s[1..]);
      var t := Insert(x, s[1..]);
      assert forall i :: 1 <= i < |[s[0]] + t| ==> ([s[0]] + t)[i] == t[i - 1];
    }
  }

  lemma {:induction false} InsertSorted(x: Stamped, s: seq<Stamped>)
    requires DateSorted(s)
    ensures DateSorted(Insert(x, s))
  {
    if s == [] || x.date <= s[0].date {
      var t := [x] + s;
      forall i, j | 0 <= i < j < |t| ensures t[i].date <= t[j].date {
        if i == 0 {
          assert t[j] == s[j - 1] && s[0].date <= s[j - 1].date;
        } else {
          assert t[i] == s[i - 1] && t[j] == s[j - 1];
        }
      }
    } else {
      InsertSorted(x, s[1..]);
      InsertDatedFrom(s[0].date, x, s[1..]);
      var t := Insert(x, s[1..]);
      var u := [s[0]] + t;
      forall i, j | 0 <= i < j < |u| ensures u[i].date <= u[j].date {
        if i == 0 {
          assert u[j] == t[j - 1];
        } else {
          assert u[i] == t[i - 1] && u[j] == t[j - 1];
        }
      }
    }
  }

  /** The sort orders by date and keeps every pair exactly once. */
  lemma {:induction false} SortByDateSorted(s: seq<Stamped>)
    ensures DateSorted(SortByDate(s)) && multiset(SortByDate(s)) == multiset(s) && |SortByDate(s)| == |s|
  {
    if s != [] {
      SortByDateSorted(s[1..]);
      InsertSorted(s[0], SortByDate(s[1..]));
      InsertPerm(s[0], SortByDate(s[1..]));
      assert s == [s[0]] + s[1..];
    }
  }

  function Last<T>(s: seq<T>): T
    requires |s| > 0
  {
    s[|s| - 1]
  }

  /**
   * The groups the loop of `custom_update_batching` builds from the first
   * `|ps|` sorted pairs: a pair joins the current group when it is at most
   * `th` after the group's last date, and starts a new group otherwise.
   */
  function Grouped(ps: seq<Stamped>, th: real): (g: seq<seq<Stamped>>)
    ensures |ps| > 0 <==> |g| > 0
    ensures forall k :: 0 <= k < |g| ==> |g[k]| > 0
    decreases |ps|
  {
    if ps == [] then []
    else
      var g := Grouped(ps[..|ps| - 1], th);
      var x := ps[|ps| - 1];
      if g == [] || x.date - Last(Last(g)).date > th then g + [[x]]
      else g[..|g| - 1] + [Last(g) + [x]]
  }

  /** Dates inside a group are at most `th` apart, one after the other. */
  predicate Close(grp: seq<Stamped>, th: real)
  {
    forall i :: 0 < i < |grp| ==> grp[i].date - grp[i - 1].date <= th
  }

  /** Each group starts more than `th` after the previous one ended. */
  predicate Apart(g: seq<seq<Stamped>>, th: real)
    requires forall k :: 0 <= k < |g| ==> |g[k]| > 0
  {
    forall k :: 0 < k < |g| ==> g[k][0].date - Last(g[k - 1]).date > th
  }

  /**
   * The groups concatenate back to the sorted pairs, consecutive dates in a
   * group are at most `th` apart, and consecutive groups more than `th`.
   */
  lemma GroupedShape(ps: seq<Stamped>, th: real)
    ensures var g := Grouped(ps, th);
      Flatten(g) == ps && (forall k :: 0 <= k < |g| ==> Close(g[k], th)) && Apart(g, th)
  {
    GroupedFlatten(ps, th);
    GroupedClose(ps, th);
    GroupedApart(ps, th);
  }

  lemma {:induction false} GroupedFlatten(ps: seq<Stamped>, th: real)
    ensures Flatten(Grouped(ps, th)) == ps
    decreases |ps|
  {
    if ps != [] {
      var init, x := ps[..|ps| - 1], ps[|ps| - 1];
      GroupedFlatten(init, th);
      var g := Grouped(init, th);
      assert init + [x] == ps;
      if g == [] || x.date - Last(Last(g)).date > th {
        FlattenAppend(g, [[x]]);
        FlattenOne([x]);
      } else {
        var m := |g| - 1;
        assert g == g[..m] + [Last(g)];
        FlattenAppend(g[..m], [Last(g)]);
        FlattenOne(Last(g));
        FlattenAppend(g[..m], [Last(g) + [x]]);
        FlattenOne(Last(g) + [x]);
      }
    }
  }

  lemma {:induction false} GroupedClose(ps: seq<Stamped>, th: real)
    ensures forall k :: 0 <= k < |Grouped(ps, th)| ==> Close(Grouped(ps, th)[k], th)
    decreases |ps|
  {
    if ps != [] {
      var init, x := ps[..|ps| - 1], ps[|ps| - 1];
      GroupedClose(init, th);
      var g := Grouped(init, th);
      var h := Grouped(ps, th);
      if g == [] || x.date - Last(Last(g)).date > th {
        assert h == g + [[x]];
        forall k | 0 <= k < |h| ensures Close(h[k], th) {
          if k < |g| {
            assert h[k] == g[k];
          } else {
            assert h[k] == [x];
          }
        }
      } else {
        var m := |g| - 1;
        assert h == g[..m] + [Last(g) + [x]];
        assert Close(g[m], th);
        CloseExtended(Last(g), x, th);
        forall k | 0 <= k < |h| ensures Close(h[k], th) {
          if k < m {
            assert h[k] == g[k];
          } else {
            assert h[k] == Last(g) + [x];
          }
        }
      }
    }
  }

  lemma {:induction false} GroupedApart(ps: seq<Stamped>, th: real)
    ensures Apart(Grouped(ps, th), th)
    decreases |ps|
  {
    if ps != [] {
      var init, x := ps[..|ps| - 1], ps[|ps| - 1];
      GroupedApart(init, th);
      var g := Grouped(init, th);
      if g == [] || x.date - Last(Last(g)).date > th {
        var h := g + [[x]];
        assert forall k :: 0 <= k < |g| ==> h[k] == g[k];
      } else {
        var m := |g| - 1;
        var h := g[..m] + [Last(g) + [x]];
        assert forall k :: 0 <= k < m ==> h[k] == g[k];
        assert h[m][0] == Last(g)[0];
      }
    }
  }

  lemma CloseExtended(grp: seq<Stamped>, x: Stamped, th: real)
    requires |grp| > 0 && Close(grp, th) && x.date - Last(grp).date <= th
    ensures Close(grp + [x], th)
  {
    var t := grp + [x];
    forall i | 0 < i < |t| ensures t[i].date - t[i - 1].date <= th {
      if i == |grp| {
        assert t[i] == x && t[i - 1] == Last(grp);
      } else {
        assert t[i] == grp[i] && t[i - 1] == grp[i - 1];
      }
    }
  }

  /** Python's `min` of a non-empty list of dates. */
  function MinOf(s: seq<real>): (m: real)
    requires |s| > 0
    ensures m in s && forall k :: 0 <= k < |s| ==> m <= s[k]
  {
    if |s| == 1 then s[0]
    else
      var rest := MinOf(s[1..]);
      assert forall k :: 1 <= k < |s| ==> s[k] == s[1..][k - 1];
      if s[0] <= rest then s[0] else rest
  }

  /** The result of `custom_update_batching`: one start date per group, and the groups' coordinates. */
  datatype UpdateBatches = UpdateBatches(singleDates: seq<real>, groupedCoords: seq<seq<Coord>>)

  function GroupDates(g: seq<seq<Stamped>>): (r: seq<seq<real>>)
    ensures |r| == |g|
  {
    seq(|g|, k requires 0 <= k < |g| => DatesOf(g[k]))
  }

  function GroupCoords(g: seq<seq<Stamped>>): (r: seq<seq<Coord>>)
    ensures |r| == |g|
  {
    seq(|g|, k requires 0 <= k < |g| => CoordsOf(g[k]))
  }

  function SingleDates(gd: seq<seq<real>>): (r: seq<real>)
    requires forall k :: 0 <= k < |gd| ==> |gd[k]| > 0
    ensures |r| == |gd|
  {
    seq(|gd|, k requires 0 <= k < |gd| => MinOf(gd[k]))
  }

  /**
   * `custom_update_batching` of coordinates and their dates: the pairs
   * sorted by date, then grouped; unpacking an empty zip raises
   * `ValueError`.
   */
  function UpdateBatching(coords: seq<Coord>, dates: seq<real>, th: real): (r: Result<UpdateBatches>)
    ensures r.Err? <==> coords == [] || dates == []
    ensures r.Err? ==> r.error == ValueError
    ensures r.Ok? ==> |r.value.singleDates| == |r.value.groupedCoords| > 0
    ensures r.Ok? ==> forall k :: 0 <= k < |r.value.groupedCoords| ==> |r.value.groupedCoords[k]| > 0
  {
    var combined := SortByDate(Zip(dates, coords));
    SortByDateSorted(Zip(dates, coords));
    if combined == [] then Err(ValueError)
    else
      var g := Grouped(combined, th);
      Ok(UpdateBatches(SingleDates(GroupDates(g)), GroupCoords(g)))
  }

  /** Every group of a date-sorted list is itself date-sorted. */
  lemma PartSorted(g: seq<seq<Stamped>>, k: nat)
    requires k < |g| && DateSorted(Flatten(g))
    ensures DateSorted(g[k])
  {
    FlattenPart(g, k);
    var a := |Flatten(g[..k])|;
    SortedSlice(Flatten(g), a, a + |g[k]|);
  }

  lemma SortedSlice(s: seq<Stamped>, a: nat, b: nat)
    requires a <= b <= |s| && DateSorted(s)
    ensures DateSorted(s[a..b])
  {
    forall i, j | 0 <= i < j < b - a ensures s[a..b][i].date <= s[a..b][j].date {
      assert s[a..b][i] == s[a + i] && s[a..b][j] == s[a + j];
    }
  }

  /**
   * The batches of `custom_update_batching`: the groups' coordinates
   * concatenate to the coordinates in date order, each single date is the
   * first and earliest date of its group, consecutive dates in a group are
   * at most `th` apart, and each group starts more than `th` after the
   * previous one.
   */
  lemma UpdateBatchingShape(coords: seq<Coord>, dates: seq<real>, th: real)
    requires UpdateBatching(coords, dates, th).Ok?
    ensures var b, combined := UpdateBatching(coords, dates, th).value, SortByDate(Zip(dates, coords));
      var g := Grouped(combined, th);
      Flatten(b.groupedCoords) == CoordsOf(combined)
      && multiset(combined) == multiset(Zip(dates, coords))
      && (forall k :: 0 <= k < |g| ==> b.singleDates[k] == g[k][0].date && b.groupedCoords[k] == CoordsOf(g[k]))
      && (forall k :: 0 <= k < |g| ==> Close(g[k], th))
      && Apart(g, th)
  {
    var combined := SortByDate(Zip(dates, coords));
    SortByDateSorted(Zip(dates, coords));
    var g: seq<seq<Stamped>> := Grouped(combined, th);
    GroupedShape(combined, th);
    var b: UpdateBatches := UpdateBatching(coords, dates, th).value;
    forall k: nat | 0 <= k < |g| ensures b.singleDates[k] == g[k][0].date {
      PartSorted(g, k);
      var m := MinOf(DatesOf(g[k]));
      assert m <= DatesOf(g[k])[0];
      var j :| 0 <= j < |g[k]| && DatesOf(g[k])[j] == m;
      assert g[k][0].date <= g[k][j].date;
    }
    FlattenCoords(g);
  }

  /** The coordinates of the concatenated groups are the concatenated coordinates. */
  lemma {:induction false} FlattenCoords(g: seq<seq<Stamped>>)
    ensures Flatten(GroupCoords(g)) == CoordsOf(Flatten(g))
  {
    if g != [] {
      FlattenCoords(g[1..]);
      assert GroupCoords(g)[1..] == GroupCoords(g[1..]);
      assert CoordsOf(g[0] + Flatten(g[1..])) == CoordsOf(g[0]) + CoordsOf(Flatten(g[1..]));
    }
  }

  /** After `i` sorted pairs, the loop's closed groups and its current group. */
  predicate Batched(g: seq<seq<Stamped>>, groupedDates: seq<seq<real>>, groupedCoords: seq<seq<Coord>>,
                    currentDates: seq<real>, currentCoords: seq<Coord>)
  {
    if g == [] then groupedDates == [] && groupedCoords == [] && currentDates == [] && currentCoords == []
    else
      groupedDates == GroupDates(g[..|g| - 1]) && groupedCoords == GroupCoords(g[..|g| - 1])
      && currentDates == DatesOf(Last(g)) && currentCoords == CoordsOf(Last(g))
  }

  /** `custom_update_batching`, loop by loop. */
  method CustomUpdateBatching(coords: seq<Coord>, dates: seq<real>, threshold: real) returns (r: Result<UpdateBatches>)
    ensures r == UpdateBatching(coords, dates, threshold)
  {
    var combined := SortByDate(Zip(dates, coords));
    if combined == [] {
      return Err(ValueError);
    }
    var sortedDates, sortedCoords := DatesOf(combined), CoordsOf(combined);
    var groupedDates: seq<seq<real>> := [];
    var groupedCoords: seq<seq<Coord>> := [];
    var currentDates: seq<real> := [];
    var currentCoords: seq<Coord> := [];
    var i := 0;
    assert combined[..0] == [];
    while i < |sortedDates|
      invariant 0 <= i <= |combined|
      invariant Batched(Grouped(combined[..i], threshold), groupedDates, groupedCoords, currentDates, currentCoords)
    {
      BatchStep(combined, i, threshold, groupedDates, groupedCoords, currentDates, currentCoords);
      if currentDates == [] || sortedDates[i] - currentDates[|currentDates| - 1] <= threshold {
        currentDates := currentDates + [sortedDates[i]];
        currentCoords := currentCoords + [sortedCoords[i]];
      } else {
        groupedDates := groupedDates + [currentDates];
        groupedCoords := groupedCoords + [currentCoords];
        currentDates := [sortedDates[i]];
        currentCoords := [sortedCoords[i]];
      }
      i := i + 1;
    }
    assert combined[..i] == combined;
    BatchingDone(combined, threshold, groupedDates, groupedCoords, currentDates, currentCoords);
    if currentDates != [] {
      groupedDates := groupedDates + [currentDates];
      groupedCoords := groupedCoords + [currentCoords];
    }
    var singleDates := seq(|groupedDates|, k requires 0 <= k < |groupedDates| => MinOf(groupedDates[k]));
    r := Ok(UpdateBatches(singleDates, groupedCoords));
  }

  /** After the last pair, closing the current group gives all the groups. */
  lemma BatchingDone(combined: seq<Stamped>, th: real, gd: seq<seq<real>>, gc: seq<seq<Coord>>, cd: seq<real>, cc: seq<Coord>)
    requires combined != [] && Batched(Grouped(combined, th), gd, gc, cd, cc)
    ensures cd != []
    ensures gd + [cd] == GroupDates(Grouped(combined, th)) && gc + [cc] == GroupCoords(Grouped(combined, th))
  {
    var g := Grouped(combined, th);
    assert g == g[..|g| - 1] + [Last(g)];
    assert |Last(g)| > 0;
  }

  /** One pass of the loop in `custom_update_batching`. */
  lemma BatchStep(combined: seq<Stamped>, i: nat, th: real, gd: seq<seq<real>>, gc: seq<seq<Coord>>, cd: seq<real>, cc: seq<Coord>)
    requires i < |combined| && Batched(Grouped(combined[..i], th), gd, gc, cd, cc)
    ensures var x := combined[i];
      if cd == [] || x.date - cd[|cd| - 1] <= th then Batched(Grouped(combined[..i + 1], th), gd, gc, cd + [x.date], cc + [x.coord])
      else Batched(Grouped(combined[..i + 1], th), gd + [cd], gc + [cc], [x.date], [x.coord])
  {
    var g := Grouped(combined[..i], th);
    var x := combined[i];
    assert combined[..i + 1][..i] == combined[..i] && combined[..i + 1][i] == x;
    if g != [] {
      assert cd[|cd| - 1] == Last(Last(g)).date;
    }
    var h := Grouped(combined[..i + 1], th);
    if g == [] || x.date - Last(Last(g)).date > th {
      assert h == g + [[x]] && h[..|h| - 1] == g;
      if g != [] {
        assert g == g[..|g| - 1] + [Last(g)];
        assert GroupDates(g) == GroupDates(g[..|g| - 1]) + [DatesOf(Last(g))];
        assert GroupCoords(g) == GroupCoords(g[..|g| - 1]) + [CoordsOf(Last(g))];
      }
      assert DatesOf([x]) == [x.date] && CoordsOf([x]) == [x.coord];
    } else {
      assert h[..|h| - 1] == g[..|g| - 1] && Last(h) == Last(g) + [x];
      assert DatesOf(Last(g) + [x]) == DatesOf(Last(g)) + [x.date];
      assert CoordsOf(Last(g) + [x]) == CoordsOf(Last(g)) + [x.coord];
    }
  }

  // ---------------------------------------------------------------------
  // flatten_radec

  /** The values `flatten_radec` meets: numbers and (nested) lists. */
  datatype PyVal = Num(x: real) | PyList(items: seq<PyVal>)

  /** `any(isinstance(subitem, list) for subitem in items)`. */
  predicate HoldsList(items: seq<PyVal>)
  {
    exists k :: 0 <= k < |items| && items[k].PyList?
  }

  /** `(subitem for subitem in items if isinstance(subitem, list))`. */
  function ListsIn(items: seq<PyVal>): (r: seq<PyVal>)
    ensures forall v :: v in r <==> v in items && v.PyList?
    ensures |r| <= |items|
  {
    if items == [] then []
    else
      assert forall v :: v in items <==> v == items[0] || v in items[1..];
      (if items[0].PyList? then [items[0]] else []) + ListsIn(items[1..])
  }

  /** What one item of the input contributes to the output. */
  function Spliced(item: PyVal): seq<PyVal>
  {
    if item.PyList? && HoldsList(item.items) then ListsIn(item.items) else [item]
  }

  /** The specification of `flatten_radec`, item by item from the left. */
  function FlattenRadec(coordlist: seq<PyVal>): seq<PyVal>
  {
    if coordlist == [] then [] else FlattenRadec(coordlist[..|coordlist| - 1]) + Spliced(Last(coordlist))
  }

  /** `flatten_radec` (photometry_utils.py:166-176). */
  method FlattenRadecList(coordlist: seq<PyVal>) returns (fixed: seq<PyVal>)
    ensures fixed == FlattenRadec(coordlist)
  {
    fixed := [];
    var i := 0;
    while i < |coordlist|
      invariant 0 <= i <= |coordlist|
      invariant fixed == FlattenRadec(coordlist[..i])
    {
      var item := coordlist[i];
      assert coordlist[..i + 1][..i] == coordlist[..i];
      if item.PyList? && HoldsList(item.items) {
        fixed := fixed + ListsIn(item.items);
      } else {
        fixed := fixed + [item];
      }
      i := i + 1;
    }
    assert coordlist[..i] == coordlist;
  }

  /** A batch of numbers as a Python list. */
  function Row(xs: seq<real>): PyVal
  {
    PyList(seq(|xs|, k requires 0 <= k < |xs| => Num(xs[k])))
  }

  function Rows(chunks: seq<seq<real>>): (r: seq<PyVal>)
    ensures |r| == |chunks|
  {
    seq(|chunks|, k requires 0 <= k < |chunks| => Row(chunks[k]))
  }

  lemma RowsAppend(a: seq<seq<real>>, b: seq<seq<real>>)
    ensures Rows(a + b) == Rows(a) + Rows(b)
  {
  }

  lemma ListsInRows(chunks: seq<seq<real>>)
    ensures ListsIn(Rows(chunks)) == Rows(chunks)
    decreases |chunks|
  {
    if chunks != [] {
      ListsInRows(chunks[1..]);
      assert Rows(chunks)[1..] == Rows(chunks[1..]);
    }
  }

  /**
   * With a list of batch lists per date group, as the update path builds,
   * `flatten_radec` gives all the batches in order.
   */
  lemma {:induction false} FlattenRadecBatches(groups: seq<seq<seq<real>>>)
    requires forall k :: 0 <= k < |groups| ==> |groups[k]| > 0
    ensures FlattenRadec(BatchLists(groups)) == Rows(Flatten(groups))
    decreases |groups|
  {
    if groups != [] {
      var m := |groups| - 1;
      var init := groups[..m];
      FlattenRadecBatches(init);
      assert BatchLists(groups)[..m] == BatchLists(init);
      SplicedBatch(groups[m]);
      FlattenSnoc(groups);
      RowsAppend(Flatten(init), groups[m]);
    }
  }

  /** One list of batches per date group, as the update path builds them. */
  function BatchLists(groups: seq<seq<seq<real>>>): (r: seq<PyVal>)
    ensures |r| == |groups| && forall k :: 0 <= k < |groups| ==> r[k] == PyList(Rows(groups[k]))
  {
    seq(|groups|, k requires 0 <= k < |groups| => PyList(Rows(groups[k])))
  }

  /** A non-empty list of batches is spliced into its batches. */
  lemma SplicedBatch(chunks: seq<seq<real>>)
    requires |chunks| > 0
    ensures Spliced(PyList(Rows(chunks))) == Rows(chunks)
  {
    assert Rows(chunks)[0] == Row(chunks[0]);
    assert HoldsList(Rows(chunks));
    ListsInRows(chunks);
  }

  /**
   * An item holding a list keeps only its list sub-items; an item that
   * holds no list is kept whole.
   */
  lemma FlattenRadecDropsNumbers()
    ensures FlattenRadec([PyList([Row([1.0]), Num(2.0)]), Row([3.0]), Num(4.0)])
         == [Row([1.0]), Row([3.0]), Num(4.0)]
  {
    var a := PyList([Row([1.0]), Num(2.0)]);
    var xs := [a, Row([3.0]), Num(4.0)];
    assert a.items[0].PyList?;
    assert ListsIn(a.items) == [Row([1.0])] by {
      assert a.items[1..] == [Num(2.0)] && a.items[1..][1..] == [];
    }
    assert Spliced(a) == [Row([1.0])];
    assert !HoldsList(Row([3.0]).items);
    assert Spliced(Row([3.0])) == [Row([3.0])];
    assert Spliced(Num(4.0)) == [Num(4.0)];
    assert xs[..2] == [a, Row([3.0])] && xs[..2][..1] == [a] && [a][..0] == [];
    assert FlattenRadec([a]) == [Row([1.0])];
    assert FlattenRadec(xs[..2]) == [Row([1.0]), Row([3.0])];
  }

  // ---------------------------------------------------------------------
  // format_for_zfps

  function RaOf(cs: seq<Coord>): (r: seq<real>)
    ensures |r| == |cs|
  {
    seq(|cs|, k requires 0 <= k < |cs| => cs[k].ra)
  }

  function DecOf(cs: seq<Coord>): (r: seq<real>)
    ensures |r| == |cs|
  {
    seq(|cs|, k requires 0 <= k < |cs| => cs[k].dec)
  }

  /** Chunking the right ascensions chunks the coordinates. */
  lemma {:induction false} ChunksOfRa(cs: seq<Coord>, n: nat)
    requires n > 0
    ensures var cc := Chunks(cs, n);
      Chunks(RaOf(cs), n) == seq(|cc|, k requires 0 <= k < |cc| => RaOf(cc[k]))
      && Chunks(DecOf(cs), n) == seq(|cc|, k requires 0 <= k < |cc| => DecOf(cc[k]))
    decreases |cs|
  {
    if |cs| > n {
      ChunksOfRa(cs[n..], n);
      assert RaOf(cs)[..n] == RaOf(cs[..n]) && RaOf(cs)[n..] == RaOf(cs[n..]);
      assert DecOf(cs)[..n] == DecOf(cs[..n]) && DecOf(cs)[n..] == DecOf(cs[n..]);
    }
  }

  /** The date argument of a request: one date, or one per batch. */
  datatype JdArg = OneJd(jd: real) | JdPerBatch(jds: seq<real>)

  const NoAgnMarker: string := "no AGN observable by ZTF"

  /**
   * What `format_for_zfps` gives: with no coordinates, the value it writes
   * to the event's `date_last_zfps` (and it returns None); otherwise the
   * batches and the date argument.
   */
  datatype Formatted = NoAgn(dateLastZfps: string) | Formatted(ra: seq<seq<real>>, dec: seq<seq<real>>, jd: JdArg)

  /** The ra values of the chunks of at most `BatchSize` coordinates. */
  function RaBatches(coords: seq<Coord>): seq<seq<real>>
  {
    var cc := Chunks(coords, BatchSize);
    seq(|cc|, k requires 0 <= k < |cc| => RaOf(cc[k]))
  }

  function DecBatches(coords: seq<Coord>): seq<seq<real>>
  {
    var cc := Chunks(coords, BatchSize);
    seq(|cc|, k requires 0 <= k < |cc| => DecOf(cc[k]))
  }

  /** Batches of consecutive coordinates, concatenating back to the input. */
  predicate Batches(coords: seq<Coord>, ra: seq<seq<real>>, dec: seq<seq<real>>)
  {
    ra == RaBatches(coords) && dec == DecBatches(coords)
    && Flatten(ra) == RaOf(coords) && Flatten(dec) == DecOf(coords)
    && |ra| == (|coords| + BatchSize - 1) / BatchSize
    && (forall k :: 0 <= k < |ra| ==> 0 < |ra[k]| <= BatchSize && |dec[k]| == |ra[k]|)
    && (forall k :: 0 <= k < |ra| - 1 ==> |ra[k]| == BatchSize)
  }

  lemma BatchesShape(coords: seq<Coord>)
    ensures Batches(coords, Chunks(RaOf(coords), BatchSize), Chunks(DecOf(coords), BatchSize))
  {
    ChunksOfRa(coords, BatchSize);
    ChunksShape(RaOf(coords), BatchSize);
    ChunksShape(DecOf(coords), BatchSize);
    ChunksShape(coords, BatchSize);
  }

  /**
   * `format_for_zfps` (photometry_utils.py:178-198): nothing but the
   * marker for no coordinates; otherwise consecutive batches of at most
   * 1500, with the date repeated once per batch in update mode.
   */
  function FormatForZfps(action: Action, coords: seq<Coord>, date: real): (r: Formatted)
    ensures r.NoAgn? <==> coords == []
    ensures r.NoAgn? ==> r.dateLastZfps == NoAgnMarker
    ensures r.Formatted? ==> Batches(coords, r.ra, r.dec)
    ensures r.Formatted? && action == UpdateCoords ==> r.jd == JdPerBatch(seq(|r.ra|, _ => date))
    ensures r.Formatted? && action != UpdateCoords ==> r.jd == OneJd(date)
  {
    if |coords| == 0 then NoAgn(NoAgnMarker)
    else
      var ralist, declist := Chunks(RaOf(coords), BatchSize), Chunks(DecOf(coords), BatchSize);
      BatchesShape(coords);
      Formatted(ralist, declist, if action == UpdateCoords then JdPerBatch(seq(|ralist|, _ => date)) else OneJd(date))
  }

  /** The FlareBot `format_for_zfps`, with its four size bands. */
  datatype FormattedOld =
    | OverCeiling
    | NoAgnOld(dateLastZfps: string)
    | OneBatch(singleRa: seq<real>, singleDec: seq<real>, singleJd: real)
    | ManyBatches(ra: seq<seq<real>>, dec: seq<seq<real>>, jd: JdArg)

  /**
   * FlareBot/bot/photometry_utils.py:182-210: over 15000 coordinates give
   * None, none give the marker, up to 1500 one unbatched request, and more
   * than that batches of at most 1500.
   */
  function FormatForZfpsOld(action: Action, coords: seq<Coord>, date: real): (r: FormattedOld)
    ensures r.OverCeiling? <==> |coords| > AgnCeiling
    ensures r.NoAgnOld? <==> |coords| == 0
    ensures r.NoAgnOld? ==> r.dateLastZfps == NoAgnMarker
    ensures r.OneBatch? <==> 0 < |coords| <= BatchSize
    ensures r.OneBatch? ==> r == OneBatch(RaOf(coords), DecOf(coords), date)
    ensures r.ManyBatches? ==> BatchSize < |coords| <= AgnCeiling && Batches(coords, r.ra, r.dec)
  {
    if |coords| > AgnCeiling then OverCeiling
    else if |coords| == 0 then NoAgnOld(NoAgnMarker)
    else if |coords| <= BatchSize then OneBatch(RaOf(coords), DecOf(coords), date)
    else
      var ralist, declist := Chunks(RaOf(coords), BatchSize), Chunks(DecOf(coords), BatchSize);
      BatchesShape(coords);
      ManyBatches(ralist, declist, if action == UpdateCoords then JdPerBatch(seq(|ralist|, _ => date)) else OneJd(date))
  }

  /**
   * The two versions agree above 1500 coordinates up to the FlareBot
   * ceiling; at or below 1500 the current one gives the same coordinates
   * as a single batch.
   */
  lemma {:induction false} FormatVersionsAgree(action: Action, coords: seq<Coord>, date: real)
    ensures var cur, prev := FormatForZfps(action, coords, date), FormatForZfpsOld(action, coords, date);
      (BatchSize < |coords| <= AgnCeiling ==> prev == ManyBatches(cur.ra, cur.dec, cur.jd))
      && (0 < |coords| <= BatchSize ==> cur.ra == [prev.singleRa] && cur.dec == [prev.singleDec])
  {
    if 0 < |coords| <= BatchSize {
      assert Chunks(RaOf(coords), BatchSize) == [RaOf(coords)];
      assert Chunks(DecOf(coords), BatchSize) == [DecOf(coords)];
    }
  }

  // ---------------------------------------------------------------------
  // get_photometry_coords

  /** A request: ra and dec batches, one date per batch, and the number of AGN. */
  datatype Request = Request(ra: seq<seq<real>>, dec: seq<seq<real>>, jd: seq<real>, numAgn: nat)

  /** `sublist if isinstance(sublist, list) else [sublist]`. */
  function JdList(j: JdArg): seq<real>
  {
    match j
    case OneJd(x) => [x]
    case JdPerBatch(xs) => xs
  }

  function RaGroups(groups: seq<seq<Coord>>): seq<seq<real>>
  {
    seq(|groups|, k requires 0 <= k < |groups| => RaOf(groups[k]))
  }

  function DecGroups(groups: seq<seq<Coord>>): seq<seq<real>>
  {
    seq(|groups|, k requires 0 <= k < |groups| => DecOf(groups[k]))
  }

  lemma {:induction false} RaDecOfFlatten(groups: seq<seq<Coord>>)
    ensures Flatten(RaGroups(groups)) == RaOf(Flatten(groups))
    ensures Flatten(DecGroups(groups)) == DecOf(Flatten(groups))
  {
    if groups != [] {
      RaDecOfFlatten(groups[1..]);
      assert RaGroups(groups)[1..] == RaGroups(groups[1..]);
      assert DecGroups(groups)[1..] == DecGroups(groups[1..]);
      CoordsAppend(groups[0], Flatten(groups[1..]));
    }
  }

  /** `[self.format_for_zfps(i, j) for i, j in zip(grouped_coords, grouped_dates)]`. */
  function FormatGroups(groups: seq<seq<Coord>>, singles: seq<real>): (r: seq<Formatted>)
    requires |groups| == |singles|
    ensures |r| == |groups|
    ensures forall k :: 0 <= k < |r| ==> r[k] == FormatForZfps(UpdateCoords, groups[k], singles[k])
  {
    if groups == [] then []
    else [FormatForZfps(UpdateCoords, groups[0], singles[0])] + FormatGroups(groups[1..], singles[1..])
  }

  predicate AllFormatted(fs: seq<Formatted>)
  {
    forall k :: 0 <= k < |fs| ==> fs[k].Formatted?
  }

  /** `[x[0] for x in formatted]`. */
  function RaParts(fs: seq<Formatted>): (r: seq<seq<seq<real>>>)
    requires AllFormatted(fs)
    ensures |r| == |fs| && forall k :: 0 <= k < |r| ==> r[k] == fs[k].ra
  {
    if fs == [] then [] else [fs[0].ra] + RaParts(fs[1..])
  }

  /** `[x[1] for x in formatted]`. */
  function DecParts(fs: seq<Formatted>): (r: seq<seq<seq<real>>>)
    requires AllFormatted(fs)
    ensures |r| == |fs| && forall k :: 0 <= k < |r| ==> r[k] == fs[k].dec
  {
    if fs == [] then [] else [fs[0].dec] + DecParts(fs[1..])
  }

  /** `[x[2] for x in formatted]`, each date argument as a list. */
  function JdParts(fs: seq<Formatted>): (r: seq<seq<real>>)
    requires AllFormatted(fs)
    ensures |r| == |fs| && forall k :: 0 <= k < |r| ==> r[k] == JdList(fs[k].jd)
  {
    if fs == [] then [] else [JdList(fs[0].jd)] + JdParts(fs[1..])
  }

  /**
   * The update path of `get_photometry_coords` (photometry_utils.py:225-234):
   * format each date group, then concatenate the groups' batches and dates.
   */
  function UpdateRequest(coords: seq<Coord>, dates: seq<real>, th: real): (r: Result<Request>)
    ensures r.Err? <==> coords == [] || dates == []
    ensures r.Err? ==> r.error == ValueError
    ensures r.Ok? ==> (var q := r.value;
      var combined := SortByDate(Zip(dates, coords));
      |q.dec| == |q.ra| && |q.jd| == |q.ra| && q.numAgn == |coords|
      && Flatten(q.ra) == RaOf(CoordsOf(combined)) && Flatten(q.dec) == DecOf(CoordsOf(combined))
      && (forall k :: 0 <= k < |q.ra| ==> 0 < |q.ra[k]| <= BatchSize)
      && (forall d :: d in q.jd ==> d in UpdateBatching(coords, dates, th).value.singleDates))
  {
    match UpdateBatching(coords, dates, th)
    case Err(e) => Err(e)
    case Ok(b) =>
      var formatted := FormatGroups(b.groupedCoords, b.singleDates);
      FormatGroupsAll(b.groupedCoords, b.singleDates);
      if !AllFormatted(formatted) then Err(TypeError)
      else
        var ras, decs, jds := RaParts(formatted), DecParts(formatted), JdParts(formatted);
        UpdateRaDec(coords, dates, th, formatted);
        UpdateJd(coords, dates, th, formatted);
        Ok(Request(Flatten(ras), Flatten(decs), Flatten(jds), |coords|))
  }

  lemma FormatGroupsAll(groups: seq<seq<Coord>>, singles: seq<real>)
    requires |groups| == |singles| && forall k :: 0 <= k < |groups| ==> |groups[k]| > 0
    ensures AllFormatted(FormatGroups(groups, singles))
  {
    var f := FormatGroups(groups, singles);
    forall k | 0 <= k < |f| ensures f[k].Formatted? {
      assert f[k] == FormatForZfps(UpdateCoords, groups[k], singles[k]);
    }
  }

  /** Formatting each group and concatenating gives the groups' right ascensions in order. */
  lemma {:induction false} FormatGroupsRa(groups: seq<seq<Coord>>, singles: seq<real>)
    requires |groups| == |singles| && forall k :: 0 <= k < |groups| ==> |groups[k]| > 0
    requires AllFormatted(FormatGroups(groups, singles))
    ensures Flatten(Flatten(RaParts(FormatGroups(groups, singles)))) == RaOf(Flatten(groups))
  {
    if groups != [] {
      var f := FormatGroups(groups, singles);
      FormatGroupsTail(groups, singles);
      FormatGroupsRa(groups[1..], singles[1..]);
      assert RaParts(f)[1..] == RaParts(f[1..]);
      FlattenTwiceHead(RaParts(f));
      assert Flatten(f[0].ra) == RaOf(groups[0]);
      CoordsAppend(groups[0], Flatten(groups[1..]));
    }
  }

  lemma FormatGroupsTail(groups: seq<seq<Coord>>, singles: seq<real>)
    requires |groups| == |singles| && |groups| > 0
    ensures FormatGroups(groups, singles)[1..] == FormatGroups(groups[1..], singles[1..])
  {
  }

  lemma CoordsAppend(a: seq<Coord>, b: seq<Coord>)
    ensures RaOf(a + b) == RaOf(a) + RaOf(b) && DecOf(a + b) == DecOf(a) + DecOf(b)
  {
  }

  /** The same for the declinations. */
  lemma {:induction false} FormatGroupsDec(groups: seq<seq<Coord>>, singles: seq<real>)
    requires |groups| == |singles| && forall k :: 0 <= k < |groups| ==> |groups[k]| > 0
    requires AllFormatted(FormatGroups(groups, singles))
    ensures Flatten(Flatten(DecParts(FormatGroups(groups, singles)))) == DecOf(Flatten(groups))
  {
    if groups != [] {
      var f := FormatGroups(groups, singles);
      FormatGroupsTail(groups, singles);
      FormatGroupsDec(groups[1..], singles[1..]);
      assert DecParts(f)[1..] == DecParts(f[1..]);
      FlattenTwiceHead(DecParts(f));
      assert Flatten(f[0].dec) == DecOf(groups[0]);
      CoordsAppend(groups[0], Flatten(groups[1..]));
    }
  }

  lemma UpdateRaDec(coords: seq<Coord>, dates: seq<real>, th: real, formatted: seq<Formatted>)
    requires UpdateBatching(coords, dates, th).Ok?
    requires var b := UpdateBatching(coords, dates, th).value; formatted == FormatGroups(b.groupedCoords, b.singleDates)
    requires AllFormatted(formatted)
    ensures var combined := SortByDate(Zip(dates, coords));
      Flatten(Flatten(RaParts(formatted))) == RaOf(CoordsOf(combined))
      && Flatten(Flatten(DecParts(formatted))) == DecOf(CoordsOf(combined))
      && |Flatten(DecParts(formatted))| == |Flatten(RaParts(formatted))|
      && (forall k :: 0 <= k < |Flatten(RaParts(formatted))| ==> 0 < |Flatten(RaParts(formatted))[k]| <= BatchSize)
  {
    var b := UpdateBatching(coords, dates, th).value;
    UpdateBatchingShape(coords, dates, th);
    FormattedCoords(b.groupedCoords, b.singleDates);
  }

  /** The formatted groups' batches concatenate to the groups' coordinates, in batches of at most `BatchSize`. */
  lemma FormattedCoords(groups: seq<seq<Coord>>, singles: seq<real>)
    requires |groups| == |singles| && forall k :: 0 <= k < |groups| ==> |groups[k]| > 0
    requires AllFormatted(FormatGroups(groups, singles))
    ensures var f := FormatGroups(groups, singles);
      Flatten(Flatten(RaParts(f))) == RaOf(Flatten(groups))
      && Flatten(Flatten(DecParts(f))) == DecOf(Flatten(groups))
      && |Flatten(DecParts(f))| == |Flatten(RaParts(f))|
      && (forall k :: 0 <= k < |Flatten(RaParts(f))| ==> 0 < |Flatten(RaParts(f))[k]| <= BatchSize)
  {
    var f := FormatGroups(groups, singles);
    var ras, decs := RaParts(f), DecParts(f);
    FormatGroupsRa(groups, singles);
    FormatGroupsDec(groups, singles);
    FlattenSameShape(decs, ras);
    forall k | 0 <= k < |Flatten(ras)| ensures 0 < |Flatten(ras)[k]| <= BatchSize {
      InFlatten(ras, Flatten(ras)[k]);
    }
  }

  lemma UpdateJd(coords: seq<Coord>, dates: seq<real>, th: real, formatted: seq<Formatted>)
    requires UpdateBatching(coords, dates, th).Ok?
    requires var b := UpdateBatching(coords, dates, th).value; formatted == FormatGroups(b.groupedCoords, b.singleDates)
    requires AllFormatted(formatted)
    ensures |Flatten(JdParts(formatted))| == |Flatten(RaParts(formatted))|
    ensures forall d :: d in Flatten(JdParts(formatted)) ==> d in UpdateBatching(coords, dates, th).value.singleDates
  {
    var b := UpdateBatching(coords, dates, th).value;
    FormattedDates(b.groupedCoords, b.singleDates);
  }

  /** Each group's batches all carry that group's single date. */
  lemma FormattedDates(groups: seq<seq<Coord>>, singles: seq<real>)
    requires |groups| == |singles| && AllFormatted(FormatGroups(groups, singles))
    ensures var f := FormatGroups(groups, singles);
      |Flatten(JdParts(f))| == |Flatten(RaParts(f))| && forall d :: d in Flatten(JdParts(f)) ==> d in singles
  {
    var f := FormatGroups(groups, singles);
    var ras, jds := RaParts(f), JdParts(f);
    FlattenSameShape(jds, ras);
    forall d | d in Flatten(jds) ensures d in singles {
      InFlatten(jds, d);
      var k :| 0 <= k < |jds| && d in jds[k];
    }
  }

  /**
   * The 'all'/'new' path of `get_photometry_coords` (photometry_utils.py:
   * 235-237): the batches of `format_for_zfps` with its one date repeated
   * per batch; unpacking its None for no coordinates raises `TypeError`.
   */
  function BaselineRequest(action: Action, coords: seq<Coord>, jd: real): (r: Result<Request>)
    requires action != UpdateCoords
    ensures r.Err? <==> coords == []
    ensures r.Err? ==> r.error == TypeError
    ensures r.Ok? ==> r.value == Request(RaBatches(coords), DecBatches(coords), seq(|r.value.ra|, _ => jd), |coords|)
    ensures r.Ok? ==> (Flatten(r.value.ra) == RaOf(coords) && Flatten(r.value.dec) == DecOf(coords)
                       && |r.value.ra| == (|coords| + BatchSize - 1) / BatchSize)
  {
    match FormatForZfps(action, coords, jd)
    case NoAgn(_) => Err(TypeError)
    case Formatted(ra, dec, j) => Ok(Request(ra, dec, seq(|ra|, _ => j.jd), |coords|))
  }

  /** The number of batches a backlog slice holds. */
  const SliceBatches: nat := 10

  /** `ra[lo:lo+10]`, `dec[lo:lo+10]`, `jd[lo:lo+10]` and their AGN count. */
  function Slice(q: Request, lo: nat): Request
  {
    var ra := Window(q.ra, lo, lo + SliceBatches);
    Request(ra, Window(q.dec, lo, lo + SliceBatches), Window(q.jd, lo, lo + SliceBatches), TotalLength(ra))
  }

  /** The slices `i .. nb - 1` queued for later. */
  function BacklogFrom(q: Request, i: nat, nb: nat): (r: seq<Request>)
    ensures |r| == if i < nb then nb - i else 0
    decreases nb - i
  {
    if i >= nb then [] else [Slice(q, SliceBatches * i)] + BacklogFrom(q, i + 1, nb)
  }

  /** A request to submit now and the slices queued behind it. */
  datatype Split = Split(now: Request, backlog: seq<Request>)

  /**
   * photometry_utils.py:241-257: an event with more than 15000 AGN submits
   * its first ten batches now and queues the rest ten at a time.
   */
  function SplitBacklog(q: Request): Split
  {
    if q.numAgn > AgnCeiling then
      var nb := (|q.ra| + SliceBatches - 1) / SliceBatches;
      Split(Slice(q, 0), BacklogFrom(q, 1, nb))
    else Split(q, [])
  }

  /** The ra batches of each request, as `RaOf` is the ra of each coordinate. */
  function RasOf(qs: seq<Request>): (r: seq<seq<seq<real>>>)
    ensures |r| == |qs|
  {
    seq(|qs|, k requires 0 <= k < |qs| => qs[k].ra)
  }

  /** The dec batches of each request, as `DecOf` is the dec of each coordinate. */
  function DecsOf(qs: seq<Request>): (r: seq<seq<seq<real>>>)
    ensures |r| == |qs|
  {
    seq(|qs|, k requires 0 <= k < |qs| => qs[k].dec)
  }

  function JdsOf(qs: seq<Request>): (r: seq<seq<real>>)
    ensures |r| == |qs|
  {
    seq(|qs|, k requires 0 <= k < |qs| => qs[k].jd)
  }

  lemma BacklogWindows(q: Request, i: nat, nb: nat)
    requires i <= nb
    ensures RasOf(BacklogFrom(q, i, nb)) == Windows(q.ra, SliceBatches * i, SliceBatches, nb - i)
    ensures DecsOf(BacklogFrom(q, i, nb)) == Windows(q.dec, SliceBatches * i, SliceBatches, nb - i)
    ensures JdsOf(BacklogFrom(q, i, nb)) == Windows(q.jd, SliceBatches * i, SliceBatches, nb - i)
  {
    BacklogRaWindows(q, i, nb);
    BacklogDecWindows(q, i, nb);
    BacklogJdWindows(q, i, nb);
  }

  lemma {:induction false} BacklogRaWindows(q: Request, i: nat, nb: nat)
    requires i <= nb
    ensures RasOf(BacklogFrom(q, i, nb)) == Windows(q.ra, SliceBatches * i, SliceBatches, nb - i)
    decreases nb - i
  {
    if i < nb {
      BacklogRaWindows(q, i + 1, nb);
      assert SliceBatches * (i + 1) == SliceBatches * i + SliceBatches;
      var b := BacklogFrom(q, i, nb);
      assert b == [Slice(q, SliceBatches * i)] + BacklogFrom(q, i + 1, nb);
      assert b[1..] == BacklogFrom(q, i + 1, nb);
      assert RasOf(b) == [b[0].ra] + RasOf(b[1..]);
    }
  }

  lemma {:induction false} BacklogDecWindows(q: Request, i: nat, nb: nat)
    requires i <= nb
    ensures DecsOf(BacklogFrom(q, i, nb)) == Windows(q.dec, SliceBatches * i, SliceBatches, nb - i)
    decreases nb - i
  {
    if i < nb {
      BacklogDecWindows(q, i + 1, nb);
      assert SliceBatches * (i + 1) == SliceBatches * i + SliceBatches;
      var b := BacklogFrom(q, i, nb);
      assert b == [Slice(q, SliceBatches * i)] + BacklogFrom(q, i + 1, nb);
      assert b[1..] == BacklogFrom(q, i + 1, nb);
      assert DecsOf(b) == [b[0].dec] + DecsOf(b[1..]);
    }
  }

  lemma {:induction false} BacklogJdWindows(q: Request, i: nat, nb: nat)
    requires i <= nb
    ensures JdsOf(BacklogFrom(q, i, nb)) == Windows(q.jd, SliceBatches * i, SliceBatches, nb - i)
    decreases nb - i
  {
    if i < nb {
      BacklogJdWindows(q, i + 1, nb);
      assert SliceBatches * (i + 1) == SliceBatches * i + SliceBatches;
      var b := BacklogFrom(q, i, nb);
      assert b == [Slice(q, SliceBatches * i)] + BacklogFrom(q, i + 1, nb);
      assert b[1..] == BacklogFrom(q, i + 1, nb);
      assert JdsOf(b) == [b[0].jd] + JdsOf(b[1..]);
    }
  }

  /**
   * The batches submitted now and those queued partition the batch list,
   * in order, for ra, dec and jd alike; at most ten batches go now and in
   * each slice, and each count is the size of its batches.
   */
  lemma BacklogPartition(q: Request)
    requires q.numAgn > AgnCeiling && |q.dec| == |q.ra| && |q.jd| == |q.ra|
    ensures var sp := SplitBacklog(q);
      sp.now.ra + Flatten(RasOf(sp.backlog)) == q.ra
      && sp.now.dec + Flatten(DecsOf(sp.backlog)) == q.dec
      && sp.now.jd + Flatten(JdsOf(sp.backlog)) == q.jd
      && sp.now.numAgn == TotalLength(sp.now.ra) && |sp.now.ra| <= SliceBatches
      && (forall k :: 0 <= k < |sp.backlog| ==>
            sp.backlog[k].numAgn == TotalLength(sp.backlog[k].ra) && 0 < |sp.backlog[k].ra| <= SliceBatches)
    ensures |q.ra| > 0 ==> |SplitBacklog(q).backlog| == (|q.ra| + SliceBatches - 1) / SliceBatches - 1
  {
    var nb := (|q.ra| + SliceBatches - 1) / SliceBatches;
    assert |q.ra| + SliceBatches - 1 == SliceBatches * nb + (|q.ra| + SliceBatches - 1) % SliceBatches;
    var sp := SplitBacklog(q);
    if nb == 0 {
      assert q.ra == [];
      assert sp.now.ra == [];
    } else {
      BacklogWindows(q, 1, nb);
      FirstThenWindows(q.ra, nb);
      FirstThenWindows(q.dec, nb);
      FirstThenWindows(q.jd, nb);
      BacklogSlices(q, 1, nb);
    }
  }

  /** The first slice and the windows after it give the list back. */
  lemma FirstThenWindows<T>(s: seq<T>, nb: nat)
    requires nb > 0 && |s| <= SliceBatches * nb
    ensures Window(s, 0, SliceBatches) + Flatten(Windows(s, SliceBatches, SliceBatches, nb - 1)) == s
  {
    assert SliceBatches * nb == SliceBatches + SliceBatches * (nb - 1);
    WindowsCover(s, SliceBatches, SliceBatches, nb - 1);
    var m := if SliceBatches < |s| then SliceBatches else |s|;
    assert s[..m] + s[m..] == s;
  }

  lemma {:induction false} BacklogSlices(q: Request, i: nat, nb: nat)
    requires 1 <= i && (|q.ra| + SliceBatches - 1) / SliceBatches == nb
    ensures forall k :: 0 <= k < |BacklogFrom(q, i, nb)| ==>
      BacklogFrom(q, i, nb)[k].numAgn == TotalLength(BacklogFrom(q, i, nb)[k].ra)
      && 0 < |BacklogFrom(q, i, nb)[k].ra| <= SliceBatches
    decreases nb - i
  {
    if i < nb {
      assert |q.ra| + SliceBatches - 1 == SliceBatches * nb + (|q.ra| + SliceBatches - 1) % SliceBatches;
      assert SliceBatches * i < |q.ra|;
      BacklogSlices(q, i + 1, nb);
      var b := BacklogFrom(q, i, nb);
      assert forall k :: 1 <= k < |b| ==> b[k] == BacklogFrom(q, i + 1, nb)[k - 1];
    }
  }

  /**
   * `get_photometry_coords` up to the backlog split: the coordinates of
   * `get_agn_coords`, batched by date groups in update mode; `None` from
   * `get_agn_coords` fails to unpack with `TypeError`.
   */
  function PhotometryRequest(src: AgnSource, cat: Catalogs, action: Action, local: Coord -> Option<real>, now: real, th: real): (r: Result<Request>)
    ensures GetAgnCoords(src, cat, action, local, now).Err? ==> r == Err(KeyError)
    ensures GetAgnCoords(src, cat, action, local, now) == Ok(NoPhotometry) ==> r == Err(TypeError)
    ensures r.Ok? ==> (GetAgnCoords(src, cat, action, local, now).Ok?
                       && r.value.numAgn == |GetAgnCoords(src, cat, action, local, now).value.coords| > 0
                       && |r.value.dec| == |r.value.ra| && |r.value.jd| == |r.value.ra|)
  {
    match GetAgnCoords(src, cat, action, local, now)
    case Err(e) => Err(e)
    case Ok(agn) =>
      if action == UpdateCoords then
        (match agn
         case Dated(coords, dates) => UpdateRequest(coords, dates, th)
         case _ => Err(TypeError))
      else BaselineRequest(action, agn.coords, agn.jd)
  }

  /**
   * `get_photometry_coords` (photometry_utils.py:222-259), with the slices
   * it queues: within the ceiling the whole request goes now; over it, at
   * most ten batches go now.
   */
  function GetPhotometryCoords(src: AgnSource, cat: Catalogs, action: Action, local: Coord -> Option<real>, now: real, th: real): (r: Result<Split>)
    ensures r.Err? <==> PhotometryRequest(src, cat, action, local, now, th).Err?
    ensures r.Ok? ==> (var q := PhotometryRequest(src, cat, action, local, now, th).value;
      (q.numAgn <= AgnCeiling ==> r.value == Split(q, []))
      && (q.numAgn > AgnCeiling ==> |r.value.now.ra| <= SliceBatches && r.value.now.numAgn == TotalLength(r.value.now.ra)))
  {
    match PhotometryRequest(src, cat, action, local, now, th)
    case Err(e) => Err(e)
    case Ok(q) => Ok(SplitBacklog(q))
  }
}
