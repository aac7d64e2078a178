/**
 * The retrospective audit of the trigger decisions (`Fritz.determine_trigger_status`
 * and `Fritz.get_trigger_status`): for each event it compares what was done
 * on Fritz with what the trigger criteria asked for, in the current
 * version (flares_utils/new_events_utils.py) and the FlareBot one
 * (FlareBot/bot/new_events_utils.py), which has no serendipitous-coverage case.
 */
module TriggerAudit {
  import opened Wrappers
  import CivilDates

  /** The first statistics block of an observation plan. */
  datatype PlanStatistics = PlanStatistics(numObservations: real, totalTime: real, probability: real, start: string)

  /**
   * An observation plan request: the localization it is for, its status,
   * its `modified` timestamp, the statistics lists of its plans and its
   * localization name.
   */
  datatype PlanRequest = PlanRequest(dateobs: string, status: string, modified: string,
                                     observationPlans: seq<seq<PlanStatistics>>, localizationName: string)

  datatype Tag = Correct | Error | Inspect

  /** `total_time, probability, start` of the plan the verdict rests on. */
  datatype Figures = Figures(totalTime: real, probability: real, start: string)

  /** The list `[tag, reason]` or `[tag, reason, total_time, probability, start]`. */
  datatype Verdict = Verdict(tag: Tag, reason: string, figures: Option<Figures>)

  datatype Version = Current | FlareBot

  const SubmittedStatus: string := "submitted to telescope queue"
  /** The automated trigger went live on 2024-09-14 at midnight. */
  const TriggerStart: CivilDates.Date := CivilDates.Date(2024, 9, 14)

  const PredatesTrigger: string := "predates trigger"
  const NotTriggered: string := "not triggered"
  const MissedPlanRequest: string := "missed plan request"
  const NonAutomated: string := "non-automated trigger"
  const MultipleTriggers: string := "multiple triggers"
  const NoValidPlan: string := "no valid plan"
  const Triggered: string := "triggered"
  const BadTrigger: string := "bad trigger"
  const MissedTrigger: string := "missed trigger"

  /** The event criteria: FAR of at least 10 years, 90% area at most 1000 deg2, mass at least 60. */
  predicate PassesGates(a90: real, far: real, mass: real)
  {
    !(far < 10.0 || a90 > 1000.0 || mass < 60.0)
  }

  /** The plan criteria on top: probability at least 0.5 and at most 5400 s of observing. */
  predicate Intended(a90: real, far: real, mass: real, totalTime: real, probability: real)
  {
    PassesGates(a90, far, mass) && !(probability < 0.5 || totalTime > 5400.0)
  }

  /**
   * `datetime.fromisoformat(dateid) < datetime.fromisoformat("2024-09-14T00:00:00")`
   * for a "%Y-%m-%dT%H:%M:%S" text; ValueError for any other text.
   */
  function Predates(dateid: string): (r: Result<bool>)
    ensures r.Err? <==> CivilDates.ParseSeconds(dateid).None?
    ensures r.Ok? ==> (r.value <==> CivilDates.Before(CivilDates.ParseSeconds(dateid).value.date, TriggerStart))
  {
    match CivilDates.ParseSeconds(dateid)
    case None => Err(ValueError)
    case Some(t) => Ok(CivilDates.Before(t.date, TriggerStart))
  }

  function Matching(plans: seq<PlanRequest>, dateid: string): (r: seq<PlanRequest>)
    ensures forall p :: p in r <==> p in plans && p.dateobs == dateid
  {
    if plans == [] then []
    else (if plans[0].dateobs == dateid then [plans[0]] else []) + Matching(plans[1..], dateid)
  }

  function SubmittedOf(plans: seq<PlanRequest>): (r: seq<PlanRequest>)
    ensures |r| <= |plans|
    ensures forall p :: p in r <==> p in plans && p.status == SubmittedStatus
  {
    if plans == [] then []
    else (if plans[0].status == SubmittedStatus then [plans[0]] else []) + SubmittedOf(plans[1..])
  }

  /** A request whose first plan has statistics with some observations. */
  predicate Observes(p: PlanRequest)
    requires p.observationPlans != []
  {
    p.observationPlans[0] != [] && p.observationPlans[0][0].numObservations != 0.0
  }

  /**
   * The requests whose first plan observes anything, in order; IndexError at
   * the first request with no plan at all.
   */
  function Observing(plans: seq<PlanRequest>): (r: Result<seq<PlanRequest>>)
    ensures r.Err? <==> exists p :: p in plans && p.observationPlans == []
    ensures r.Err? ==> r.error == IndexError
    ensures r.Ok? ==> forall p :: p in r.value <==> p in plans && Observes(p)
  {
    if plans == [] then Ok([])
    else if plans[0].observationPlans == [] then Err(IndexError)
    else match Observing(plans[1..])
      case Err(e) => Err(e)
      case Ok(rest) => Ok((if Observes(plans[0]) then [plans[0]] else []) + rest)
  }

  /** Python's `<` on two strings: code point by code point, a proper prefix first. */
  predicate StrLess(a: string, b: string)
  {
    if a == [] then b != []
    else if b == [] then false
    else if a[0] != b[0] then a[0] < b[0]
    else StrLess(a[1..], b[1..])
  }

  lemma {:induction false} StrLessTrans(a: string, b: string, c: string)
    requires StrLess(a, b) && StrLess(b, c)
    ensures StrLess(a, c)
  {
    if a != [] && b != [] && c != [] && a[0] == b[0] && b[0] == c[0] {
      StrLessTrans(a[1..], b[1..], c[1..]);
    }
  }

  lemma {:induction false} StrLessTotal(a: string, b: string)
    ensures a == b || StrLess(a, b) || StrLess(b, a)
  {
    if a != [] && b != [] && a[0] == b[0] {
      StrLessTotal(a[1..], b[1..]);
      if a[1..] == b[1..] {
        assert a == [a[0]] + a[1..] && b == [b[0]] + b[1..];
      }
    }
  }

  lemma {:induction false} StrLessIrreflexive(a: string)
    ensures !StrLess(a, a)
  {
    if a != [] {
      StrLessIrreflexive(a[1..]);
    }
  }

  /** `max(plans, key=modified)` from a running best: the first request with the greatest key. */
  function LatestFrom(best: PlanRequest, rest: seq<PlanRequest>): (r: PlanRequest)
    ensures r == best || r in rest
    ensures !StrLess(r.modified, best.modified)
    ensures forall p :: p in rest ==> !StrLess(r.modified, p.modified)
    ensures r == best || FirstGreatestAt(best, rest, r)
    decreases |rest|
  {
    if rest == [] then
      StrLessIrreflexive(best.modified);
      best
    else
      var next := if StrLess(best.modified, rest[0].modified) then rest[0] else best;
      var r := LatestFrom(next, rest[1..]);
      FirstGreatestStep(best, rest, next, r);
      assert !StrLess(r.modified, best.modified) by {
        if StrLess(r.modified, best.modified) {
          if next == rest[0] {
            StrLessTrans(r.modified, best.modified, rest[0].modified);
          }
        }
      }
      assert !StrLess(r.modified, rest[0].modified) by {
        if StrLess(r.modified, rest[0].modified) && next == best {
          StrLessTotal(r.modified, best.modified);
          if r.modified != best.modified {
            StrLessTrans(best.modified, r.modified, rest[0].modified);
          }
        }
      }
      assert forall p :: p in rest ==> p == rest[0] || p in rest[1..];
      r
  }

  /**
   * `r` is `rest[i]` for some `i`, later than `best` and than every
   * request before it: `max` keeps the first of equal keys.
   */
  ghost predicate FirstGreatestAt(best: PlanRequest, rest: seq<PlanRequest>, r: PlanRequest)
  {
    exists i :: 0 <= i < |rest| && rest[i] == r && StrLess(best.modified, r.modified)
      && forall k :: 0 <= k < i ==> StrLess(rest[k].modified, r.modified)
  }

  lemma FirstGreatestStep(best: PlanRequest, rest: seq<PlanRequest>, next: PlanRequest, r: PlanRequest)
    requires rest != []
    requires next == (if StrLess(best.modified, rest[0].modified) then rest[0] else best)
    requires r == next || FirstGreatestAt(next, rest[1..], r)
    ensures r == best || FirstGreatestAt(best, rest, r)
  {
    if r != best {
      if r == next {
        assert rest[0] == r && StrLess(best.modified, r.modified);
      } else {
        var j :| 0 <= j < |rest[1..]| && rest[1..][j] == r && StrLess(next.modified, r.modified)
          && forall k :: 0 <= k < j ==> StrLess(rest[1..][k].modified, r.modified);
        if next == rest[0] && StrLess(best.modified, rest[0].modified) {
          StrLessTrans(best.modified, rest[0].modified, r.modified);
        } else {
          StrLessTotal(best.modified, rest[0].modified);
          if rest[0].modified != best.modified {
            StrLessTrans(rest[0].modified, best.modified, r.modified);
          }
        }
        assert forall k :: 0 < k < j + 1 ==> rest[k] == rest[1..][k - 1];
        assert rest[j + 1] == r;
      }
    }
  }

  /** The most recently modified request: no request has a later key, and none before it has an equal one. */
  function Latest(plans: seq<PlanRequest>): (r: PlanRequest)
    requires plans != []
    ensures r in plans
    ensures forall p :: p in plans ==> !StrLess(r.modified, p.modified)
    ensures exists i :: 0 <= i < |plans| && plans[i] == r && forall k :: 0 <= k < i ==> StrLess(plans[k].modified, r.modified)
  {
    var r := LatestFrom(plans[0], plans[1..]);
    LatestFirst(plans, r);
    r
  }

  lemma LatestFirst(plans: seq<PlanRequest>, r: PlanRequest)
    requires plans != [] && (r == plans[0] || FirstGreatestAt(plans[0], plans[1..], r))
    ensures exists i :: 0 <= i < |plans| && plans[i] == r && forall k :: 0 <= k < i ==> StrLess(plans[k].modified, r.modified)
  {
    if r != plans[0] {
      var j :| 0 <= j < |plans[1..]| && plans[1..][j] == r && StrLess(plans[0].modified, r.modified)
        && forall k :: 0 <= k < j ==> StrLess(plans[1..][k].modified, r.modified);
      assert forall k :: 0 < k < j + 1 ==> plans[k] == plans[1..][k - 1];
      assert plans[j + 1] == r;
    } else {
      assert plans[0] == r;
    }
  }

  /** `observation_plans[0]["statistics"][0]`; IndexError when either list is empty. */
  function FirstStatistics(p: PlanRequest): (r: Result<PlanStatistics>)
    ensures r.Ok? <==> p.observationPlans != [] && p.observationPlans[0] != []
    ensures r.Ok? ==> r.value == p.observationPlans[0][0]
    ensures r.Err? ==> r.error == IndexError
  {
    if p.observationPlans == [] || p.observationPlans[0] == [] then Err(IndexError)
    else Ok(p.observationPlans[0][0])
  }

  /**
   * `determine_trigger_status` for one event. `coverage(dateid, name)` is
   * the fraction of the skymap the survey covered, as computed from the
   * chosen plan's localization; the FlareBot version does not ask for it.
   */
  function Determine(version: Version, plans: seq<PlanRequest>, dateid: string, a90: real, far: real, mass: real,
                     coverage: (string, string) -> real): (r: Result<Verdict>)
  {
    var matching := Matching(plans, dateid);
    match Predates(dateid)
    case Err(e) => Err(e)
    case Ok(early) =>
      if matching == [] then
        if early then Ok(Verdict(Correct, PredatesTrigger, None))
        else if !PassesGates(a90, far, mass) then Ok(Verdict(Correct, NotTriggered, None))
        else Ok(Verdict(Error, MissedPlanRequest, None))
      else
        var submitted := SubmittedOf(matching);
        var triggered := submitted != [];
        if early then Ok(Verdict(Correct, if triggered then NonAutomated else PredatesTrigger, None))
        else
          var eligible := if triggered then Ok(submitted) else Observing(matching);
          match eligible
          case Err(e) => Err(e)
          case Ok(candidates) =>
            if triggered && |candidates| != 1 then Ok(Verdict(Inspect, MultipleTriggers, None))
            else if candidates == [] then
              if !PassesGates(a90, far, mass) then Ok(Verdict(Correct, NotTriggered, None))
              else Ok(Verdict(Error, NoValidPlan, None))
            else
              var chosen := Latest(candidates);
              match FirstStatistics(chosen)
              case Err(e) => Err(e)
              case Ok(s) =>
                var figures := Figures(s.totalTime, s.probability, s.start);
                var intended := Intended(a90, far, mass, s.totalTime, s.probability);
                if triggered then
                  if intended then Ok(Verdict(Correct, Triggered, Some(figures)))
                  else Ok(Verdict(Error, BadTrigger, Some(figures)))
                else if intended then
                  var observed := coverage(dateid, chosen.localizationName);
                  if version == Current && observed > 0.9 * s.probability then
                    Ok(Verdict(Correct, Triggered, Some(Figures(0.0, observed, dateid + ".000"))))
                  else Ok(Verdict(Error, MissedTrigger, Some(figures)))
                else Ok(Verdict(Correct, NotTriggered, Some(figures)))
  }

  /** The plan criteria, read back from a verdict's figures. */
  predicate IntendedBy(a90: real, far: real, mass: real, f: Figures)
  {
    Intended(a90, far, mass, f.totalTime, f.probability)
  }

  /**
   * Events before the trigger went live are never errors; an event is to be
   * inspected exactly when it has two or more submitted requests; and the
   * only errors are an event that passes the criteria without being
   * triggered, and a trigger whose plan fails them.
   */
  lemma AuditVerdicts(version: Version, plans: seq<PlanRequest>, dateid: string, a90: real, far: real, mass: real,
                      coverage: (string, string) -> real)
    requires Determine(version, plans, dateid, a90, far, mass, coverage).Ok?
    ensures var v, m := Determine(version, plans, dateid, a90, far, mass, coverage).value, Matching(plans, dateid);
      && (Predates(dateid).value ==> v.tag == Correct)
      && (v.tag == Inspect <==> !Predates(dateid).value && |SubmittedOf(m)| >= 2)
      && (v.tag == Error && SubmittedOf(m) == [] ==> PassesGates(a90, far, mass))
      && (v.tag == Error && SubmittedOf(m) != [] ==>
            v.reason == BadTrigger && v.figures.Some? && !IntendedBy(a90, far, mass, v.figures.value))
  {
    AuditInspect(version, plans, dateid, a90, far, mass, coverage);
    AuditErrors(version, plans, dateid, a90, far, mass, coverage);
  }

  lemma AuditInspect(version: Version, plans: seq<PlanRequest>, dateid: string, a90: real, far: real, mass: real,
                     coverage: (string, string) -> real)
    requires Determine(version, plans, dateid, a90, far, mass, coverage).Ok?
    ensures var v, m := Determine(version, plans, dateid, a90, far, mass, coverage).value, Matching(plans, dateid);
      && (Predates(dateid).value ==> v.tag == Correct)
      && (v.tag == Inspect <==> !Predates(dateid).value && |SubmittedOf(m)| >= 2)
  {
    var m := Matching(plans, dateid);
    var sub := SubmittedOf(m);
    if Predates(dateid).value {
    } else if m == [] {
      assert sub == [];
    } else if sub != [] {
      InspectTriggered(version, plans, dateid, a90, far, mass, coverage);
    } else {
      InspectUntriggered(version, plans, dateid, a90, far, mass, coverage);
    }
  }

  lemma InspectTriggered(version: Version, plans: seq<PlanRequest>, dateid: string, a90: real, far: real, mass: real,
                         coverage: (string, string) -> real)
    requires Determine(version, plans, dateid, a90, far, mass, coverage).Ok?
    requires !Predates(dateid).value && SubmittedOf(Matching(plans, dateid)) != []
    ensures Determine(version, plans, dateid, a90, far, mass, coverage).value.tag == Inspect
      <==> |SubmittedOf(Matching(plans, dateid))| != 1
  {
    assert Matching(plans, dateid) != [];
  }

  lemma InspectUntriggered(version: Version, plans: seq<PlanRequest>, dateid: string, a90: real, far: real, mass: real,
                           coverage: (string, string) -> real)
    requires Determine(version, plans, dateid, a90, far, mass, coverage).Ok?
    requires !Predates(dateid).value && Matching(plans, dateid) != [] && SubmittedOf(Matching(plans, dateid)) == []
    ensures Determine(version, plans, dateid, a90, far, mass, coverage).value.tag != Inspect
  {
    assert Observing(Matching(plans, dateid)).Ok?;
  }

  lemma AuditErrors(version: Version, plans: seq<PlanRequest>, dateid: string, a90: real, far: real, mass: real,
                    coverage: (string, string) -> real)
    requires Determine(version, plans, dateid, a90, far, mass, coverage).Ok?
    ensures var v, m := Determine(version, plans, dateid, a90, far, mass, coverage).value, Matching(plans, dateid);
      && (v.tag == Error && SubmittedOf(m) == [] ==> PassesGates(a90, far, mass))
      && (v.tag == Error && SubmittedOf(m) != [] ==>
            v.reason == BadTrigger && v.figures.Some? && !IntendedBy(a90, far, mass, v.figures.value))
  {
  }

  /**
   * A triggered verdict for an untriggered event is the serendipitous case
   * of the current version: the event met the criteria and the survey
   * covered more than 90% of the plan's probability anyway.
   */
  lemma SerendipitousTriggered(version: Version, plans: seq<PlanRequest>, dateid: string, a90: real, far: real, mass: real,
                               coverage: (string, string) -> real)
    requires Determine(version, plans, dateid, a90, far, mass, coverage).Ok?
    requires Determine(version, plans, dateid, a90, far, mass, coverage).value.reason == Triggered
    requires SubmittedOf(Matching(plans, dateid)) == []
    ensures version == Current
    ensures PassesGates(a90, far, mass)
    ensures var v := Determine(version, plans, dateid, a90, far, mass, coverage).value;
      v.tag == Correct && v.figures.Some? && v.figures.value.totalTime == 0.0 && v.figures.value.start == dateid + ".000"
  {
    var matching := Matching(plans, dateid);
    assert matching != [] && !Predates(dateid).value;
    var candidates := Observing(matching).value;
    assert candidates != [];
    var chosen := Latest(candidates);
    var s := FirstStatistics(chosen).value;
    assert Intended(a90, far, mass, s.totalTime, s.probability);
    var observed := coverage(dateid, chosen.localizationName);
    assert version == Current && observed > 0.9 * s.probability;
  }

  /**
   * The two versions agree except that the FlareBot one reports a missed
   * trigger where the current one finds serendipitous coverage.
   */
  lemma VersionsAgree(plans: seq<PlanRequest>, dateid: string, a90: real, far: real, mass: real,
                      coverage: (string, string) -> real)
    ensures var now, before := Determine(Current, plans, dateid, a90, far, mass, coverage), Determine(FlareBot, plans, dateid, a90, far, mass, coverage);
      now == before
      || (now.Ok? && now.value.tag == Correct && now.value.reason == Triggered && SubmittedOf(Matching(plans, dateid)) == []
          && before.Ok? && before.value.tag == Error && before.value.reason == MissedTrigger)
  {
  }

  /**
   * A verdict with figures for a triggered event rests on its submitted
   * request, and is correct exactly when that plan meets the criteria.
   */
  lemma CriteriaTriggered(version: Version, plans: seq<PlanRequest>, dateid: string, a90: real, far: real, mass: real,
                          coverage: (string, string) -> real)
    requires Determine(version, plans, dateid, a90, far, mass, coverage).Ok?
    requires Determine(version, plans, dateid, a90, far, mass, coverage).value.figures.Some?
    requires SubmittedOf(Matching(plans, dateid)) != []
    ensures var v := Determine(version, plans, dateid, a90, far, mass, coverage).value;
      exists p :: p in Matching(plans, dateid) && p.status == SubmittedStatus && FirstStatistics(p).Ok?
        && v.figures.value == Figures(FirstStatistics(p).value.totalTime, FirstStatistics(p).value.probability,
                                      FirstStatistics(p).value.start)
    ensures var v := Determine(version, plans, dateid, a90, far, mass, coverage).value;
      v.tag == Correct <==> IntendedBy(a90, far, mass, v.figures.value)
  {
    var m := Matching(plans, dateid);
    assert m != [] && !Predates(dateid).value;
    var chosen := Latest(SubmittedOf(m));
    assert chosen in m && chosen.status == SubmittedStatus;
    assert FirstStatistics(chosen).Ok?;
  }

  /**
   * A verdict with figures for an event not triggered, other than the
   * serendipitous one, rests on the most recently modified observing plan,
   * and is an error exactly when that plan meets the criteria.
   */
  lemma CriteriaUntriggered(version: Version, plans: seq<PlanRequest>, dateid: string, a90: real, far: real, mass: real,
                            coverage: (string, string) -> real)
    requires Determine(version, plans, dateid, a90, far, mass, coverage).Ok?
    requires Determine(version, plans, dateid, a90, far, mass, coverage).value.figures.Some?
    requires Determine(version, plans, dateid, a90, far, mass, coverage).value.reason != Triggered
    requires SubmittedOf(Matching(plans, dateid)) == []
    ensures Observing(Matching(plans, dateid)).Ok?
    ensures var v := Determine(version, plans, dateid, a90, far, mass, coverage).value;
      exists p :: p in Observing(Matching(plans, dateid)).value && FirstStatistics(p).Ok?
        && (forall q :: q in Observing(Matching(plans, dateid)).value ==> !StrLess(p.modified, q.modified))
        && v.figures.value == Figures(FirstStatistics(p).value.totalTime, FirstStatistics(p).value.probability,
                                      FirstStatistics(p).value.start)
    ensures var v := Determine(version, plans, dateid, a90, far, mass, coverage).value;
      v.tag == Error <==> IntendedBy(a90, far, mass, v.figures.value)
  {
    var m := Matching(plans, dateid);
    assert m != [] && !Predates(dateid).value;
    var candidates := Observing(m).value;
    assert candidates != [];
    var chosen := Latest(candidates);
    assert Observes(chosen);
    var st := FirstStatistics(chosen).value;
    assert Determine(version, plans, dateid, a90, far, mass, coverage).value.figures.value
        == Figures(st.totalTime, st.probability, st.start);
  }

  datatype EventParams = EventParams(dateid: string, a90: real, far: real, mass: real)

  /** The verdicts for the events, the first failure ending the list comprehension. */
  function Verdicts(version: Version, plans: seq<PlanRequest>, ids: seq<string>, params: seq<EventParams>,
                    coverage: (string, string) -> real): (r: Result<seq<Verdict>>)
    ensures r.Ok? ==> |r.value| == if |ids| <= |params| then |ids| else |params|
    ensures r.Ok? ==> forall k :: 0 <= k < |r.value| ==>
      Determine(version, plans, params[k].dateid, params[k].a90, params[k].far, params[k].mass, coverage) == Ok(r.value[k])
  {
    if ids == [] || params == [] then Ok([])
    else
      var p := params[0];
      match Determine(version, plans, p.dateid, p.a90, p.far, p.mass, coverage)
      case Err(e) => Err(e)
      case Ok(v) =>
        match Verdicts(version, plans, ids[1..], params[1..], coverage)
        case Err(e) => Err(e)
        case Ok(rest) => Ok([v] + rest)
  }

  /** The events whose audit verdict is set by hand, in the order they are applied. */
  const ManualIds: seq<string> := ["S240921cw", "S241125n", "S241130n"]

  function ManualVerdict(id: string): Verdict
  {
    if id == "S241125n" then Verdict(Correct, Triggered, Some(Figures(900.0, 0.5, "")))
    else Verdict(Correct, NotTriggered, Some(Figures(0.0, 0.0, "")))
  }

  /** `xs.index(x)` when `x in xs`. */
  function IndexOf(xs: seq<string>, x: string): (r: Option<nat>)
    ensures r.None? <==> x !in xs
    ensures r.Some? ==> r.value < |xs| && xs[r.value] == x && forall j :: 0 <= j < r.value ==> xs[j] != x
  {
    if xs == [] then None
    else if xs[0] == x then Some(0)
    else match IndexOf(xs[1..], x)
      case None => None
      case Some(i) => Some(i + 1)
  }

  /** The manual edits from the `k`-th on; IndexError when an id's first position has no verdict. */
  function EditFrom(vs: seq<Verdict>, ids: seq<string>, k: nat): (r: Result<seq<Verdict>>)
    requires k <= |ManualIds|
    ensures r.Ok? <==> forall m :: k <= m < |ManualIds| && IndexOf(ids, ManualIds[m]).Some? ==> IndexOf(ids, ManualIds[m]).value < |vs|
    ensures r.Err? ==> r.error == IndexError
    ensures r.Ok? ==> |r.value| == |vs|
    ensures r.Ok? ==> forall j :: 0 <= j < |vs| ==>
      r.value[j] == (if exists m :: k <= m < |ManualIds| && IndexOf(ids, ManualIds[m]) == Some(j) then ManualVerdict(ids[j]) else vs[j])
    decreases |ManualIds| - k
  {
    if k == |ManualIds| then Ok(vs)
    else
      var key := ManualIds[k];
      match IndexOf(ids, key)
      case None => EditFrom(vs, ids, k + 1)
      case Some(i) =>
        if i >= |vs| then Err(IndexError)
        else
          var rest := EditFrom(vs[i := ManualVerdict(key)], ids, k + 1);
          EditStep(vs, ids, k, i, rest);
          rest
  }

  /** One applied edit followed by the later ones gives what the edits from the `k`-th on promise. */
  lemma EditStep(vs: seq<Verdict>, ids: seq<string>, k: nat, i: nat, rest: Result<seq<Verdict>>)
    requires k < |ManualIds| && IndexOf(ids, ManualIds[k]) == Some(i) && i < |vs|
    requires rest.Ok? <==> forall m :: k + 1 <= m < |ManualIds| && IndexOf(ids, ManualIds[m]).Some? ==> IndexOf(ids, ManualIds[m]).value < |vs|
    requires rest.Ok? ==> |rest.value| == |vs|
    requires rest.Ok? ==> forall j :: 0 <= j < |vs| ==>
      rest.value[j] == (if exists m :: k + 1 <= m < |ManualIds| && IndexOf(ids, ManualIds[m]) == Some(j) then ManualVerdict(ids[j])
                        else vs[i := ManualVerdict(ManualIds[k])][j])
    ensures rest.Ok? <==> forall m :: k <= m < |ManualIds| && IndexOf(ids, ManualIds[m]).Some? ==> IndexOf(ids, ManualIds[m]).value < |vs|
    ensures rest.Ok? ==> forall j :: 0 <= j < |vs| ==>
      rest.value[j] == (if exists m :: k <= m < |ManualIds| && IndexOf(ids, ManualIds[m]) == Some(j) then ManualVerdict(ids[j]) else vs[j])
  {
    FitsFrom(vs, ids, k, i);
    if rest.Ok? {
      forall j | 0 <= j < |vs|
        ensures rest.value[j] == (if exists m :: k <= m < |ManualIds| && IndexOf(ids, ManualIds[m]) == Some(j) then ManualVerdict(ids[j]) else vs[j])
      {
        EditedAt(vs, ids, k, i, j, rest.value[j]);
      }
    }
  }

  lemma FitsFrom(vs: seq<Verdict>, ids: seq<string>, k: nat, i: nat)
    requires k < |ManualIds| && IndexOf(ids, ManualIds[k]) == Some(i) && i < |vs|
    ensures (forall m :: k <= m < |ManualIds| && IndexOf(ids, ManualIds[m]).Some? ==> IndexOf(ids, ManualIds[m]).value < |vs|)
      <==> (forall m :: k + 1 <= m < |ManualIds| && IndexOf(ids, ManualIds[m]).Some? ==> IndexOf(ids, ManualIds[m]).value < |vs|)
  {
  }

  lemma EditedAt(vs: seq<Verdict>, ids: seq<string>, k: nat, i: nat, j: nat, x: Verdict)
    requires k < |ManualIds| && IndexOf(ids, ManualIds[k]) == Some(i) && i < |vs| && j < |vs|
    requires x == (if exists m :: k + 1 <= m < |ManualIds| && IndexOf(ids, ManualIds[m]) == Some(j) then ManualVerdict(ids[j])
                   else vs[i := ManualVerdict(ManualIds[k])][j])
    ensures x == (if exists m :: k <= m < |ManualIds| && IndexOf(ids, ManualIds[m]) == Some(j) then ManualVerdict(ids[j]) else vs[j])
  {
    if j == i {
      assert ids[i] == ManualIds[k];
    } else {
      assert IndexOf(ids, ManualIds[k]) != Some(j);
    }
  }

  /**
   * `get_trigger_status`: no plans (a failed query) raise ValueError in the
   * current version, and TypeError in the FlareBot one, which subscripts
   * the missing answer.
   */
  function TriggerStatus(version: Version, plans: Option<seq<PlanRequest>>, ids: seq<string>, params: seq<EventParams>,
                         coverage: (string, string) -> real): (r: Result<seq<Verdict>>)
    ensures plans.None? ==> r == Err(if version == Current then ValueError else TypeError)
  {
    match plans
    case None => Err(if version == Current then ValueError else TypeError)
    case Some(ps) =>
      match Verdicts(version, ps, ids, params, coverage)
      case Err(e) => Err(e)
      case Ok(vs) => EditFrom(vs, ids, 0)
  }

  /**
   * Each hand-edited event gets its fixed verdict at its first position in
   * the id list, and every other position keeps the verdict of the audit.
   */
  lemma ManualEditsApplied(version: Version, ps: seq<PlanRequest>, ids: seq<string>, params: seq<EventParams>,
                           coverage: (string, string) -> real)
    requires TriggerStatus(version, Some(ps), ids, params, coverage).Ok?
    ensures var r, vs := TriggerStatus(version, Some(ps), ids, params, coverage).value, Verdicts(version, ps, ids, params, coverage).value;
      |r| == |vs|
      && (forall m :: 0 <= m < |ManualIds| && IndexOf(ids, ManualIds[m]).Some? ==>
            r[IndexOf(ids, ManualIds[m]).value] == ManualVerdict(ManualIds[m]))
      && (forall j :: 0 <= j < |r| && (forall m :: 0 <= m < |ManualIds| ==> IndexOf(ids, ManualIds[m]) != Some(j)) ==> r[j] == vs[j])
  {
    var vs := Verdicts(version, ps, ids, params, coverage).value;
    var r := EditFrom(vs, ids, 0).value;
    forall m | 0 <= m < |ManualIds| && IndexOf(ids, ManualIds[m]).Some?
      ensures r[IndexOf(ids, ManualIds[m]).value] == ManualVerdict(ManualIds[m])
    {
      var j := IndexOf(ids, ManualIds[m]).value;
      assert ids[j] == ManualIds[m];
    }
  }
}
