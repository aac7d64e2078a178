/**
 * The alert parameters `get_params` extracts from a GCN VOEvent, with their
 * defaults and the exceptions the extraction raises, and the first gate of
 * the trigger bots.
 */
module GcnParams {
  import opened Wrappers
  import opened PyText

  /** `skymap.meta["DISTMEAN"]`, or the text "error" when the header lacks it. */
  datatype DistMean = DistError | Distance(mpc: real)

  /**
   * What `get_params` reads before its defaults and conversions: the Param
   * lookups (None when no Param carries the name), the classification
   * probabilities (None when absent or not a float), the FAR in Hz, the
   * skymap's mean distance and 90% area, and the skymap URL.
   */
  datatype RawAlert = RawAlert(
    graceId: Option<string>,
    dateobs: string,
    mjd: int,
    significant: Option<string>,
    alertType: Option<string>,
    group: Option<string>,
    bbh: Option<real>,
    terrestrial: Option<real>,
    farHz: real,
    distmean: Option<real>,
    a90: int,
    skymapUrl: string)

  /** The twelve-field tuple `get_params` returns. */
  datatype Alert = Alert(
    dateobs: string,
    mjd: int,
    supereventId: string,
    significant: string,
    alertType: string,
    group: string,
    probBbh: real,
    probTer: real,
    far: real,
    distmean: DistMean,
    a90: int,
    skymapName: string)

  /** Seconds in a Julian year: `far_format = 1 / (far * 3.15576e7)` is a rate per year inverted. */
  const SecondsPerYear: real := 31557600.0

  /** `skymap_url.split("files/")[1]`. */
  function SkymapName(url: string): (r: Result<string>)
    ensures r.Err? <==> !Contains(url, "files/")
    ensures r.Err? ==> r.error == IndexError
    ensures r.Ok? ==> r.value == Split(url, "files/")[1]
  {
    var parts := Split(url, "files/");
    if |parts| < 2 then Err(IndexError) else Ok(parts[1])
  }

  /** The alert built from raw values once every lookup has succeeded. */
  function Assemble(raw: RawAlert, id: string, significant: string, alertType: string, group: string,
                    skymapName: string): Alert
    requires raw.farHz != 0.0
  {
    Alert(raw.dateobs, raw.mjd, id, significant, alertType, group,
      raw.bbh.GetOr(0.0), raw.terrestrial.GetOr(1.0), 1.0 / (raw.farHz * SecondsPerYear),
      if raw.distmean.None? then DistError else Distance(raw.distmean.value), raw.a90, skymapName)
  }

  /**
   * `get_params` of trigger_utils. Only `MyException` is caught and re-raised,
   * so a missing GraceID or Param, an empty id, a FAR of zero or a skymap URL
   * without "files/" escapes as the Python error itself.
   */
  function GetParams(raw: RawAlert): (r: Result<Alert>)
    ensures r.Err? ==> r.error in {IndexError, MyException, ZeroDivisionError}
    ensures r == Err(MyException) <==> raw.graceId.Some? && |raw.graceId.value| > 0 && raw.graceId.value[0] != 'S'
    ensures r.Ok? ==> raw.graceId == Some(r.value.supereventId) && |r.value.supereventId| > 0 && r.value.supereventId[0] == 'S'
    ensures r.Ok? ==> r.value.probBbh == (if raw.bbh.None? then 0.0 else raw.bbh.value)
    ensures r.Ok? ==> r.value.probTer == (if raw.terrestrial.None? then 1.0 else raw.terrestrial.value)
    ensures r.Ok? ==> (r.value.distmean == DistError <==> raw.distmean.None?)
    ensures r.Ok? ==> raw.farHz != 0.0 && r.value.far * raw.farHz * SecondsPerYear == 1.0
    ensures (raw.graceId.Some? && |raw.graceId.value| > 0 && raw.graceId.value[0] == 'S' && raw.farHz == 0.0
             && raw.significant.Some? && raw.alertType.Some? && raw.group.Some?) ==> r == Err(ZeroDivisionError)
  {
    match raw.graceId
    case None => Err(IndexError)
    case Some(id) =>
      if |id| == 0 then Err(IndexError)
      else if id[0] != 'S' then Err(MyException)
      else if raw.alertType.None? || raw.group.None? || raw.significant.None? then Err(IndexError)
      else if raw.farHz == 0.0 then Err(ZeroDivisionError)
      else match SkymapName(raw.skymapUrl)
        case Err(e) => Err(e)
        case Ok(name) => Ok(Assemble(raw, id, raw.significant.value, raw.alertType.value, raw.group.value, name))
  }

  /**
   * `get_params` of the TriggerBot variant: every failure, a missing
   * GraceID included, becomes `MyException`, and the id is not checked.
   */
  function GetParamsTriggerBot(raw: RawAlert): (r: Result<Alert>)
    ensures r.Err? ==> r.error == MyException
    ensures r.Ok? ==> raw.graceId == Some(r.value.supereventId)
    ensures GetParams(raw).Ok? ==> r == GetParams(raw)
    ensures r.Ok? && |r.value.supereventId| > 0 && r.value.supereventId[0] == 'S' ==> GetParams(raw) == r
  {
    match raw.graceId
    case None => Err(MyException)
    case Some(id) =>
      if raw.alertType.None? || raw.group.None? || raw.significant.None? || raw.farHz == 0.0 then Err(MyException)
      else match SkymapName(raw.skymapUrl)
        case Err(_) => Err(MyException)
        case Ok(name) => Ok(Assemble(raw, id, raw.significant.value, raw.alertType.value, raw.group.value, name))
  }

  /** Python's `==` between a one-character str and an int: never equal. */
  predicate StrEqualsInt(s: string, i: int)
  {
    false
  }

  /** The gate's thresholds, apart from the Preliminary clause. */
  predicate FailsThresholds(a: Alert)
    requires |a.supereventId| > 0
  {
    a.supereventId[0] != 'S'
    || a.alertType == "RETRACTION"
    || a.significant != "1"
    || a.group != "CBC"
    || a.probBbh < 0.5
    || a.probTer > 0.4
    || a.distmean == DistError
    || a.far < 10.0
    || a.a90 > 1000
  }

  /**
   * The first gate of trigger.py and both historical bots: Ok(true) when the
   * alert is rejected. `superevent_id[0]` and `skymap_name[-1]` raise
   * `IndexError` on empty texts, the second only when it is evaluated.
   */
  function FirstGate(a: Alert): (r: Result<bool>)
    ensures r == Ok(true) <==> |a.supereventId| > 0 && FailsThresholds(a)
    ensures r.Err? ==> r.error == IndexError
    ensures r.Err? <==> (|a.supereventId| == 0
                         || (!FailsThresholds(a) && a.alertType == "Preliminary" && |a.skymapName| == 0))
  {
    if |a.supereventId| == 0 then Err(IndexError)
    else if FailsThresholds(a) then Ok(true)
    else if a.alertType == "Preliminary" then
      if |a.skymapName| == 0 then Err(IndexError)
      else Ok(StrEqualsInt([a.skymapName[|a.skymapName| - 1]], 0))
    else Ok(false)
  }
}
