/** The freshness policy of `check_builds` (check_drone_builds.py:74-82): how one repository's
    last successful build time is sorted into the ok, warning or critical bucket. */
module Policy {
  import opened Wrappers
  import opened Nagios

  /** The threshold default of the command line (check_drone_builds.py:197, 200). */
  const DefaultThreshold: int := 9999999999

  /** The freshness policy stated on ages, most severe rule first: a repository that never
      succeeded is critical; an age above the critical threshold is critical; an age above the
      warning threshold is a warning; anything else is ok. An age equal to a threshold has not
      breached it. */
  function PolicyTier(age: int, neverSucceeded: bool, warning: int, critical: int): Status
  {
    if neverSucceeded then Critical
    else if age > critical then Critical
    else if age > warning then Warning
    else Ok
  }

  /** Lines 74-82 as written: both thresholds become timestamps (`now - warning`,
      `now - critical`) and are compared with the last success `last`, through the chained
      comparison `warning_threshold <= last != 0`. The `if`/`elif`/`elif` has no `else`;
      `None` stands for "appended to no bucket", which never happens: the three branches
      are exhaustive and agree with the policy on ages. */
  function Classify(now: int, last: int, warning: int, critical: int): (r: Option<Status>)
    ensures r == Some(PolicyTier(now - last, last == 0, warning, critical))
  {
    var warningThreshold := now - warning;
    var criticalThreshold := now - critical;
    if warningThreshold <= last && last != 0 && criticalThreshold <= last then Some(Ok)
    else if criticalThreshold > last || last == 0 then Some(Critical)
    else if warningThreshold > last then Some(Warning)
    else None
  }

  /** With the thresholds in their intended order (warning <= critical), each tier is exactly
      an age band: critical when there was no success or the age exceeds the critical
      threshold, warning when it lies in (warning, critical], ok when it is at most warning. */
  lemma ClassifyBands(now: int, last: int, warning: int, critical: int)
    requires warning <= critical
    ensures var age := now - last;
      && (Classify(now, last, warning, critical) == Some(Critical) <==> last == 0 || age > critical)
      && (Classify(now, last, warning, critical) == Some(Warning) <==> last != 0 && warning < age <= critical)
      && (Classify(now, last, warning, critical) == Some(Ok) <==> last != 0 && age <= warning)
  {
  }

  /** When the warning threshold is not below the critical one (as with both left at the
      default), no repository is ever classified as a warning. */
  lemma WarningUnreachable(now: int, last: int, warning: int, critical: int)
    requires warning >= critical
    ensures Classify(now, last, warning, critical) != Some(Warning)
  {
  }

  /** Boundaries: an age equal to the warning threshold is still ok, one second more is a
      warning, and one second past the critical threshold is critical. */
  lemma ThresholdBoundaries(now: int, warning: int, critical: int)
    requires 0 <= warning < critical < now - 1
    ensures Classify(now, now - warning, warning, critical) == Some(Ok)
    ensures Classify(now, now - warning - 1, warning, critical) == Some(Warning)
    ensures Classify(now, now - critical, warning, critical) == Some(Warning)
    ensures Classify(now, now - critical - 1, warning, critical) == Some(Critical)
  {
  }

  /** A repository whose last success lies in the future (clock skew) is ok, whatever the
      thresholds, as long as neither is negative. */
  lemma FutureSuccessIsOk(now: int, last: int, warning: int, critical: int)
    requires last > now && last != 0 && warning >= 0 && critical >= 0
    ensures Classify(now, last, warning, critical) == Some(Ok)
  {
  }

}
