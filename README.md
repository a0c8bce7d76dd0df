# check_drone_builds in Dafny

A model of the Nagios plugin `check_drone_builds.py`. The plugin asks a Drone CI server for
every repository the token can see. It keeps those of an optional namespace and reads each
one's build list. It finds each repository's last successful build and sorts the repository
into an ok, warning, critical or unknown bucket by the age of that build. Finally it prints
one Nagios status line and exits with the matching plugin return code (OK 0, WARNING 1,
CRITICAL 2, UNKNOWN 3).

Modules, one per file:

- `Wrappers`: `Option`.
- `Text`: decimal rendering of integers (Python's f-string `{n}`) and `", ".join`.
- `Nagios`: the four statuses, the return-code table, the output line
  `STATUS - message`, a parser for it, and `nagios_exit` as a value.
- `RelativeTime`: `time_ago`.
- `Policy`: the threshold comparison of lines 74-82, proved equal to a policy stated on
  ages.
- `Aggregation`: the bucket precedence of lines 84-93, proved equal to "the most severe tier
  met, with all of its descriptors in encounter order".
- `DroneApi`: the decisions `get_all_repos` and `get_builds_for_repo` take on an HTTP result.
  The request and the JSON decoding are inputs.
- `Checker`: `check_builds` itself.
  - `Run` is a functional specification.
  - `CheckBuilds` is the imperative loop that fills four `seq` buckets and is proved equal
    to `Run`.
  - `ScanBuilds` is the inner loop over builds that keeps the running maximum.

Python's control flow is kept explicit. `nagios_exit` raises `SystemExit`, which the
`except Exception` handlers do not catch, so every call to it ends the run; the model
returns such a report as `Exit`/`Halted`/`Ended`. An ordinary exception is `Raise`.

Three behaviours of the code that the model keeps:

- An OK report's message is the joined descriptors with no prefix
  (check_drone_builds.py:91).
- A builds request that answers with a status other than 200, or with a body that is not a
  JSON list, ends the whole run as UNKNOWN (lines 124-125, 131-133). It does not only mark
  that repository unknown, because `nagios_exit` raises `SystemExit`, which the handler at
  line 68 does not catch. Only a builds request that raises an ordinary exception sends just
  that repository to the unknown bucket.
- A successful build whose `finished` is missing or null makes the comparison at line 65
  raise, which sends the repository to the unknown bucket (lines 68-71).

## Model

| member | source | states |
|---|---|---|
| Checker.CheckBuilds | check_drone_builds.py:31-93 | The repository loop with its four buckets gives exactly the report of `Run`: a listing that raised is CRITICAL "Error retrieving repos: …", the first repository whose evaluation ends the run decides the report, and otherwise the buckets are aggregated |
| Checker.CheckRepo | check_drone_builds.py:44-82 | One loop iteration gives exactly `EvaluateRepo`: an unreadable entry ends the run CRITICAL, a foreign namespace is skipped, an empty, raising or unscannable build list is unknown, and the rest are classified |
| Checker.ScanBuilds | check_drone_builds.py:55-66 | The inner loop raises exactly when `LastSuccess` is undefined, and otherwise ends with `last_successful_build` equal to it |
| Checker.ScanFromIsMaximum | check_drone_builds.py:63-66 | From a running value `last`, the scan finishes exactly when every build is readable, and then gives the maximum of `last` and every successful build's `finished` time |
| Checker.LastSuccessIsMaximum | check_drone_builds.py:55-66 | The last success is defined exactly when no build raises. It is at least 0 and at least every successful build's `finished`, and it is either 0 or one of those times |
| Checker.LastSuccessIgnoresOrder | check_drone_builds.py:63-66 | Two build lists with the same elements give the same last success, whatever their order |
| Checker.NoSuccessGivesZero | check_drone_builds.py:55-64 | Builds none of which succeeded leave the last success at 0 |
| Checker.SingleSuccess | check_drone_builds.py:63-66 | One successful build finished at t > 0 gives last success t |
| Checker.SkippedExactlyByNamespace | check_drone_builds.py:48-49 | A repository is skipped if and only if a namespace is configured and the repository's namespace differs. An empty namespace filters nothing |
| Checker.UnknownExactlyWhenNoData | check_drone_builds.py:57-73 | An evaluated repository is always placed in a bucket. It goes to unknown, under its bare slug, if and only if the builds request raised, the list is empty, or the scan raised. Otherwise its descriptor is "slug - last succeeded: time_ago(last)" |
| Checker.NeverSucceededScenario | check_drone_builds.py:59-80 | A repository whose builds all failed is critical with the descriptor "slug - last succeeded: Unknown" |
| Checker.OneDayOldRepo | check_drone_builds.py:57-82 | A success 86401 s old, with thresholds of one and two days, places the repository in warning as "docker/test-1 - last succeeded: 1 day ago" |
| Checker.EvaluateConcat | check_drone_builds.py:43-82 | Evaluating a + b is the placements of a followed by those of b, unless a already ended the run. Encounter order is preserved |
| Checker.EvaluateStep | check_drone_builds.py:43-82 | One loop iteration extends the placements made so far by that repository's outcome |
| Checker.ForeignRepoIgnored | check_drone_builds.py:48-49 | With a namespace configured, inserting a repository of another namespace anywhere in the listing leaves the report unchanged |
| Checker.NothingPlaced | check_drone_builds.py:48-49 | An empty listing, or one whose repositories all belong to other namespaces, places nothing |
| Checker.NothingToCheck | check_drone_builds.py:92-93 | An empty listing (under any configuration) or one whose repositories all belong to other namespaces gives UNKNOWN "No repos/builds found" |
| Checker.SingleRepoRun | check_drone_builds.py:84-91 | A listing of one repository that lands in a bucket reports that bucket's tier, prefix and descriptor |
| Checker.OneDayOldScenario | check_drone_builds.py:31-93 | The whole run for that single day-old repository is WARNING "Failing build(s): docker/test-1 - last succeeded: 1 day ago" |
| Checker.SummariseSingle | check_drone_builds.py:84-91 | One placement alone gives its tier with its prefix and descriptor |
| Checker.BuildsHttpErrorEndsRun | check_drone_builds.py:124-125 | A builds request answering 500 for the second repository ends the run UNKNOWN, even though the first repository was critical |
| Checker.MalformedEntryEndsRun | check_drone_builds.py:50-53 | An unreadable repository entry ends the run CRITICAL "Repo API response missing expected data: reason", wherever it appears after a stretch that did not end the run, whatever was placed before it and whatever follows |
| Checker.BuildsHttpErrorAnywhereEndsRun | check_drone_builds.py:124-125 | A checked repository whose builds request answers with a status other than 200 ends the run UNKNOWN "Drone API /api/repos/owner/name/builds HTTP status code is code", whatever was placed before it and whatever follows |
| Checker.BuildsExitEndsRun | check_drone_builds.py:117-135 | Any builds request that ends in `nagios_exit` (an HTTP error or an invalid body) makes the run exactly that UNKNOWN report, whatever was placed before it |
| Policy.Classify | check_drone_builds.py:74-82 | The comparisons against the timestamp thresholds, including the chained `warning_threshold <= last != 0`, always pick a bucket, and the bucket equals the age policy `PolicyTier(now - last, last == 0, warning, critical)` |
| Policy.ClassifyBands | check_drone_builds.py:77-82 | With warning ≤ critical: critical if and only if there was no success or the age exceeds critical; warning if and only if warning < age ≤ critical; ok if and only if age ≤ warning |
| Policy.WarningUnreachable | check_drone_builds.py:77-82 | With warning ≥ critical (both defaults are 9999999999), no repository is ever a warning |
| Policy.ThresholdBoundaries | check_drone_builds.py:77-82 | An age equal to a threshold has not breached it; one second more has |
| Policy.FutureSuccessIsOk | check_drone_builds.py:77-78 | A last success later than now is ok for any non-negative thresholds |
| Aggregation.Aggregate | check_drone_builds.py:84-93 | CRITICAL if and only if the critical bucket is non-empty; WARNING if and only if there is no critical entry and some warning entry; OK if and only if there are ok entries and no others; UNKNOWN otherwise, including when everything is empty |
| Aggregation.SummaryIsWorstTier | check_drone_builds.py:84-93 | The report's status is the most severe tier placed. Its message is that tier's prefix followed by exactly that tier's descriptors, joined with ", " in encounter order. No placements give "No repos/builds found" |
| Aggregation.WorstIsMaximum | check_drone_builds.py:84-90 | The chosen tier occurs among the placements and no placement is more severe (critical > warning > unknown > ok) |
| Aggregation.DescriptorsNonEmpty | check_drone_builds.py:84-90 | A bucket is non-empty if and only if some repository was placed in that tier |
| Aggregation.DescriptorsConcat | check_drone_builds.py:78-82 | A bucket filled over two stretches of repositories is the concatenation of the two, in order |
| Aggregation.DescriptorsSnoc | check_drone_builds.py:78-82 | Appending one placement extends exactly its own tier's bucket by its descriptor and leaves the other three unchanged |
| Aggregation.MixedTiersExample | check_drone_builds.py:84-85 | Ok, critical, warning and unknown repositories together give CRITICAL "Failing build(s): " with the critical one only |
| RelativeTime.TimeAgo | check_drone_builds.py:150-152 | The result is "Unknown" if and only if the timestamp is 0 |
| RelativeTime.Phrase | check_drone_builds.py:161-170 | Every rendered phrase ends in " ago" |
| RelativeTime.UnitIsLargestFitting | check_drone_builds.py:160-170 | Seconds are chosen if and only if the difference is below 60. For a positive difference the chosen unit fits in it, and no larger unit does |
| RelativeTime.CountIsWholeUnits | check_drone_builds.py:160-170 | The count is the difference floor-divided by the unit: seconds as is, 1-59 minutes, 1-23 hours, at least 1 day |
| RelativeTime.PluralUnlessOne | check_drone_builds.py:161-170 | The phrase ends in "s ago" if and only if the count is not 1 |
| RelativeTime.TimeAgoOneSecondExample | check_drone_builds.py:160-161 | A difference of 1 gives "1 second ago" |
| RelativeTime.TimeAgoSecondsExample | check_drone_builds.py:160-161 | A difference of 59 gives "59 seconds ago" |
| RelativeTime.TimeAgoFutureExample | check_drone_builds.py:160-161 | A difference of -5 falls into the seconds branch: "-5 seconds ago" |
| RelativeTime.TimeAgoMinuteExamples | check_drone_builds.py:162-164 | Differences of 60 and 61 give "1 minute ago" |
| RelativeTime.TimeAgoHourExample | check_drone_builds.py:165-167 | A difference of 3600 gives "1 hour ago" |
| RelativeTime.TimeAgoDayExamples | check_drone_builds.py:168-170 | Differences of 86400, 86401 and 172799 give "1 day ago" |
| Nagios.StatusForCode | check_drone_builds.py:138-143 | Exactly the codes 0-3 belong to a status, and each maps back to its code |
| Nagios.ExitCodeBijective | check_drone_builds.py:138-143 | The `codes` table `ExitCode` gives distinct statuses distinct codes, and reading a status's code back through `StatusForCode` (0 OK, 1 WARNING, 2 CRITICAL, 3 UNKNOWN) gives that status |
| Nagios.ParseLine | check_drone_builds.py:144 | Whatever report the parser reads from a line, rendering it gives that line again |
| Nagios.LineRoundTrip | check_drone_builds.py:144 | Parsing the rendered line `STATUS - message` gives back the report |
| Nagios.NagiosExit | check_drone_builds.py:137-145 | The printed line parses back to the report, and the exit code maps back to its status |
| DroneApi.GetAllRepos | check_drone_builds.py:95-115 | The listing is returned if and only if the answer is 200 with a JSON list. Any other code or body ends the run UNKNOWN, and a request that raised propagates |
| DroneApi.GetBuildsForRepo | check_drone_builds.py:117-135 | The same three outcomes for one repository's builds. The exit messages name `/api/repos/owner/repo/builds` |
| DroneApi.Unauthorised | check_drone_builds.py:102-104 | A 401 answer to the listing ends the run UNKNOWN (code 3) with "… HTTP status code is 401" |
| Text.NatToStringRoundTrip | check_drone_builds.py:161 | The decimal rendering of a count reads back as the same number |
| Text.NatToStringDigits | check_drone_builds.py:161 | The decimal rendering is a non-empty string of digits |
| Text.JoinConcat | check_drone_builds.py:85 | Joining two non-empty lists with ", " is the two joins around one separator |

## Left out

- The HTTP requests and `response.json()` (check_drone_builds.py:99, 107, 121, 128) are
  inputs. A response is a status code and either a decoded list or no list. A request that
  raises is a reason string. The builds request is a function of owner and repository name.
- The server address, token and `Authorization` header only reach those requests.
- Logging (lines 22-29 and every `self.log` call) is not modelled, because it has no effect
  on the result.
- `print` and `sys.exit` (lines 144-145) are represented by an `ExitSignal` value that holds
  the line and the code.
- `get_current_time` (lines 147-148) is a single `now` parameter, although lines 74-75 and
  `time_ago` read the clock separately.
- `time_ago` subtracts naive local `datetime` values and uses the float `total_seconds()`
  (lines 154-158). The model uses the integer `now - timestamp`, so it does not capture
  daylight-saving shifts or fractional seconds.
- `main` and the argument parser (lines 172-206) are not modelled. Only the default
  threshold 9999999999 is kept, as `Policy.DefaultThreshold`.
- A repository entry that is a dictionary with missing keys is not modelled. `repo.get`
  returns `None`, and the plugin then goes on with `None` as owner, name or slug. A readable
  entry here always has three strings, and an entry on which `.get` raises is
  `MalformedRepo`.
- A build's `status` is compared with `"success"` as a string; other JSON types of `status`
  are not modelled. A build's `finished` is an integer or missing/null (`None`). A float or
  boolean `finished`, which Python compares with an integer without raising, is not
  modelled, nor is a string, which raises at line 65 like `None`.
- The descriptor at line 73 lies outside the `try` of lines 57-71. `time_ago` calls
  `datetime.fromtimestamp` (line 155), which raises for a timestamp outside the platform's
  range. The run would then end with a traceback and exit status 1, and print no Nagios line.
  The model always renders the descriptor and does not capture this exit.
- tests/test_check_drone_builds.py is not part of this model. It exercises a different
  class and constructor.
