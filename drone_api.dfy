/** What `get_all_repos` and `get_builds_for_repo` (check_drone_builds.py:95-135) decide about
    an HTTP response. The request itself and the JSON decoding are inputs: a `Fetch` is either
    the response's status code with the decoded list (`None` when the body is not JSON or not
    a list), or the exception `requests.get` raised. */
module DroneApi {
  import opened Wrappers
  import opened Text
  import opened Nagios

  /** One element of a builds list: an object whose `status` and `finished` fields were read
      (`finished` is `None` when absent or not a number), or an element that is not an object,
      on which `build.get` raises. */
  datatype Build = Build(status: string, finished: Option<int>) | NotAnObject

  /** One element of the repository list: an object with its `namespace`, `name` and `slug`,
      or an element on which `repo.get` raises, with the exception's text. */
  datatype RepoEntry = Repo(namespace: string, name: string, slug: string) | MalformedRepo(reason: string)

  datatype Fetch<T> = Response(statusCode: int, body: Option<seq<T>>) | Raised(reason: string)

  /** How a Python call ends: it returns a value, it calls `nagios_exit` (a `SystemExit`, which
      `except Exception` does not catch, so the run ends with that report), or it raises an
      ordinary exception. */
  datatype Flow<T> = Return(value: T) | Exit(report: Report) | Raise(reason: string)

  /** `get_all_repos`: only a 200 response with a JSON list is returned; any other status code
      or body ends the run UNKNOWN, and a request that raised propagates the exception. */
  function GetAllRepos(f: Fetch<RepoEntry>): (r: Flow<seq<RepoEntry>>)
    ensures r.Return? <==> f.Response? && f.statusCode == 200 && f.body.Some?
    ensures r.Return? ==> r.value == f.body.value
    ensures r.Exit? <==> f.Response? && (f.statusCode != 200 || f.body.None?)
    ensures r.Exit? ==> r.report.status == Unknown
    ensures r.Raise? <==> f.Raised?
  {
    match f
    case Raised(reason) => Raise(reason)
    case Response(code, body) =>
      if code != 200 then
        Exit(Report(Unknown, "Drone API /api/user/repos HTTP status code is " + IntToString(code)))
      else if body.None? then
        Exit(Report(Unknown, "Drone API did not respond with valid JSON (Returned code HTTP " + IntToString(code) + ")"))
      else
        Return(body.value)
  }

  /** `get_builds_for_repo`: the same three outcomes for one repository's builds; the exit
      messages name the repository's path. */
  function GetBuildsForRepo(owner: string, repo: string, f: Fetch<Build>): (r: Flow<seq<Build>>)
    ensures r.Return? <==> f.Response? && f.statusCode == 200 && f.body.Some?
    ensures r.Return? ==> r.value == f.body.value
    ensures r.Exit? <==> f.Response? && (f.statusCode != 200 || f.body.None?)
    ensures r.Exit? ==> r.report.status == Unknown
    ensures r.Raise? <==> f.Raised?
  {
    match f
    case Raised(reason) => Raise(reason)
    case Response(code, body) =>
      if code != 200 then
        Exit(Report(Unknown, "Drone API /api/repos/" + owner + "/" + repo + "/builds HTTP status code is " + IntToString(code)))
      else if body.None? then
        Exit(Report(Unknown, "Drone API did not respond with valid JSON for /api/repos/" + owner + "/" + repo
                             + "/builds (Returned code HTTP " + IntToString(code) + ")"))
      else
        Return(body.value)
  }

  /** A repository listing refused with HTTP 401 ends the run UNKNOWN (exit code 3) with the
      code in the message. */
  lemma Unauthorised()
    ensures GetAllRepos(Response(401, None)) == Exit(Report(Unknown, "Drone API /api/user/repos HTTP status code is 401"))
    ensures ExitCode(Unknown) == 3
  {
    assert 401 / 10 == 40 && 401 % 10 == 1 && 40 / 10 == 4 && 40 % 10 == 0;
    assert NatToString(4) == "4" && DigitChar(0) == '0' && DigitChar(1) == '1';
    assert NatToString(40) == "40";
    assert NatToString(401) == "401";
  }

}
