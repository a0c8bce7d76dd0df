/** `CheckDroneBuilds.check_builds` (check_drone_builds.py:31-93): list the repositories, keep
    those of the configured namespace, fetch each one's builds, find its last successful build,
    sort it into a bucket, and turn the buckets into one report. */
module Checker {
  import opened Wrappers
  import opened Nagios
  import opened RelativeTime
  import opened Policy
  import opened Aggregation
  import opened DroneApi
  import opened Text

  /** The settings `__init__` stores and `check_builds` reads (check_drone_builds.py:15-20);
      the server address and token only reach the HTTP requests, which are inputs here. */
  datatype Config = Config(namespace: string, warning: int, critical: int)

  // ---------------------------------------------------------------------------------------
  // The last successful build (lines 55, 63-66)

  /** One iteration of the builds loop with `last` the running value: `None` when it raises
      (an element that is not an object, or a success whose `finished` cannot be compared). */
  function StepBuild(last: int, b: Build): Option<int>
  {
    match b
    case NotAnObject => None
    case Build(status, finished) =>
      if status != "success" then Some(last)
      else if finished.None? then None
      else if finished.value > last then Some(finished.value)
      else Some(last)
  }

  /** The rest of the builds loop from the running value `last`. */
  function ScanFrom(builds: seq<Build>, last: int): Option<int>
  {
    if builds == [] then Some(last)
    else match StepBuild(last, builds[0])
      case None => None
      case Some(next) => ScanFrom(builds[1..], next)
  }

  /** `last_successful_build` after the loop, starting from 0; `None` when the loop raised. */
  function LastSuccess(builds: seq<Build>): Option<int>
  {
    ScanFrom(builds, 0)
  }

  /** An element the loop reads without raising. */
  predicate Readable(b: Build)
  {
    b.Build? && (b.status == "success" ==> b.finished.Some?)
  }

  /** A successful build with a usable `finished` time. */
  predicate Succeeded(b: Build)
  {
    b.Build? && b.status == "success" && b.finished.Some?
  }

  /** The scan from `last` finishes exactly when every element is readable, and then gives the
      maximum of `last` and the `finished` times of the successful builds. */
  lemma {:induction false} ScanFromIsMaximum(builds: seq<Build>, last: int)
    ensures ScanFrom(builds, last).Some? <==> forall b :: b in builds ==> Readable(b)
    ensures ScanFrom(builds, last).Some? ==>
      var m := ScanFrom(builds, last).value;
      && m >= last
      && (forall b :: b in builds && Succeeded(b) ==> b.finished.value <= m)
      && (m == last || exists b :: b in builds && Succeeded(b) && b.finished.value == m)
  {
    if builds != [] {
      var b := builds[0];
      assert forall x :: x in builds <==> x == b || x in builds[1..];
      match StepBuild(last, b)
      case None =>
        assert !Readable(b);
      case Some(next) =>
        ScanFromIsMaximum(builds[1..], next);
    }
  }

  /** The last success: the latest `finished` time of a successful build, or 0 when there is
      none (or when every such time is not after 0); `None` when the scan raises. */
  lemma LastSuccessIsMaximum(builds: seq<Build>)
    ensures LastSuccess(builds).Some? <==> forall b :: b in builds ==> Readable(b)
    ensures LastSuccess(builds).Some? ==>
      var m := LastSuccess(builds).value;
      && m >= 0
      && (forall b :: b in builds && Succeeded(b) ==> b.finished.value <= m)
      && (m == 0 || exists b :: b in builds && Succeeded(b) && b.finished.value == m)
  {
    ScanFromIsMaximum(builds, 0);
  }

  /** The order in which the API lists the builds does not matter. */
  lemma LastSuccessIgnoresOrder(a: seq<Build>, b: seq<Build>)
    requires multiset(a) == multiset(b)
    ensures LastSuccess(a) == LastSuccess(b)
  {
    assert forall x :: x in a <==> x in b by {
      forall x ensures x in a <==> x in b {
        assert x in a <==> x in multiset(a);
        assert x in b <==> x in multiset(b);
      }
    }
    LastSuccessIsMaximum(a);
    LastSuccessIsMaximum(b);
  }

  /** Builds that all failed give 0, which the report shows as "Unknown". */
  lemma NoSuccessGivesZero(builds: seq<Build>)
    requires forall b :: b in builds ==> b.Build? && b.status != "success"
    ensures LastSuccess(builds) == Some(0)
  {
    LastSuccessIsMaximum(builds);
  }

  // ---------------------------------------------------------------------------------------
  // One repository (lines 43-82)

  /** What the bucket receives for an evaluated repository (line 73). */
  function Descriptor(slug: string, now: int, last: int): string
  {
    slug + " - last succeeded: " + TimeAgo(now, last)
  }

  /** What one iteration of the repository loop does: nothing (filtered out), place one
      descriptor in one bucket, or end the run with a report. */
  datatype Outcome = Skipped | Placed(placement: Placement) | Halted(report: Report)

  /** One iteration of the repository loop: an unreadable entry ends the run (line 53), a
      repository of another namespace is skipped (line 49), the others are evaluated. */
  function EvaluateRepo(cfg: Config, now: int, entry: RepoEntry, fetch: (string, string) -> Fetch<Build>): Outcome
  {
    match entry
    case MalformedRepo(reason) =>
      Halted(Report(Critical, "Repo API response missing expected data: " + reason))
    case Repo(owner, name, slug) =>
      if cfg.namespace != "" && owner != cfg.namespace then Skipped
      else EvaluateBuilds(cfg, now, slug, GetBuildsForRepo(owner, name, fetch(owner, name)))
  }

  /** Lines 57-71: what the builds request gave decides between ending the run, the unknown
      bucket, and classifying the last success. */
  function EvaluateBuilds(cfg: Config, now: int, slug: string, flow: Flow<seq<Build>>): Outcome
  {
    match flow
    case Exit(report) => Halted(report)
    case Raise(_) => Placed(Placement(Unknown, slug))
    case Return(builds) =>
      if builds == [] then Placed(Placement(Unknown, slug))
      else match LastSuccess(builds)
        case None => Placed(Placement(Unknown, slug))
        case Some(last) => EvaluateLast(cfg, now, slug, last)
  }

  /** Lines 73-82: the bucket for a repository whose last success is `last`. */
  function EvaluateLast(cfg: Config, now: int, slug: string, last: int): Outcome
  {
    match Classify(now, last, cfg.warning, cfg.critical)
    case None => Skipped
    case Some(tier) => Placed(Placement(tier, Descriptor(slug, now, last)))
  }

  /** A repository is skipped exactly when a namespace is configured and it is another one's;
      with an empty namespace nothing is filtered. */
  lemma SkippedExactlyByNamespace(cfg: Config, now: int, entry: RepoEntry, fetch: (string, string) -> Fetch<Build>)
    ensures EvaluateRepo(cfg, now, entry, fetch) == Skipped <==>
      entry.Repo? && cfg.namespace != "" && entry.namespace != cfg.namespace
  {
  }

  /** A repository goes to the unknown bucket, under its bare slug, exactly when fetching its
      builds raised, gave an empty list, or the scan raised; otherwise its descriptor carries
      the relative time of its last success. */
  lemma UnknownExactlyWhenNoData(cfg: Config, now: int, owner: string, name: string, slug: string,
                                 fetch: (string, string) -> Fetch<Build>)
    requires cfg.namespace == "" || owner == cfg.namespace
    requires !GetBuildsForRepo(owner, name, fetch(owner, name)).Exit?
    ensures var o := EvaluateRepo(cfg, now, Repo(owner, name, slug), fetch);
      var flow := GetBuildsForRepo(owner, name, fetch(owner, name));
      && o.Placed?
      && (o.placement.tier == Unknown <==> flow.Raise? || flow.value == [] || LastSuccess(flow.value).None?)
      && (o.placement.tier == Unknown ==> o.placement.descriptor == slug)
      && (o.placement.tier != Unknown ==>
            o.placement.descriptor == Descriptor(slug, now, LastSuccess(flow.value).value))
  {
  }

  // ---------------------------------------------------------------------------------------
  // The whole run (lines 31-93)

  /** The repository loop: the placements in the order they were made, or the report of the
      first iteration that ended the run. */
  datatype Evaluation = Completed(placements: seq<Placement>) | Ended(report: Report)

  /** `ps` placed before an evaluation that went on as `e`. */
  function After(ps: seq<Placement>, e: Evaluation): Evaluation
  {
    match e
    case Ended(r) => Ended(r)
    case Completed(qs) => Completed(ps + qs)
  }

  /** The repository loop over `entries`, first to last. */
  function Evaluate(cfg: Config, now: int, entries: seq<RepoEntry>, fetch: (string, string) -> Fetch<Build>): Evaluation
  {
    if entries == [] then Completed([])
    else match EvaluateRepo(cfg, now, entries[0], fetch)
      case Halted(r) => Ended(r)
      case Skipped => Evaluate(cfg, now, entries[1..], fetch)
      case Placed(p) => After([p], Evaluate(cfg, now, entries[1..], fetch))
  }

  /** The loop is sequential: the repositories of `a` are evaluated before those of `b`, their
      placements come first, and a run ended in `a` never reaches `b`. */
  lemma {:induction false} EvaluateConcat(cfg: Config, now: int, a: seq<RepoEntry>, b: seq<RepoEntry>,
                                          fetch: (string, string) -> Fetch<Build>)
    ensures Evaluate(cfg, now, a + b, fetch) ==
      match Evaluate(cfg, now, a, fetch)
      case Ended(r) => Ended(r)
      case Completed(ps) => After(ps, Evaluate(cfg, now, b, fetch))
  {
    if a == [] {
      assert a + b == b;
      match Evaluate(cfg, now, b, fetch)
      case Ended(_) =>
      case Completed(qs) => assert [] + qs == qs;
    } else {
      assert (a + b)[0] == a[0];
      assert (a + b)[1..] == a[1..] + b;
      EvaluateConcat(cfg, now, a[1..], b, fetch);
      match EvaluateRepo(cfg, now, a[0], fetch)
      case Halted(_) =>
      case Skipped =>
      case Placed(p) =>
        match Evaluate(cfg, now, a[1..], fetch)
        case Ended(_) =>
        case Completed(ps) => AfterAfter([p], ps, Evaluate(cfg, now, b, fetch));
    }
  }

  lemma AfterAfter(ps: seq<Placement>, qs: seq<Placement>, e: Evaluation)
    ensures After(ps, After(qs, e)) == After(ps + qs, e)
  {
    match e
    case Ended(_) =>
    case Completed(rs) => assert ps + (qs + rs) == (ps + qs) + rs;
  }

  /** One more iteration of the repository loop, seen from the placements made so far. */
  lemma EvaluateStep(cfg: Config, now: int, entries: seq<RepoEntry>, i: nat, fetch: (string, string) -> Fetch<Build>,
                     placed: seq<Placement>)
    requires i < |entries|
    ensures After(placed, Evaluate(cfg, now, entries[i..], fetch)) ==
      match EvaluateRepo(cfg, now, entries[i], fetch)
      case Halted(r) => Ended(r)
      case Skipped => After(placed, Evaluate(cfg, now, entries[i + 1..], fetch))
      case Placed(p) => After(placed + [p], Evaluate(cfg, now, entries[i + 1..], fetch))
  {
    assert entries[i..][0] == entries[i] && entries[i..][1..] == entries[i + 1..];
    match EvaluateRepo(cfg, now, entries[i], fetch)
    case Halted(_) =>
    case Skipped =>
    case Placed(p) => AfterAfter(placed, [p], Evaluate(cfg, now, entries[i + 1..], fetch));
  }

  /** A whole run: the report `check_builds` passes to `nagios_exit`. */
  function Run(cfg: Config, now: int, repos: Fetch<RepoEntry>, fetch: (string, string) -> Fetch<Build>): Report
  {
    match GetAllRepos(repos)
    case Raise(reason) => Report(Critical, "Error retrieving repos: " + reason)
    case Exit(report) => report
    case Return(entries) =>
      match Evaluate(cfg, now, entries, fetch)
      case Ended(report) => report
      case Completed(ps) => Summarise(ps)
  }

  /** With a namespace configured, a repository of another namespace changes nothing, wherever
      it appears in the list: it is in no bucket and in no message. */
  lemma ForeignRepoIgnored(cfg: Config, now: int, a: seq<RepoEntry>, e: RepoEntry, b: seq<RepoEntry>,
                           fetch: (string, string) -> Fetch<Build>)
    requires cfg.namespace != "" && e.Repo? && e.namespace != cfg.namespace
    ensures Run(cfg, now, Response(200, Some(a + [e] + b)), fetch) == Run(cfg, now, Response(200, Some(a + b)), fetch)
  {
    EvaluateConcat(cfg, now, a, [e] + b, fetch);
    EvaluateConcat(cfg, now, a, b, fetch);
    assert a + [e] + b == a + ([e] + b);
    assert ([e] + b)[1..] == b;
  }

  /** An empty repository list, or one the namespace filter empties, gives UNKNOWN with the
      fixed message. */
  lemma NothingToCheck(cfg: Config, now: int, entries: seq<RepoEntry>, fetch: (string, string) -> Fetch<Build>)
    requires forall e :: e in entries ==> e.Repo? && cfg.namespace != "" && e.namespace != cfg.namespace
    ensures Run(cfg, now, Response(200, Some(entries)), fetch) == Report(Unknown, "No repos/builds found")
  {
    NothingPlaced(cfg, now, entries, fetch);
  }

  lemma {:induction false} NothingPlaced(cfg: Config, now: int, entries: seq<RepoEntry>, fetch: (string, string) -> Fetch<Build>)
    requires forall e :: e in entries ==> e.Repo? && cfg.namespace != "" && e.namespace != cfg.namespace
    ensures Evaluate(cfg, now, entries, fetch) == Completed([])
  {
    if entries != [] {
      assert entries[0] in entries;
      NothingPlaced(cfg, now, entries[1..], fetch);
    }
  }

  /** A repository that last succeeded a day and a second ago, with a one-day warning and a
      two-day critical threshold, makes the run WARNING. */
  lemma OneDayOldScenario(now: int, fetch: (string, string) -> Fetch<Build>)
    requires now > 172800
    requires fetch("docker", "test-1") == Response(200, Some([Build("success", Some(now - 86401))]))
    ensures Run(Config("", 86400, 172800), now, Response(200, Some([Repo("docker", "test-1", "docker/test-1")])), fetch)
      == Report(Warning, "Failing build(s): " + ("docker/test-1" + " - last succeeded: " + "1 day ago"))
  {
    var entry := Repo("docker", "test-1", "docker/test-1");
    OneDayOldRepo(now, fetch);
    SingleRepoRun(Config("", 86400, 172800), now, entry, fetch, Placement(Warning, "docker/test-1" + " - last succeeded: " + "1 day ago"));
  }

  /** A run over a single repository that lands in one bucket reports that bucket alone. */
  lemma SingleRepoRun(cfg: Config, now: int, entry: RepoEntry, fetch: (string, string) -> Fetch<Build>, p: Placement)
    requires EvaluateRepo(cfg, now, entry, fetch) == Placed(p)
    ensures Run(cfg, now, Response(200, Some([entry])), fetch) == Report(p.tier, Prefix(p.tier) + p.descriptor)
  {
    assert GetAllRepos(Response(200, Some([entry]))) == Return([entry]);
    assert [entry][1..] == [];
    assert Evaluate(cfg, now, [entry], fetch) == After([p], Completed([]));
    assert [p] + [] == [p];
    SummariseSingle(p);
  }

  lemma OneDayOldRepo(now: int, fetch: (string, string) -> Fetch<Build>)
    requires now > 172800
    requires fetch("docker", "test-1") == Response(200, Some([Build("success", Some(now - 86401))]))
    ensures EvaluateRepo(Config("", 86400, 172800), now, Repo("docker", "test-1", "docker/test-1"), fetch)
      == Placed(Placement(Warning, "docker/test-1" + " - last succeeded: " + "1 day ago"))
  {
    var builds := [Build("success", Some(now - 86401))];
    assert GetBuildsForRepo("docker", "test-1", fetch("docker", "test-1")) == Return(builds);
    SingleSuccess(now - 86401);
    assert Classify(now, now - 86401, 86400, 172800) == Some(Warning);
    TimeAgoDayExamples(now);
  }

  /** A single successful build is its own last success. */
  lemma SingleSuccess(t: int)
    requires t > 0
    ensures LastSuccess([Build("success", Some(t))]) == Some(t)
  {
    var builds := [Build("success", Some(t))];
    assert builds[1..] == [];
    assert StepBuild(0, builds[0]) == Some(t);
    assert ScanFrom([], t) == Some(t);
  }

  /** A run that placed one repository reports that repository's tier and descriptor. */
  lemma SummariseSingle(p: Placement)
    ensures Summarise([p]) == Report(p.tier, Prefix(p.tier) + p.descriptor)
  {
    assert [p][1..] == [];
    assert forall t: Status :: Descriptors([p], t) == if p.tier == t then [p.descriptor] else [];
    assert Join([p.descriptor], ", ") == p.descriptor;
  }

  /** A repository whose builds all failed never succeeded: CRITICAL, shown as "Unknown". */
  lemma NeverSucceededScenario(now: int, cfg: Config, owner: string, name: string, slug: string,
                               fetch: (string, string) -> Fetch<Build>)
    requires cfg.namespace == "" || owner == cfg.namespace
    requires fetch(owner, name) == Response(200, Some([Build("failure", None), Build("running", None)]))
    ensures EvaluateRepo(cfg, now, Repo(owner, name, slug), fetch)
      == Placed(Placement(Critical, slug + " - last succeeded: " + "Unknown"))
  {
    NoSuccessGivesZero([Build("failure", None), Build("running", None)]);
  }

  /** A builds request answered with an HTTP error ends the whole run UNKNOWN, even after a
      critical repository: `nagios_exit` is not an exception the loop catches. */
  lemma BuildsHttpErrorEndsRun(cfg: Config, now: int, first: RepoEntry, second: RepoEntry,
                               fetch: (string, string) -> Fetch<Build>)
    requires cfg.namespace == ""
    requires first.Repo? && second.Repo?
    requires fetch(first.namespace, first.name) == Response(200, Some([Build("failure", None)]))
    requires fetch(second.namespace, second.name) == Response(500, None)
    ensures Run(cfg, now, Response(200, Some([first, second])), fetch).status == Unknown
  {
    NoSuccessGivesZero([Build("failure", None)]);
    var entries := [first, second];
    assert entries[1..] == [second];
    assert EvaluateRepo(cfg, now, first, fetch).Placed?;
    var halt := EvaluateRepo(cfg, now, second, fetch);
    assert halt.Halted? && halt.report.status == Unknown;
    assert Evaluate(cfg, now, [second], fetch) == Ended(halt.report);
  }

  /** A repository entry that cannot be read ends the run CRITICAL, wherever it appears after
      a stretch of the listing that did not end the run, and even when its namespace would have
      filtered it out: what was placed before it and what follows it play no part. */
  lemma MalformedEntryEndsRun(cfg: Config, now: int, a: seq<RepoEntry>, reason: string, b: seq<RepoEntry>,
                              fetch: (string, string) -> Fetch<Build>)
    requires Evaluate(cfg, now, a, fetch).Completed?
    ensures Run(cfg, now, Response(200, Some(a + [MalformedRepo(reason)] + b)), fetch)
      == Report(Critical, "Repo API response missing expected data: " + reason)
  {
    EvaluateConcat(cfg, now, a, [MalformedRepo(reason)] + b, fetch);
    assert a + [MalformedRepo(reason)] + b == a + ([MalformedRepo(reason)] + b);
  }

  /** A builds request for a repository that is checked and answers with an HTTP status other
      than 200 ends the run UNKNOWN with that request's message, whatever was placed before it
      and whatever follows. */
  lemma BuildsHttpErrorAnywhereEndsRun(cfg: Config, now: int, a: seq<RepoEntry>, e: RepoEntry, b: seq<RepoEntry>,
                                       fetch: (string, string) -> Fetch<Build>)
    requires Evaluate(cfg, now, a, fetch).Completed?
    requires e.Repo? && (cfg.namespace == "" || e.namespace == cfg.namespace)
    requires fetch(e.namespace, e.name).Response? && fetch(e.namespace, e.name).statusCode != 200
    ensures Run(cfg, now, Response(200, Some(a + [e] + b)), fetch)
      == Report(Unknown, "Drone API /api/repos/" + e.namespace + "/" + e.name + "/builds HTTP status code is "
                         + IntToString(fetch(e.namespace, e.name).statusCode))
  {
    EvaluateConcat(cfg, now, a, [e] + b, fetch);
    assert a + [e] + b == a + ([e] + b);
  }

  /** Any builds request that ends in `nagios_exit` (an HTTP error or a body that is not a JSON
      list) makes the run that report, whatever was placed before it. */
  lemma BuildsExitEndsRun(cfg: Config, now: int, a: seq<RepoEntry>, e: RepoEntry, b: seq<RepoEntry>,
                          fetch: (string, string) -> Fetch<Build>)
    requires Evaluate(cfg, now, a, fetch).Completed?
    requires e.Repo? && (cfg.namespace == "" || e.namespace == cfg.namespace)
    requires GetBuildsForRepo(e.namespace, e.name, fetch(e.namespace, e.name)).Exit?
    ensures Run(cfg, now, Response(200, Some(a + [e] + b)), fetch)
      == GetBuildsForRepo(e.namespace, e.name, fetch(e.namespace, e.name)).report
    ensures Run(cfg, now, Response(200, Some(a + [e] + b)), fetch).status == Unknown
  {
    EvaluateConcat(cfg, now, a, [e] + b, fetch);
    assert a + [e] + b == a + ([e] + b);
  }

  // ---------------------------------------------------------------------------------------
  // The method itself

  /** The builds loop (lines 55, 63-66): the running maximum of the `finished` times of the
      successful builds, starting from 0, or `raised` when reading an element raised (the loop
      stops there, as the exception leaves it). */
  method ScanBuilds(builds: seq<Build>) returns (last: int, raised: bool)
    ensures raised <==> LastSuccess(builds).None?
    ensures !raised ==> LastSuccess(builds) == Some(last)
  {
    last := 0;
    raised := false;
    var j := 0;
    while j < |builds| && !raised
      invariant 0 <= j <= |builds|
      invariant LastSuccess(builds) == if raised then None else ScanFrom(builds[j..], last)
    {
      assert builds[j..][0] == builds[j] && builds[j..][1..] == builds[j + 1..];
      var b := builds[j];
      if b.NotAnObject? {
        raised := true;
      } else if b.status == "success" {
        if b.finished.None? {
          raised := true;
        } else if b.finished.value > last {
          last := b.finished.value;
        }
      }
      j := j + 1;
    }
    if !raised {
      assert builds[j..] == [];
    }
  }

  /** The body of the repository loop (lines 44-82) for one entry: whether it ends the run,
      is skipped, or which bucket receives which text. */
  method CheckRepo(cfg: Config, now: int, entry: RepoEntry, fetch: (string, string) -> Fetch<Build>)
    returns (outcome: Outcome)
    ensures outcome == EvaluateRepo(cfg, now, entry, fetch)
  {
    if entry.MalformedRepo? {
      return Halted(Report(Critical, "Repo API response missing expected data: " + entry.reason));
    }
    var owner, name, slug := entry.namespace, entry.name, entry.slug;
    if cfg.namespace != "" && owner != cfg.namespace {
      return Skipped;
    }

    var builds: seq<Build>;
    match GetBuildsForRepo(owner, name, fetch(owner, name)) {
      case Exit(r) => return Halted(r);
      case Raise(_) => return Placed(Placement(Unknown, slug));
      case Return(list) => builds := list;
    }
    if builds == [] {
      return Placed(Placement(Unknown, slug));
    }

    var last, raised := ScanBuilds(builds);
    if raised {
      return Placed(Placement(Unknown, slug));
    }

    var descriptor := Descriptor(slug, now, last);
    var tier := Classify(now, last, cfg.warning, cfg.critical);
    if tier == Some(Ok) {
      outcome := Placed(Placement(Ok, descriptor));
    } else if tier == Some(Critical) {
      outcome := Placed(Placement(Critical, descriptor));
    } else if tier == Some(Warning) {
      outcome := Placed(Placement(Warning, descriptor));
    } else {
      outcome := Skipped;
    }
  }

  /** `check_builds` with its loop over the repositories and the four lists it appends to; it
      returns the report that it would print and exit with. */
  method CheckBuilds(cfg: Config, now: int, repos: Fetch<RepoEntry>, fetch: (string, string) -> Fetch<Build>)
    returns (report: Report)
    ensures report == Run(cfg, now, repos, fetch)
  {
    var entries: seq<RepoEntry>;
    match GetAllRepos(repos) {
      case Raise(reason) => return Report(Critical, "Error retrieving repos: " + reason);
      case Exit(r) => return r;
      case Return(list) => entries := list;
    }

    var successful: seq<string> := [];
    var warning: seq<string> := [];
    var critical: seq<string> := [];
    var unknown: seq<string> := [];
    ghost var placed: seq<Placement> := [];

    for i := 0 to |entries|
      invariant successful == Descriptors(placed, Ok)
      invariant warning == Descriptors(placed, Warning)
      invariant critical == Descriptors(placed, Critical)
      invariant unknown == Descriptors(placed, Unknown)
      invariant Evaluate(cfg, now, entries, fetch) == After(placed, Evaluate(cfg, now, entries[i..], fetch))
    {
      EvaluateStep(cfg, now, entries, i, fetch, placed);
      var outcome := CheckRepo(cfg, now, entries[i], fetch);
      match outcome {
        case Halted(r) => return r;
        case Skipped =>
        case Placed(p) =>
          DescriptorsSnoc(placed, p);
          placed := placed + [p];
          match p.tier {
            case Ok => successful := successful + [p.descriptor];
            case Warning => warning := warning + [p.descriptor];
            case Critical => critical := critical + [p.descriptor];
            case Unknown => unknown := unknown + [p.descriptor];
          }
      }
    }

    assert entries[|entries|..] == [];
    assert Evaluate(cfg, now, entries, fetch) == Completed(placed + []);
    assert placed + [] == placed;
    report := Aggregate(successful, warning, critical, unknown);
  }

}
