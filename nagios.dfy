/** The Nagios plugin contract of `nagios_exit` (check_drone_builds.py:137-145): one line
    `"<STATUS> - <message>"` on standard output and an exit code per the "Plugin Return Codes"
    section of the Nagios Plugin Development Guidelines. */
module Nagios {
  import opened Wrappers

  datatype Status = Ok | Warning | Critical | Unknown

  /** The status token printed at the head of the line. */
  function StatusName(s: Status): string
  {
    match s
    case Ok => "OK"
    case Warning => "WARNING"
    case Critical => "CRITICAL"
    case Unknown => "UNKNOWN"
  }

  /** The `codes` table of `nagios_exit`; `ExitCodeBijective` states what it is. */
  function ExitCode(s: Status): nat
  {
    match s
    case Ok => 0
    case Warning => 1
    case Critical => 2
    case Unknown => 3
  }

  /** How a monitoring framework reads an exit code back: codes outside 0..3 are not part of
      the convention. */
  function StatusForCode(code: int): (r: Option<Status>)
    ensures r.Some? <==> 0 <= code <= 3
    ensures r.Some? ==> ExitCode(r.value) == code
  {
    if code == 0 then Some(Ok)
    else if code == 1 then Some(Warning)
    else if code == 2 then Some(Critical)
    else if code == 3 then Some(Unknown)
    else None
  }

  /** The code table is a bijection between the four statuses and the codes 0..3. */
  lemma ExitCodeBijective()
    ensures forall s: Status, t: Status :: ExitCode(s) == ExitCode(t) ==> s == t
    ensures forall s: Status :: StatusForCode(ExitCode(s)) == Some(s)
  {
  }

  datatype Report = Report(status: Status, message: string)

  /** What the plugin prints: `f"{status} - {message}"`. */
  function Line(r: Report): string
  {
    Header(r.status) + r.message
  }

  function Header(s: Status): string
  {
    StatusName(s) + " - "
  }

  predicate StartsWith(line: string, prefix: string)
  {
    |prefix| <= |line| && line[..|prefix|] == prefix
  }

  /** How a monitoring framework splits a plugin line into status and message. */
  function ParseLine(line: string): (r: Option<Report>)
    ensures r.Some? ==> Line(r.value) == line
  {
    if StartsWith(line, Header(Ok)) then Some(Report(Ok, line[|Header(Ok)|..]))
    else if StartsWith(line, Header(Warning)) then Some(Report(Warning, line[|Header(Warning)|..]))
    else if StartsWith(line, Header(Critical)) then Some(Report(Critical, line[|Header(Critical)|..]))
    else if StartsWith(line, Header(Unknown)) then Some(Report(Unknown, line[|Header(Unknown)|..]))
    else None
  }

  /** The printed line determines the report: status and message come back unchanged, whatever
      the message holds. */
  lemma LineRoundTrip(r: Report)
    ensures ParseLine(Line(r)) == Some(r)
  {
    var line := Line(r);
    assert line[..|Header(r.status)|] == Header(r.status);
    assert line[|Header(r.status)|..] == r.message;
    assert line[0] == StatusName(r.status)[0];
  }

  /** What the process hands to the monitoring framework. */
  datatype ExitSignal = ExitSignal(stdout: string, code: nat)

  /** `nagios_exit` without the side effects: the line it prints and the code it exits with.
      Both can be decoded back to the report. */
  function NagiosExit(r: Report): (e: ExitSignal)
    ensures ParseLine(e.stdout) == Some(r)
    ensures StatusForCode(e.code) == Some(r.status)
  {
    LineRoundTrip(r);
    ExitSignal(Line(r), ExitCode(r.status))
  }

}
