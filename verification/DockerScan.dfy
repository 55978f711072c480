/** The container rules: what one docker scan reports, which containers it judged, and when it gives
    the scan up. */
module DockerScan {
  import opened Basics
  import opened Incidents
  import opened IncidentJobs
  import opened Patrol
  import opened ProbeRules

  datatype Policy = Always | UnlessStopped | OnFailure | Unwatched

  /** The inspected fields; `finishedTs` is the parsed finish time, if it parses. */
  datatype Info = Info(policy: Policy, status: string, restarting: bool, exitCode: Option<int>, unhealthy: bool,
                       oomKilled: bool, finishedTs: Option<int>, restartCount: Option<int>)

  /** One listed container. `ignored` covers the monitor itself, its socket proxy and the excluded
      names; `info` is missing if the inspection raised. */
  datatype Row = Row(name: Option<string>, ignored: bool, info: Option<Info>)

  datatype ScanReport = ScanReport(findings: seq<Finding>, active: set<string>, restartCounts: map<string, int>)

  predicate Candidate(row: Row) { row.name.Some? && !row.ignored }

  predicate Inspected(row: Row) { Candidate(row) && row.info.Some? }

  /** The container was really judged in this round. */
  predicate Evaluated(row: Row) {
    Inspected(row) && row.info.value.policy != Unwatched && row.info.value.status != "removing"
  }

  predicate Stopped(info: Info) {
    && (info.status == "exited" || info.status == "dead")
    && !info.restarting
    && !(info.policy == OnFailure && info.exitCode == Some(0))
  }

  predicate FreshOom(info: Info, now: int, oomWindow: int) {
    info.oomKilled && info.finishedTs.Some? && 0 <= now - info.finishedTs.value < oomWindow
  }

  function DownContainer(name: string): Finding {
    Finding(ContainerDown, name, "critical", "container stopped", map[], true, false)
  }

  function SickContainer(name: string): Finding {
    Finding(ContainerUnhealthy, name, "warning", "health check failed", map[], true, false)
  }

  function OomContainer(name: string): Finding {
    Finding(ContainerOom, name, "critical", "killed by OOM", map[], true, true)
  }

  function RowFindings(row: Row, now: int, emitOom: bool, oomWindow: int): seq<Finding>
    requires Evaluated(row)
  {
    var name, info := row.name.value, row.info.value;
    (if Stopped(info) then [DownContainer(name)] else [])
    + (if info.unhealthy then [SickContainer(name)] else [])
    + (if emitOom && FreshOom(info, now, oomWindow) then [OomContainer(name)] else [])
  }

  predicate RowSays(row: Row, now: int, emitOom: bool, oomWindow: int, key: Key)
    requires Evaluated(row)
  {
    key.1 == row.name.value &&
    match key.0
    case ContainerDown => Stopped(row.info.value)
    case ContainerUnhealthy => row.info.value.unhealthy
    case ContainerOom => emitOom && FreshOom(row.info.value, now, oomWindow)
    case _ => false
  }

  function Count(rows: seq<Row>, p: Row -> bool): nat {
    if rows == [] then 0 else Count(rows[..|rows| - 1], p) + if p(rows[|rows| - 1]) then 1 else 0
  }

  /** Some entry of this name was judged. */
  ghost predicate Judged(rows: seq<Row>, name: string) {
    exists i :: 0 <= i < |rows| && Evaluated(rows[i]) && rows[i].name.value == name
  }

  /** Some judged entry calls for a finding with this key. */
  ghost predicate Says(rows: seq<Row>, now: int, emitOom: bool, oomWindow: int, key: Key) {
    exists i :: 0 <= i < |rows| && Evaluated(rows[i]) && RowSays(rows[i], now, emitOom, oomWindow, key)
  }

  predicate ContainerFinding(f: Finding) {
    f == DownContainer(f.subject) || f == SickContainer(f.subject) || f == OomContainer(f.subject)
  }

  /** The restart count of a container: that of its last judged entry that has one. */
  function LatestCount(rows: seq<Row>, name: string): Option<int> {
    if rows == [] then None
    else
      var row := rows[|rows| - 1];
      if Evaluated(row) && row.name.value == name && row.info.value.restartCount.Some? then row.info.value.restartCount
      else LatestCount(rows[..|rows| - 1], name)
  }

  /** Only judged containers have one. */
  lemma {:induction false} CountedIsJudged(rows: seq<Row>, name: string)
    requires LatestCount(rows, name).Some?
    ensures Judged(rows, name)
  {
    var n := |rows| - 1;
    if Evaluated(rows[n]) && rows[n].name.value == name {
    } else {
      CountedIsJudged(rows[..n], name);
      var i :| 0 <= i < n && Evaluated(rows[..n][i]) && rows[..n][i].name.value == name;
      assert Evaluated(rows[i]) && rows[i].name.value == name;
    }
  }

  /** What a report says: the active set, the findings and the restart counts, per container and rule. */
  ghost predicate Reports(rows: seq<Row>, now: int, emitOom: bool, oomWindow: int, report: ScanReport) {
    && (forall name :: name in report.active <==> Judged(rows, name))
    && (forall name :: (if name in report.restartCounts then Some(report.restartCounts[name]) else None)
                       == LatestCount(rows, name))
    && (forall key :: Mentions(report.findings, key) <==> Says(rows, now, emitOom, oomWindow, key))
    && (forall i :: 0 <= i < |report.findings| ==> ContainerFinding(report.findings[i]))
  }

  lemma JudgedAppend(rows: seq<Row>, row: Row, name: string)
    ensures Judged(rows + [row], name) <==> Judged(rows, name) || (Evaluated(row) && row.name.value == name)
  {
    var all := rows + [row];
    if i :| 0 <= i < |rows| && Evaluated(rows[i]) && rows[i].name.value == name { assert all[i] == rows[i]; }
    assert all[|rows|] == row;
  }

  lemma SaysAppend(rows: seq<Row>, row: Row, now: int, emitOom: bool, oomWindow: int, key: Key)
    ensures Says(rows + [row], now, emitOom, oomWindow, key)
        <==> Says(rows, now, emitOom, oomWindow, key) || (Evaluated(row) && RowSays(row, now, emitOom, oomWindow, key))
  {
    var all := rows + [row];
    if i :| 0 <= i < |rows| && Evaluated(rows[i]) && RowSays(rows[i], now, emitOom, oomWindow, key) {
      assert all[i] == rows[i];
    }
    assert all[|rows|] == row;
  }

  lemma RowMentions(row: Row, now: int, emitOom: bool, oomWindow: int, key: Key)
    requires Evaluated(row)
    ensures Mentions(RowFindings(row, now, emitOom, oomWindow), key) <==> RowSays(row, now, emitOom, oomWindow, key)
  {
    var name, info := row.name.value, row.info.value;
    var a := if Stopped(info) then [DownContainer(name)] else [];
    var b := if info.unhealthy then [SickContainer(name)] else [];
    var c := if emitOom && FreshOom(info, now, oomWindow) then [OomContainer(name)] else [];
    MentionsAppend(a + b, c, key);
    MentionsAppend(a, b, key);
    MentionsOne(a, key);
    MentionsOne(b, key);
    MentionsOne(c, key);
  }

  function Add(report: ScanReport, row: Row, now: int, emitOom: bool, oomWindow: int): ScanReport {
    if !Evaluated(row) then report
    else
      ScanReport(report.findings + RowFindings(row, now, emitOom, oomWindow),
             report.active + {row.name.value},
             if row.info.value.restartCount.Some?
             then report.restartCounts[row.name.value := row.info.value.restartCount.value]
             else report.restartCounts)
  }

  lemma AddReports(rows: seq<Row>, row: Row, now: int, emitOom: bool, oomWindow: int, report: ScanReport)
    requires Reports(rows, now, emitOom, oomWindow, report)
    ensures Reports(rows + [row], now, emitOom, oomWindow, Add(report, row, now, emitOom, oomWindow))
  {
    var report' := Add(report, row, now, emitOom, oomWindow);
    assert (rows + [row])[..|rows|] == rows;
    forall name ensures name in report'.active <==> Judged(rows + [row], name) { JudgedAppend(rows, row, name); }
    forall key ensures Mentions(report'.findings, key) <==> Says(rows + [row], now, emitOom, oomWindow, key) {
      SaysAppend(rows, row, now, emitOom, oomWindow, key);
      if Evaluated(row) {
        MentionsAppend(report.findings, RowFindings(row, now, emitOom, oomWindow), key);
        RowMentions(row, now, emitOom, oomWindow, key);
      }
    }
  }

  /** A scan in which every inspection of two or more candidates failed counts as failed. */
  method RunDockerScan(rows: seq<Row>, now: int, emitOom: bool, oomWindow: int) returns (result: Option<ScanReport>)
    ensures result.None? <==> Count(rows, Candidate) >= 2 && Count(rows, Inspected) == 0
    ensures result.Some? ==> Reports(rows, now, emitOom, oomWindow, result.value)
  {
    var report := ScanReport([], {}, map[]);
    var candidates, inspected := 0, 0;
    for i := 0 to |rows|
      invariant candidates == Count(rows[..i], Candidate) && inspected == Count(rows[..i], Inspected)
      invariant Reports(rows[..i], now, emitOom, oomWindow, report)
    {
      var row := rows[i];
      AddReports(rows[..i], row, now, emitOom, oomWindow, report);
      assert rows[..i + 1] == rows[..i] + [row];
      assert rows[..i + 1][..i] == rows[..i];
      if !Candidate(row) { continue; }
      candidates := candidates + 1;
      if row.info.None? { continue; }
      inspected := inspected + 1;
      if !Evaluated(row) { continue; }
      report := Add(report, row, now, emitOom, oomWindow);
    }
    assert rows[..|rows|] == rows;
    result := if candidates >= 2 && inspected == 0 then None else Some(report);
  }

  /** A container that recovers was judged in this very round, and no entry of its name was stopped
      (for a stopped container) or unhealthy (for an unhealthy one). */
  lemma ContainerNoFalseRecovery(rows: seq<Row>, now: int, emitOom: bool, oomWindow: int, report: ScanReport,
                                 crashloops: Option<seq<Finding>>, open: seq<Event>, emitCrashloop: bool, fails: nat,
                                 threshold: int, plan: Plan, r: Round,
                                 before: seq<Event>, after: seq<Event>, i: nat)
    requires Reports(rows, now, emitOom, oomWindow, report)
    requires DockerPlanned(DockerScanned(report.findings, report.active, crashloops), open, emitCrashloop, fails,
                           threshold, plan)
    requires Follows(r, plan) && RoundChanged(r, before, after) && WasResolved(before, after, i)
    requires forall j :: 0 <= j < |before| && before[j].status == Open ==> HasKey(open, EventKey(before[j]))
    ensures before[i].rule in DOCKER_OPEN_RULES ==> Judged(rows, before[i].subject)
    ensures before[i].rule in DOCKER_OPEN_RULES ==>
      forall k :: 0 <= k < |rows| && Evaluated(rows[k]) && rows[k].name.value == before[i].subject ==>
        if before[i].rule == ContainerDown then !Stopped(rows[k].info.value) else !rows[k].info.value.unhealthy
  {
    hide DockerPlanned, RoundChanged, Follows, HasKey, Judged, Stopped;
    DockerNoFalseRecovery(DockerScanned(report.findings, report.active, crashloops), open, emitCrashloop, fails,
                          threshold, plan, r, before, after, i);
    assert !Says(rows, now, emitOom, oomWindow, EventKey(before[i])) || before[i].rule !in DOCKER_RULES;
  }

  // ---- What a report tells ----

  /** A listed container that is neither ignored, nor being removed, nor without a restart policy, and whose
      inspection returned this. */
  predicate Watched(row: Row, name: string, info: Info) {
    && row == Row(Some(name), false, Some(info)) && info.status != "removing"
    && (info.policy == Always || info.policy == UnlessStopped || info.policy == OnFailure)
  }

  /** The entry calls for the rule: stopped for good unless it ended as it should, unhealthy, or killed for
      memory a short while ago. */
  predicate Calls(rule: Rule, info: Info, now: int, emitOom: bool, oomWindow: int) {
    match rule
    case ContainerDown =>
      && info.status in {"exited", "dead"} && !info.restarting
      && (info.policy == OnFailure && info.exitCode.Some? ==> info.exitCode.value != 0)
    case ContainerUnhealthy => info.unhealthy
    case ContainerOom => emitOom && info.oomKilled && info.finishedTs.Some? && now - oomWindow < info.finishedTs.value <= now
    case _ => false
  }

  ghost predicate IsWatched(rows: seq<Row>, name: string) {
    exists i, info :: 0 <= i < |rows| && Watched(rows[i], name, info)
  }

  ghost predicate CalledFor(rows: seq<Row>, now: int, emitOom: bool, oomWindow: int, rule: Rule, name: string) {
    exists i, info :: 0 <= i < |rows| && Watched(rows[i], name, info) && Calls(rule, info, now, emitOom, oomWindow)
  }

  /** Exactly the watched containers are active, exactly the rules called for are reported, a container that is
      down or was killed as critical, and nothing else is. */
  lemma ReportTells(rows: seq<Row>, now: int, emitOom: bool, oomWindow: int, report: ScanReport)
    requires Reports(rows, now, emitOom, oomWindow, report)
    ensures forall name :: name in report.active <==> IsWatched(rows, name)
    ensures forall rule, name :: Mentions(report.findings, (rule, name)) <==> CalledFor(rows, now, emitOom, oomWindow, rule, name)
    ensures forall i :: 0 <= i < |report.findings| ==>
      && report.findings[i].rule in {ContainerDown, ContainerUnhealthy, ContainerOom}
      && report.findings[i].severity == (if report.findings[i].rule == ContainerUnhealthy then "warning" else "critical")
      && (report.findings[i].point <==> report.findings[i].rule == ContainerOom)
  {
    forall row: Row, name: string
      ensures Evaluated(row) && row.name.value == name <==> row.info.Some? && Watched(row, name, row.info.value)
    {}
    forall name ensures Judged(rows, name) <==> IsWatched(rows, name) {
      if i :| 0 <= i < |rows| && Evaluated(rows[i]) && rows[i].name.value == name {
        assert Watched(rows[i], name, rows[i].info.value);
      }
    }
    forall rule, name
      ensures Says(rows, now, emitOom, oomWindow, (rule, name)) <==> CalledFor(rows, now, emitOom, oomWindow, rule, name)
    {
      if i :| 0 <= i < |rows| && Evaluated(rows[i]) && RowSays(rows[i], now, emitOom, oomWindow, (rule, name)) {
        assert Watched(rows[i], name, rows[i].info.value) && Calls(rule, rows[i].info.value, now, emitOom, oomWindow);
      }
    }
  }
}
