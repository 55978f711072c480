/** The patrol ticks: which rules a round may judge, what it must hold, and why a rule that was not
    evaluated never looks recovered. */
module Patrol {
  import opened Basics
  import opened Incidents
  import opened IncidentRound
  import opened IncidentJobs
  import opened IncidentIndependence

  // ---- What a tick hands to the engine ----

  datatype Plan = Plan(findings: seq<Finding>, scope: set<Rule>, hold: set<Key>)

  ghost predicate Follows(r: Round, plan: Plan) {
    r.findings == plan.findings && r.scope == plan.scope && r.hold == plan.hold
  }

  ghost predicate Within(findings: seq<Finding>, rules: set<Rule>) {
    forall i :: 0 <= i < |findings| ==> findings[i].rule in rules
  }

  predicate Mentions(findings: seq<Finding>, key: Key) {
    exists i :: 0 <= i < |findings| && KeyOf(findings[i]) == key
  }

  const METRICS_RULES: set<Rule> := {DiskUsage, MemPressure, ContainerRestart, MiddlewareDown}
  const DOCKER_RULES: set<Rule> := {ContainerDown, ContainerUnhealthy, ContainerOom, ContainerCrashloop}
  const DOCKER_OPEN_RULES: set<Rule> := {ContainerDown, ContainerUnhealthy}

  function ScanFailure(rule: Rule, subject: string): Finding {
    Finding(rule, subject, "warning", "data source failed repeatedly", map[], false, false)
  }

  datatype MetricsScan = MetricsFailed | MetricsScanned(findings: seq<Finding>)

  datatype LogScan = LogsFailed | LogsScanned(findings: seq<Finding>)

  /** A docker scan, and the crash-loop findings of the tick if the detector did not raise. */
  datatype ContainerScan =
    | DockerFailed
    | DockerScanned(findings: seq<Finding>, active: set<string>, crashloops: Option<seq<Finding>>)

  function Held(open: seq<Event>, active: set<string>): set<Key> {
    set i | 0 <= i < |open| && open[i].rule in DOCKER_OPEN_RULES && open[i].subject !in active :: EventKey(open[i])
  }

  /** The scope of a metrics tick: the metrics rules only if the scan returned, the scan-failure rule
      only if its own state is certain. */
  ghost predicate MetricsPlanned(scan: MetricsScan, middleware: bool, fails: nat, threshold: int, plan: Plan) {
    && plan.hold == {}
    && (forall rule :: rule in plan.scope <==>
         || (scan.MetricsScanned? && (rule in {DiskUsage, MemPressure, ContainerRestart} || (rule == MiddlewareDown && middleware)))
         || (rule == ScanFailedPrometheus && (scan.MetricsScanned? || fails >= threshold)))
    && plan.findings ==
         (if scan.MetricsScanned? then scan.findings else [])
         + (if fails >= threshold then [ScanFailure(ScanFailedPrometheus, "metrics_scan")] else [])
  }

  ghost predicate LogsPlanned(scan: LogScan, fails: nat, threshold: int, plan: Plan) {
    && plan.hold == {}
    && (forall rule :: rule in plan.scope <==>
         || (scan.LogsScanned? && rule == LogErrorSpike)
         || (rule == ScanFailedLoki && (scan.LogsScanned? || fails >= threshold)))
    && plan.findings ==
         (if scan.LogsScanned? then scan.findings else [])
         + (if fails >= threshold then [ScanFailure(ScanFailedLoki, "log_scan")] else [])
  }

  /** The scope of a docker tick; it holds the stopped or unhealthy containers that are open and were not judged. */
  ghost predicate DockerPlanned(scan: ContainerScan, open: seq<Event>, emitCrashloop: bool, fails: nat, threshold: int,
                                plan: Plan) {
    && (forall key :: key in plan.hold <==>
         && scan.DockerScanned? && key.0 in {ContainerDown, ContainerUnhealthy} && key.1 !in scan.active
         && HasKey(open, key))
    && (forall rule :: rule in plan.scope <==>
         || (scan.DockerScanned? && rule in {ContainerDown, ContainerUnhealthy, ContainerOom, ContainerCrashloop})
         || (rule == ScanFailedDocker && (scan.DockerScanned? || fails >= threshold)))
    && plan.findings ==
         (if scan.DockerScanned? then scan.findings else [])
         + (if scan.DockerScanned? && emitCrashloop && scan.crashloops.Some? then scan.crashloops.value else [])
         + (if fails >= threshold then [ScanFailure(ScanFailedDocker, "docker_scan")] else [])
  }

  /** The ticks that share the counters of consecutive scan failures. */
  class Ticks {
    const threshold: int
    const prometheus: bool  // a metrics source is configured
    const middleware: bool  // some middleware subject is configured
    var metricsFails: nat
    var logsFails: nat
    var dockerFails: nat

    constructor (threshold: int, prometheus: bool, middleware: bool)
      ensures this.threshold == threshold && this.prometheus == prometheus && this.middleware == middleware
      ensures metricsFails == logsFails == dockerFails == 0
    {
      this.threshold, this.prometheus, this.middleware := threshold, prometheus, middleware;
      metricsFails, logsFails, dockerFails := 0, 0, 0;
    }

    method MetricsTick(scan: MetricsScan) returns (plan: Plan)
      modifies this`metricsFails
      ensures metricsFails == if scan.MetricsFailed? then old(metricsFails) + 1 else 0
      ensures MetricsPlanned(scan, middleware, metricsFails, threshold, plan)
    {
      var scope: set<Rule>, findings: seq<Finding> := {}, [];
      match scan {
        case MetricsScanned(found) =>
          findings := found;
          metricsFails := 0;
          scope := METRICS_RULES + {ScanFailedPrometheus};
          if !middleware { scope := scope - {MiddlewareDown}; }
        case MetricsFailed =>
          metricsFails := metricsFails + 1;
      }
      if metricsFails >= threshold {
        scope := scope + {ScanFailedPrometheus};
        findings := findings + [ScanFailure(ScanFailedPrometheus, "metrics_scan")];
      }
      plan := Plan(findings, scope, {});
    }

    method LogsTick(scan: LogScan) returns (plan: Plan)
      modifies this`logsFails
      ensures logsFails == if scan.LogsFailed? then old(logsFails) + 1 else 0
      ensures LogsPlanned(scan, logsFails, threshold, plan)
    {
      var scope: set<Rule>, findings: seq<Finding> := {}, [];
      match scan {
        case LogsScanned(found) =>
          findings := found;
          logsFails := 0;
          scope := {LogErrorSpike, ScanFailedLoki};
        case LogsFailed =>
          logsFails := logsFails + 1;
      }
      if logsFails >= threshold {
        scope := scope + {ScanFailedLoki};
        findings := findings + [ScanFailure(ScanFailedLoki, "log_scan")];
      }
      plan := Plan(findings, scope, {});
    }

    /** The gate of the docker tick for crash loops and killed containers, set before the scan is awaited:
        closed exactly while the metrics scan covers them. */
    method DockerGate() returns (emit: bool)
      ensures emit <==> !prometheus || metricsFails > 0
    {
      var covering := prometheus && metricsFails == 0;
      emit := !covering;
    }

    /** The rest of the docker tick, once its scan is over; `emitCrashloop` is the gate as it was set at the
        beginning, whatever the metrics tick did meanwhile. If it is closed, the detector does not run. */
    method DockerTick(scan: ContainerScan, openEvents: seq<Event>, emitCrashloop: bool) returns (plan: Plan)
      modifies this`dockerFails
      ensures dockerFails ==
        match scan
        case DockerFailed => old(dockerFails) + 1
        case DockerScanned(_, _, crashloops) => if emitCrashloop && crashloops.None? then 1 else 0
      ensures DockerPlanned(scan, openEvents, emitCrashloop, dockerFails, threshold, plan)
    {
      var scope: set<Rule>, findings: seq<Finding>, hold: set<Key> := {}, [], {};
      match scan {
        case DockerScanned(found, active, crashloops) =>
          findings := found;
          dockerFails := 0;
          scope := DOCKER_RULES + {ScanFailedDocker};
          for i := 0 to |openEvents|
            invariant hold == Held(openEvents[..i], active)
            invariant dockerFails == 0
          {
            if openEvents[i].rule in DOCKER_OPEN_RULES && openEvents[i].subject !in active {
              hold := hold + {EventKey(openEvents[i])};
            }
            assert openEvents[..i + 1] == openEvents[..i] + [openEvents[i]];
            HeldAppend(openEvents[..i], openEvents[i], active);
          }
          assert openEvents[..|openEvents|] == openEvents;
          forall key { HeldMeans(openEvents, active, key); }
          if emitCrashloop {
            if crashloops.Some? { findings := findings + crashloops.value; }
            else { dockerFails := dockerFails + 1; }
          }
        case DockerFailed =>
          dockerFails := dockerFails + 1;
      }
      if dockerFails >= threshold {
        scope := scope + {ScanFailedDocker};
        findings := findings + [ScanFailure(ScanFailedDocker, "docker_scan")];
      }
      plan := Plan(findings, scope, hold);
    }
  }

  lemma HeldAppend(open: seq<Event>, e: Event, active: set<string>)
    ensures Held(open + [e], active)
         == Held(open, active) + if e.rule in DOCKER_OPEN_RULES && e.subject !in active then {EventKey(e)} else {}
  {
    var all := open + [e];
    forall k | k in Held(open, active) ensures k in Held(all, active) {
      var i :| 0 <= i < |open| && open[i].rule in DOCKER_OPEN_RULES && open[i].subject !in active && EventKey(open[i]) == k;
      assert all[i] == open[i];
    }
    assert all[|open|] == e;
  }

  lemma HeldMeans(open: seq<Event>, active: set<string>, key: Key)
    ensures key in Held(open, active) <==>
      key.0 in {ContainerDown, ContainerUnhealthy} && key.1 !in active && HasKey(open, key)
  {
    if key.0 in {ContainerDown, ContainerUnhealthy} && key.1 !in active && HasKey(open, key) {
      var i :| 0 <= i < |open| && EventKey(open[i]) == key;
      assert open[i].rule in DOCKER_OPEN_RULES && open[i].subject !in active;
    }
  }

  // The plans are legal rounds of their jobs, so all that is known of interleavings applies.

  lemma MetricsPlanLegal(scan: MetricsScan, middleware: bool, fails: nat, threshold: int, plan: Plan, r: Round)
    requires MetricsPlanned(scan, middleware, fails, threshold, plan) && Follows(r, plan)
    requires scan.MetricsScanned? ==> Within(scan.findings, METRICS_RULES)
    requires scan.MetricsScanned? && !middleware ==> forall i :: 0 <= i < |scan.findings| ==> scan.findings[i].rule != MiddlewareDown
    ensures InScope(r) && r.scope <= Family(Metrics)
  {
    var n := if scan.MetricsScanned? then |scan.findings| else 0;
    forall i | 0 <= i < |r.findings| ensures r.findings[i].rule in r.scope {
      if i < n { assert r.findings[i] == scan.findings[i]; }
    }
  }

  lemma LogsPlanLegal(scan: LogScan, fails: nat, threshold: int, plan: Plan, r: Round)
    requires LogsPlanned(scan, fails, threshold, plan) && Follows(r, plan)
    requires scan.LogsScanned? ==> Within(scan.findings, {LogErrorSpike})
    ensures InScope(r) && r.scope <= Family(Logs)
  {
    var n := if scan.LogsScanned? then |scan.findings| else 0;
    forall i | 0 <= i < |r.findings| ensures r.findings[i].rule in r.scope {
      if i < n { assert r.findings[i] == scan.findings[i]; }
    }
  }

  lemma DockerPlanLegal(scan: ContainerScan, open: seq<Event>, emitCrashloop: bool, fails: nat, threshold: int, plan: Plan,
                        r: Round)
    requires DockerPlanned(scan, open, emitCrashloop, fails, threshold, plan) && Follows(r, plan)
    requires scan.DockerScanned? ==> Within(scan.findings, DOCKER_RULES)
    requires scan.DockerScanned? && scan.crashloops.Some? ==> Within(scan.crashloops.value, DOCKER_RULES)
    ensures InScope(r) && r.scope <= Family(Docker)
  {
    hide Held;
    var found := if scan.DockerScanned? then scan.findings else [];
    var loops := if scan.DockerScanned? && emitCrashloop && scan.crashloops.Some? then scan.crashloops.value else [];
    assert Within(found, DOCKER_RULES) && Within(loops, DOCKER_RULES);
    ScopeOf(r, found, loops, if fails >= threshold then [ScanFailure(ScanFailedDocker, "docker_scan")] else []);
  }

  lemma ScopeOf(r: Round, a: seq<Finding>, b: seq<Finding>, c: seq<Finding>)
    requires r.findings == a + b + c && Within(a, r.scope) && Within(b, r.scope) && Within(c, r.scope)
    ensures InScope(r)
  {
    forall i | 0 <= i < |r.findings| ensures r.findings[i].rule in r.scope {
      if i < |a| { assert r.findings[i] == a[i]; }
      else if i < |a| + |b| { assert r.findings[i] == b[i - |a|]; }
      else { assert r.findings[i] == c[i - |a| - |b|]; }
    }
  }

  // ---- No false recovery ----

  /** Row i was open and is resolved afterwards. */
  ghost predicate WasResolved(before: seq<Event>, after: seq<Event>, i: nat) {
    i < |before| <= |after| && before[i].status == Open && after[i].status == Resolved
  }

  /** What a round makes of the rows of its family, however other jobs interleave with it. */
  ghost predicate RoundChanged(r: Round, before: seq<Event>, after: seq<Event>) {
    after == Meaning(r, before)
  }

  /** An open row is resolved by a round exactly if it recovers, and no other row changes. */
  lemma RecoveredMeans(r: Round, before: seq<Event>, after: seq<Event>, i: nat)
    requires RoundChanged(r, before, after) && i < |before|
    ensures WasResolved(before, after, i) <==> Recovers(r, before[i])
    ensures i < |after| && (!WasResolved(before, after, i) ==> after[i] == before[i])
  {
    assert after[i] == OldRows(r, before)[i];
  }

  /** In every interleaving, from the start of a round of a job to its end: a row of the job's family is
      resolved exactly if it recovers, and no other row of the family changes. */
  lemma RecoveredAmongOthers(s: System, kind: JobKind, r: Round, trace: seq<Action>, i: nat, c: nat)
    requires Inv(s, c) && Legal(Begin(kind, r), c) && LegalTrace(trace, c) && JobOf(s, kind).Idle?
    requires forall i :: 0 <= i < |trace| ==> trace[i].kind == kind ==> trace[i].Step?
    requires JobOf(Run(Act(s, Begin(kind, r)), trace), kind).Idle?
    requires i < |FamilyRows(s.db.events, Family(kind))|
    ensures var before := FamilyRows(s.db.events, Family(kind));
            var after := FamilyRows(Run(Act(s, Begin(kind, r)), trace).db.events, Family(kind));
            && RoundChanged(r, before, after)
            && (WasResolved(before, after, i) <==> Recovers(r, before[i]))
            && i < |after| && (!WasResolved(before, after, i) ==> after[i] == before[i])
  {
    RoundAmongOthers(s, kind, r, trace, c);
    RecoveredMeans(r, FamilyRows(s.db.events, Family(kind)),
                   FamilyRows(Run(Act(s, Begin(kind, r)), trace).db.events, Family(kind)), i);
  }

  lemma MetricsRecovers(scan: MetricsScan, middleware: bool, fails: nat, threshold: int, plan: Plan, r: Round, e: Event)
    requires MetricsPlanned(scan, middleware, fails, threshold, plan) && Follows(r, plan) && Recovers(r, e)
    ensures e.rule in METRICS_RULES ==> scan.MetricsScanned? && !Mentions(scan.findings, EventKey(e))
    ensures e.rule == MiddlewareDown ==> middleware
    ensures EventKey(e) == (ScanFailedPrometheus, "metrics_scan") ==> fails < threshold
  {
    if scan.MetricsScanned? {
      forall k | 0 <= k < |scan.findings| ensures KeyOf(scan.findings[k]) in Firing(r, |r.findings|) {
        assert r.findings[k] == scan.findings[k];
      }
    }
    if fails >= threshold {
      assert r.findings[|r.findings| - 1] == ScanFailure(ScanFailedPrometheus, "metrics_scan");
    }
  }

  /** No event of a rule whose scan failed recovers; a scan-failure event recovers only while the
      failures are below the threshold; a middleware event only while middleware is configured. */
  lemma MetricsNoFalseRecovery(scan: MetricsScan, middleware: bool, fails: nat, threshold: int, plan: Plan,
                               r: Round, before: seq<Event>, after: seq<Event>, i: nat)
    requires MetricsPlanned(scan, middleware, fails, threshold, plan) && Follows(r, plan)
    requires RoundChanged(r, before, after) && WasResolved(before, after, i)
    ensures before[i].rule in METRICS_RULES ==> scan.MetricsScanned? && !Mentions(scan.findings, EventKey(before[i]))
    ensures before[i].rule == MiddlewareDown ==> middleware
    ensures EventKey(before[i]) == (ScanFailedPrometheus, "metrics_scan") ==> fails < threshold
  {
    RecoveredMeans(r, before, after, i);
    MetricsRecovers(scan, middleware, fails, threshold, plan, r, before[i]);
  }

  lemma LogsRecovers(scan: LogScan, fails: nat, threshold: int, plan: Plan, r: Round, e: Event)
    requires LogsPlanned(scan, fails, threshold, plan) && Follows(r, plan) && Recovers(r, e)
    ensures e.rule == LogErrorSpike ==> scan.LogsScanned? && !Mentions(scan.findings, EventKey(e))
    ensures EventKey(e) == (ScanFailedLoki, "log_scan") ==> fails < threshold
  {
    if scan.LogsScanned? {
      forall k | 0 <= k < |scan.findings| ensures KeyOf(scan.findings[k]) in Firing(r, |r.findings|) {
        assert r.findings[k] == scan.findings[k];
      }
    }
    if fails >= threshold {
      assert r.findings[|r.findings| - 1] == ScanFailure(ScanFailedLoki, "log_scan");
    }
  }

  lemma LogsNoFalseRecovery(scan: LogScan, fails: nat, threshold: int, plan: Plan,
                            r: Round, before: seq<Event>, after: seq<Event>, i: nat)
    requires LogsPlanned(scan, fails, threshold, plan) && Follows(r, plan)
    requires RoundChanged(r, before, after) && WasResolved(before, after, i)
    ensures before[i].rule == LogErrorSpike ==> scan.LogsScanned? && !Mentions(scan.findings, EventKey(before[i]))
    ensures EventKey(before[i]) == (ScanFailedLoki, "log_scan") ==> fails < threshold
  {
    RecoveredMeans(r, before, after, i);
    LogsRecovers(scan, fails, threshold, plan, r, before[i]);
  }

  lemma DockerRecovers(scan: ContainerScan, open: seq<Event>, emitCrashloop: bool, fails: nat, threshold: int, plan: Plan,
                       r: Round, e: Event, k: nat)
    requires DockerPlanned(scan, open, emitCrashloop, fails, threshold, plan) && Follows(r, plan) && Recovers(r, e)
    requires k < |open| && EventKey(open[k]) == EventKey(e)
    ensures e.rule in DOCKER_RULES ==> scan.DockerScanned? && !Mentions(scan.findings, EventKey(e))
    ensures e.rule in DOCKER_OPEN_RULES ==> scan.DockerScanned? && e.subject in scan.active
    ensures EventKey(e) == (ScanFailedDocker, "docker_scan") ==> fails < threshold
  {
    if scan.DockerScanned? {
      forall k | 0 <= k < |scan.findings| ensures KeyOf(scan.findings[k]) in Firing(r, |r.findings|) {
        assert r.findings[k] == scan.findings[k];
      }
    }
    if fails >= threshold {
      assert r.findings[|r.findings| - 1] == ScanFailure(ScanFailedDocker, "docker_scan");
    }
  }

  /** A container event recovers only if this round's scan returned, evaluated that container and
      found nothing. `open` is what `get_open_events` returned when the tick computed its holds. */
  lemma DockerNoFalseRecovery(scan: ContainerScan, open: seq<Event>, emitCrashloop: bool, fails: nat, threshold: int,
                              plan: Plan, r: Round, before: seq<Event>, after: seq<Event>, i: nat)
    requires DockerPlanned(scan, open, emitCrashloop, fails, threshold, plan) && Follows(r, plan)
    requires RoundChanged(r, before, after) && WasResolved(before, after, i)
    requires forall j :: 0 <= j < |before| && before[j].status == Open ==> HasKey(open, EventKey(before[j]))
    ensures before[i].rule in DOCKER_RULES ==> scan.DockerScanned? && !Mentions(scan.findings, EventKey(before[i]))
    ensures before[i].rule in DOCKER_OPEN_RULES ==> scan.DockerScanned? && before[i].subject in scan.active
    ensures EventKey(before[i]) == (ScanFailedDocker, "docker_scan") ==> fails < threshold
  {
    RecoveredMeans(r, before, after, i);
    var k :| 0 <= k < |open| && EventKey(open[k]) == EventKey(before[i]);
    DockerRecovers(scan, open, emitCrashloop, fails, threshold, plan, r, before[i], k);
  }

  // ---- No false recovery, over whole runs ----

  /** What a metrics tick hands over, for some count of failed scans; and so for the other ticks. */
  ghost predicate MetricsRound(r: Round, scan: MetricsScan, middleware: bool, threshold: int) {
    exists fails: nat, plan :: MetricsPlanned(scan, middleware, fails, threshold, plan) && Follows(r, plan)
  }

  ghost predicate LogsRound(r: Round, scan: LogScan, threshold: int) {
    exists fails: nat, plan :: LogsPlanned(scan, fails, threshold, plan) && Follows(r, plan)
  }

  /** The holds of a docker tick are computed from the events that are open when its round begins. */
  ghost predicate DockerRound(r: Round, scan: ContainerScan, events: seq<Event>, threshold: int) {
    exists open, emitCrashloop, fails: nat, plan ::
      DockerPlanned(scan, open, emitCrashloop, fails, threshold, plan) && Follows(r, plan) && KnowsOpen(open, events)
  }

  ghost predicate KnowsOpen(open: seq<Event>, events: seq<Event>) {
    forall k :: 0 <= k < |events| && events[k].status == Open ==> HasKey(open, EventKey(events[k]))
  }

  /** Whoever resolves an event of a family is the job of that family. */
  lemma ResolverOf(s: System, trace: seq<Action>, i: nat, j: nat, k: nat, kind: JobKind)
    requires RecoversIn(s, trace, i, j, k) && Run(s, trace[..k]).db.events[i].rule in Family(kind)
    ensures trace[j].kind == trace[k].kind == kind
  {
    hide Run, Recovers;
    if trace[k].kind != kind { FamiliesDisjoint(trace[k].kind, kind); }
  }

  /** Over every run of all jobs in which the metrics job begins only rounds that its ticks planned: if a
      metrics event recovers, then the scan of the very round that resolves it returned and did not find
      it; and the event was open when that round began. */
  lemma MetricsRunNoFalseRecovery(s: System, trace: seq<Action>, m: nat, i: nat, c: nat, scans: nat -> MetricsScan,
                                  middleware: bool, threshold: int) returns (j: nat, k: nat)
    requires Inv(s, c) && LegalTrace(trace, c) && (forall kind :: JobOf(s, kind).Idle?) && m <= |trace|
    requires i < |Run(s, trace[..m]).db.events| && Run(s, trace[..m]).db.events[i].status == Open
    requires i < |Run(s, trace).db.events| && Run(s, trace).db.events[i].status == Resolved
    requires Run(s, trace[..m]).db.events[i].rule in METRICS_RULES
    requires forall k :: 0 <= k < |trace| && trace[k].Begin? && trace[k].kind == Metrics ==>
      MetricsRound(trace[k].round, scans(k), middleware, threshold)
    ensures m <= k && RecoversIn(s, trace, i, j, k) && trace[j].kind == Metrics
    ensures scans(j).MetricsScanned? && !Mentions(scans(j).findings, EventKey(Run(s, trace[..m]).db.events[i]))
    ensures Run(s, trace[..m]).db.events[i].rule == MiddlewareDown ==> middleware
  {
    hide Run, Act, Inv, Recovers, MetricsPlanned, Follows;
    j, k := RecoveryHasItsRound(s, trace, m, i, c);
    ResolverOf(s, trace, i, j, k, Metrics);
    var fails: nat, plan :| MetricsPlanned(scans(j), middleware, fails, threshold, plan) && Follows(trace[j].round, plan);
    MetricsRecovers(scans(j), middleware, fails, threshold, plan, trace[j].round, Run(s, trace[..k]).db.events[i]);
  }

  /** Likewise for log events. */
  lemma LogsRunNoFalseRecovery(s: System, trace: seq<Action>, m: nat, i: nat, c: nat, scans: nat -> LogScan, threshold: int)
    returns (j: nat, k: nat)
    requires Inv(s, c) && LegalTrace(trace, c) && (forall kind :: JobOf(s, kind).Idle?) && m <= |trace|
    requires i < |Run(s, trace[..m]).db.events| && Run(s, trace[..m]).db.events[i].status == Open
    requires i < |Run(s, trace).db.events| && Run(s, trace).db.events[i].status == Resolved
    requires Run(s, trace[..m]).db.events[i].rule == LogErrorSpike
    requires forall k :: 0 <= k < |trace| && trace[k].Begin? && trace[k].kind == Logs ==>
      LogsRound(trace[k].round, scans(k), threshold)
    ensures m <= k && RecoversIn(s, trace, i, j, k) && trace[j].kind == Logs
    ensures scans(j).LogsScanned? && !Mentions(scans(j).findings, EventKey(Run(s, trace[..m]).db.events[i]))
  {
    hide Run, Act, Inv, Recovers, LogsPlanned, Follows;
    j, k := RecoveryHasItsRound(s, trace, m, i, c);
    ResolverOf(s, trace, i, j, k, Logs);
    var fails: nat, plan :| LogsPlanned(scans(j), fails, threshold, plan) && Follows(trace[j].round, plan);
    LogsRecovers(scans(j), fails, threshold, plan, trace[j].round, Run(s, trace[..k]).db.events[i]);
  }

  /** Likewise for container events: the scan returned, it did not find it, and for a stopped or unhealthy
      container that container was judged. */
  lemma DockerRunNoFalseRecovery(s: System, trace: seq<Action>, m: nat, i: nat, c: nat, scans: nat -> ContainerScan,
                                 threshold: int) returns (j: nat, k: nat)
    requires Inv(s, c) && LegalTrace(trace, c) && (forall kind :: JobOf(s, kind).Idle?) && m <= |trace|
    requires i < |Run(s, trace[..m]).db.events| && Run(s, trace[..m]).db.events[i].status == Open
    requires i < |Run(s, trace).db.events| && Run(s, trace).db.events[i].status == Resolved
    requires Run(s, trace[..m]).db.events[i].rule in DOCKER_RULES
    requires forall k :: 0 <= k < |trace| && trace[k].Begin? && trace[k].kind == Docker ==>
      DockerRound(trace[k].round, scans(k), Run(s, trace[..k]).db.events, threshold)
    ensures m <= k && RecoversIn(s, trace, i, j, k) && trace[j].kind == Docker
    ensures scans(j).DockerScanned? && !Mentions(scans(j).findings, EventKey(Run(s, trace[..m]).db.events[i]))
    ensures Run(s, trace[..m]).db.events[i].rule in DOCKER_OPEN_RULES ==>
      Run(s, trace[..m]).db.events[i].subject in scans(j).active
  {
    hide Run, Act, Inv, Recovers, DockerPlanned, Follows;
    j, k := RecoveryHasItsRound(s, trace, m, i, c);
    ResolverOf(s, trace, i, j, k, Docker);
    var events := Run(s, trace[..j]).db.events;
    var open, emitCrashloop, fails: nat, plan :|
      DockerPlanned(scans(j), open, emitCrashloop, fails, threshold, plan) && Follows(trace[j].round, plan) && KnowsOpen(open, events);
    assert HasKey(open, EventKey(events[i]));
    var n :| 0 <= n < |open| && EventKey(open[n]) == EventKey(events[i]);
    DockerRecovers(scans(j), open, emitCrashloop, fails, threshold, plan, trace[j].round, Run(s, trace[..k]).db.events[i], n);
  }
}
