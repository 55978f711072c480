/** The probe rules: which services are down or slow, and which of them were not judged. */
module ProbeRules {
  import opened Basics
  import opened Ordering
  import opened Incidents
  import opened IncidentRound
  import opened IncidentJobs
  import opened Patrol

  datatype Sample = Sample(ts: int, service: string, ok: bool, latency: Option<real>)

  predicate SampleByTs(a: Sample, b: Sample) { a.ts <= b.ts }

  function Newer(table: seq<Sample>, since: int): seq<Sample> {
    if table == [] then []
    else
      var n := |table| - 1;
      Newer(table[..n], since) + if table[n].ts >= since then [table[n]] else []
  }

  /** `get_probe_samples_since`. */
  function SamplesSince(table: seq<Sample>, since: int): seq<Sample> {
    Sort(Newer(table, since), SampleByTs)
  }

  function Of(window: seq<Sample>, name: string): seq<Sample> {
    if window == [] then []
    else
      var n := |window| - 1;
      Of(window[..n], name) + if window[n].service == name then [window[n]] else []
  }

  /** The settings of the probe rules. */
  datatype ProbeConfig = ProbeConfig(streak: int, minSamples: int, ratio: real, margin: real)

  /** The last `streak` samples exist and all failed. */
  predicate Down(samples: seq<Sample>, streak: int) {
    streak >= 1 && |samples| >= streak && forall i :: |samples| - streak <= i < |samples| ==> !samples[i].ok
  }

  predicate LastOk(samples: seq<Sample>) { samples != [] && samples[|samples| - 1].ok }

  // ---- Latencies ----

  function Latencies(samples: seq<Sample>): seq<real> {
    if samples == [] then []
    else
      var s := samples[|samples| - 1];
      Latencies(samples[..|samples| - 1]) + if s.ok && s.latency.Some? then [s.latency.value] else []
  }

  predicate AtMost(a: real, b: real) { a <= b }

  /** ceil(95 n / 100). */
  function Rank95(n: nat): (k: nat)
    requires n >= 1
    ensures 1 <= k <= n && 100 * (k - 1) < 95 * n <= 100 * k
  {
    (95 * n + 99) / 100
  }

  /** The nearest-rank percentile. */
  function P95(values: seq<real>): Option<real> {
    if values == [] then None else Some(Sort(values, AtMost)[Rank95(|values|) - 1])
  }

  function Sum(values: seq<real>): real {
    if values == [] then 0.0 else Sum(values[..|values| - 1]) + values[|values| - 1]
  }

  function Threshold(cfg: ProbeConfig, history: seq<real>): real
    requires history != []
  {
    var baseline := Sum(history) / |history| as real;
    if baseline * cfg.ratio >= baseline + cfg.margin then baseline * cfg.ratio else baseline + cfg.margin
  }

  /** There is a baseline of daily values, and the percentile of the hour exceeds its threshold. */
  predicate Slow(cfg: ProbeConfig, samples: seq<Sample>, history: seq<real>) {
    history != [] && P95(Latencies(samples)).Some? && P95(Latencies(samples)).value > Threshold(cfg, history)
  }

  function NoMoreThan(v: real): real -> bool { x => x <= v }

  function LessThan(v: real): real -> bool { x => x < v }

  /** What the percentile means: it is one of the values, at least 95 % of the values are no greater, and
      fewer than 95 % are less. */
  lemma P95Means(values: seq<real>)
    requires values != []
    ensures var v := P95(values).value;
            && v in values
            && 100 * CountIf(values, NoMoreThan(v)) >= 95 * |values|
            && 100 * CountIf(values, LessThan(v)) < 95 * |values|
  {
    hide Sort, Sorted, CountIf, NoMoreThan, LessThan, Rank95, TotalPreorder;
    var s, k := Sort(values, AtMost), Rank95(|values|);
    SortMultiset(values, AtMost);
    assert |multiset(s)| == |s|;
    SortMember(values, AtMost, s[k - 1]);
    AtMostTotal();
    SortSorted(values, AtMost);
    CountSort(values, AtMost, NoMoreThan(s[k - 1]));
    CountSort(values, AtMost, LessThan(s[k - 1]));
    RankCounts(s, k);
  }

  lemma AtMostTotal()
    ensures TotalPreorder(AtMost)
  {}

  lemma RankCounts(s: seq<real>, k: nat)
    requires Sorted(s, AtMost) && 1 <= k <= |s|
    ensures CountIf(s, NoMoreThan(s[k - 1])) >= k && CountIf(s, LessThan(s[k - 1])) <= k - 1
  {
    var v := s[k - 1];
    forall i | 0 <= i < k ensures NoMoreThan(v)(s[i]) { assert i < k - 1 ==> AtMost(s[i], s[k - 1]); }
    forall i | k - 1 <= i < |s| ensures !LessThan(v)(s[i]) { assert k - 1 < i ==> AtMost(s[k - 1], s[i]); }
    hide CountIf, Sorted;
    CountBounds(s, NoMoreThan(v), k);
    CountBounds(s, LessThan(v), k - 1);
  }

  function DownFinding(name: string): Finding {
    Finding(ServiceDown, name, "critical", "consecutive probe failures", map[], true, false)
  }

  function SlowFinding(name: string): Finding {
    Finding(LatencyDegraded, name, "warning", "p95 above baseline", map[], true, false)
  }

  /** Enough latencies to judge. */
  predicate Measured(cfg: ProbeConfig, samples: seq<Sample>) { |Latencies(samples)| >= cfg.minSamples }

  /** What one configured service contributes; `history` holds its recent daily percentiles. */
  function ServiceFindings(cfg: ProbeConfig, samples: seq<Sample>, name: string, history: seq<real>): seq<Finding> {
    if Down(samples, cfg.streak) then [DownFinding(name)]
    else if Measured(cfg, samples) && Slow(cfg, samples, history) then [SlowFinding(name)]
    else []
  }

  function ServiceHold(cfg: ProbeConfig, samples: seq<Sample>, name: string): set<Key> {
    if Down(samples, cfg.streak) then {(LatencyDegraded, name)}
    else
      (if LastOk(samples) then {} else {(ServiceDown, name)})
      + (if Measured(cfg, samples) then {} else {(LatencyDegraded, name)})
  }

  /** The result of the evaluation: with a streak of zero it raises at a service without samples. */
  datatype Evaluation = Raised | Evaluated(findings: seq<Finding>, hold: set<Key>)

  /** A service is reported down, or slow, exactly when its samples say so. */
  ghost predicate FindingsJudged(cfg: ProbeConfig, window: seq<Sample>, services: seq<string>, history: string -> seq<real>,
                                 findings: seq<Finding>) {
    && (forall i :: 0 <= i < |findings| ==>
         findings[i] == DownFinding(findings[i].subject) || findings[i] == SlowFinding(findings[i].subject))
    && (forall name :: Mentions(findings, (ServiceDown, name)) <==> name in services && Down(Of(window, name), cfg.streak))
    && (forall name :: Mentions(findings, (LatencyDegraded, name)) <==>
         name in services && !Down(Of(window, name), cfg.streak) && Measured(cfg, Of(window, name))
         && Slow(cfg, Of(window, name), history(name)))
  }

  /** A rule of a service is held exactly when its samples do not show that it recovered. */
  ghost predicate HoldJudged(cfg: ProbeConfig, window: seq<Sample>, services: seq<string>, hold: set<Key>) {
    && (forall key :: key in hold ==> key.0 in {ServiceDown, LatencyDegraded})
    && (forall name :: (ServiceDown, name) in hold <==>
         name in services && !Down(Of(window, name), cfg.streak) && !LastOk(Of(window, name)))
    && (forall name :: (LatencyDegraded, name) in hold <==>
         name in services && (Down(Of(window, name), cfg.streak) || !Measured(cfg, Of(window, name))))
  }

  /** Findings and holds, said per key. */
  ghost predicate Judged(cfg: ProbeConfig, window: seq<Sample>, services: seq<string>, history: string -> seq<real>,
                         findings: seq<Finding>, hold: set<Key>) {
    FindingsJudged(cfg, window, services, history, findings) && HoldJudged(cfg, window, services, hold)
  }

  /** `by_service`: the window grouped by service, in order. */
  method GroupByService(window: seq<Sample>) returns (byService: map<string, seq<Sample>>)
    ensures forall name :: (if name in byService then byService[name] else []) == Of(window, name)
  {
    hide Of;
    byService := map[];
    OfNone();
    for i := 0 to |window|
      invariant forall name :: (if name in byService then byService[name] else []) == Of(window[..i], name)
    {
      var s := window[i];
      OfNext(window, i);
      byService := byService[s.service := (if s.service in byService then byService[s.service] else []) + [s]];
    }
    assert window[..|window|] == window;
  }

  lemma OfNone()
    ensures forall name :: Of([], name) == []
  {}

  lemma OfNext(window: seq<Sample>, i: nat)
    requires i < |window|
    ensures forall name :: Of(window[..i + 1], name) == Of(window[..i], name) + if window[i].service == name then [window[i]] else []
  {
    assert window[..i + 1][..i] == window[..i];
  }

  lemma MentionsAppend(findings: seq<Finding>, more: seq<Finding>, key: Key)
    ensures Mentions(findings + more, key) <==> Mentions(findings, key) || Mentions(more, key)
  {
    var all := findings + more;
    if i :| 0 <= i < |findings| && KeyOf(findings[i]) == key { assert all[i] == findings[i]; }
    if i :| 0 <= i < |more| && KeyOf(more[i]) == key { assert all[|findings| + i] == more[i]; }
  }

  lemma MentionsOne(findings: seq<Finding>, key: Key)
    requires |findings| <= 1
    ensures Mentions(findings, key) <==> findings != [] && key == KeyOf(findings[0])
  {
    if findings != [] && key == KeyOf(findings[0]) { assert KeyOf(findings[0]) == key; }
  }

  lemma FindingsOneMore(cfg: ProbeConfig, window: seq<Sample>, services: seq<string>, name: string,
                        history: string -> seq<real>, findings: seq<Finding>)
    requires FindingsJudged(cfg, window, services, history, findings)
    ensures FindingsJudged(cfg, window, services + [name], history,
                           findings + ServiceFindings(cfg, Of(window, name), name, history(name)))
  {
    hide Down, Measured, Of, Mentions, Slow;
    var more := ServiceFindings(cfg, Of(window, name), name, history(name));
    forall key ensures Mentions(findings + more, key) <==> Mentions(findings, key) || Mentions(more, key) {
      MentionsAppend(findings, more, key);
    }
    forall key ensures Mentions(more, key) <==> more != [] && key == KeyOf(more[0]) {
      MentionsOne(more, key);
    }
    assert forall other :: other in services + [name] <==> other in services || other == name;
  }

  lemma HoldOneMore(cfg: ProbeConfig, window: seq<Sample>, services: seq<string>, name: string, hold: set<Key>)
    requires HoldJudged(cfg, window, services, hold)
    ensures HoldJudged(cfg, window, services + [name], hold + ServiceHold(cfg, Of(window, name), name))
  {
    hide Down, LastOk, Measured, Of;
    assert forall other :: other in services + [name] <==> other in services || other == name;
  }

  lemma JudgedNone(cfg: ProbeConfig, window: seq<Sample>, services: seq<string>, history: string -> seq<real>)
    requires services == []
    ensures Judged(cfg, window, services, history, [], {})
  {}

  method EvaluateProbeRules(cfg: ProbeConfig, window: seq<Sample>, services: seq<string>, history: string -> seq<real>)
    returns (result: Evaluation)
    ensures result.Raised? <==> cfg.streak == 0 && exists i :: 0 <= i < |services| && Of(window, services[i]) == []
    ensures result.Evaluated? ==> Judged(cfg, window, services, history, result.findings, result.hold)
  {
    hide FindingsJudged, HoldJudged, Down, LastOk, Of, Slow, Latencies;
    var findings: seq<Finding>, hold: set<Key> := [], {};
    JudgedNone(cfg, window, services[..0], history);
    var byService := GroupByService(window);
    for i := 0 to |services|
      invariant Judged(cfg, window, services[..i], history, findings, hold)
      invariant cfg.streak == 0 ==> forall k :: 0 <= k < i ==> Of(window, services[k]) != []
    {
      var name := services[i];
      var samples := if name in byService then byService[name] else [];
      if cfg.streak == 0 && samples == [] { return Raised; }
      FindingsOneMore(cfg, window, services[..i], name, history, findings);
      HoldOneMore(cfg, window, services[..i], name, hold);
      assert services[..i + 1] == services[..i] + [name];
      ghost var findings', hold' := findings + ServiceFindings(cfg, samples, name, history(name)),
                                    hold + ServiceHold(cfg, samples, name);
      if Down(samples, cfg.streak) {
        findings := findings + [DownFinding(name)];
        hold := hold + {(LatencyDegraded, name)};
        assert findings == findings' && hold == hold';
        continue;
      }
      if !LastOk(samples) { hold := hold + {(ServiceDown, name)}; }
      if |Latencies(samples)| < cfg.minSamples {
        hold := hold + {(LatencyDegraded, name)};
        assert findings == findings' && hold == hold';
        continue;
      }
      if Slow(cfg, samples, history(name)) { findings := findings + [SlowFinding(name)]; }
      assert findings == findings' && hold == hold';
    }
    assert services[..|services|] == services;
    return Evaluated(findings, hold);
  }

  /** What the tick hands over is a legal round of the probe job. */
  lemma ProbePlanLegal(cfg: ProbeConfig, window: seq<Sample>, services: seq<string>, history: string -> seq<real>,
                       findings: seq<Finding>, hold: set<Key>, r: Round)
    requires Judged(cfg, window, services, history, findings, hold)
    requires Follows(r, Plan(findings, {ServiceDown, LatencyDegraded}, hold))
    ensures InScope(r) && r.scope <= Family(Probe)
  {
    forall i | 0 <= i < |r.findings| ensures r.findings[i].rule in r.scope {
      assert findings[i] == DownFinding(findings[i].subject) || findings[i] == SlowFinding(findings[i].subject);
    }
  }

  lemma {:induction false} NewerTs(table: seq<Sample>, since: int, s: Sample)
    requires s in Newer(table, since)
    ensures s in table && s.ts >= since
  {
    if table != [] && s in Newer(table[..|table| - 1], since) { NewerTs(table[..|table| - 1], since, s); }
  }

  lemma {:induction false} OfMember(window: seq<Sample>, name: string, s: Sample)
    requires s in Of(window, name)
    ensures s in window && s.service == name
  {
    if window != [] && s in Of(window[..|window| - 1], name) { OfMember(window[..|window| - 1], name, s); }
  }

  lemma {:induction false} OfSorted(window: seq<Sample>, name: string)
    requires Sorted(window, SampleByTs)
    ensures Sorted(Of(window, name), SampleByTs)
  {
    if window != [] {
      var n := |window| - 1;
      OfSorted(window[..n], name);
      var rest := Of(window[..n], name);
      forall i | 0 <= i < |rest| ensures SampleByTs(rest[i], window[n]) { OfMember(window[..n], name, rest[i]); }
    }
  }

  lemma LatestOfHour(table: seq<Sample>, now: int, name: string) returns (last: Sample)
    requires Of(SamplesSince(table, now - 3600), name) != []
    ensures var samples := Of(SamplesSince(table, now - 3600), name); last == samples[|samples| - 1]
    ensures last in table && last.service == name && last.ts >= now - 3600
    ensures forall s :: s in Of(SamplesSince(table, now - 3600), name) ==> s.ts <= last.ts
  {
    var recent := Newer(table, now - 3600);
    var samples := Of(Sort(recent, SampleByTs), name);
    last := samples[|samples| - 1];
    OfMember(Sort(recent, SampleByTs), name, last);
    SortMember(recent, SampleByTs, last);
    NewerTs(table, now - 3600, last);
    SortSorted(recent, SampleByTs);
    OfSorted(Sort(recent, SampleByTs), name);
  }

  /** A configured service recovers only on evidence: its latest sample of the past hour is ok. */
  lemma ServiceRecovers(cfg: ProbeConfig, table: seq<Sample>, now: int, services: seq<string>,
                        history: string -> seq<real>, findings: seq<Finding>, hold: set<Key>, r: Round, e: Event)
    returns (last: Sample)
    requires Judged(cfg, SamplesSince(table, now - 3600), services, history, findings, hold)
    requires Follows(r, Plan(findings, {ServiceDown, LatencyDegraded}, hold)) && Recovers(r, e)
    requires e.rule == ServiceDown && e.subject in services
    ensures last in table && last.service == e.subject && last.ok && last.ts >= now - 3600
    ensures forall s :: s in Of(SamplesSince(table, now - 3600), e.subject) ==> s.ts <= last.ts
  {
    var name := e.subject;
    assert (ServiceDown, name) !in hold;
    assert !Mentions(findings, (ServiceDown, name)) by {
      forall k | 0 <= k < |findings| ensures KeyOf(findings[k]) != (ServiceDown, name) {
        assert KeyOf(r.findings[k]) in Firing(r, |r.findings|);
      }
    }
    last := LatestOfHour(table, now, name);
  }

  lemma ServiceNoFalseRecovery(cfg: ProbeConfig, table: seq<Sample>, now: int, services: seq<string>,
                               history: string -> seq<real>, findings: seq<Finding>, hold: set<Key>, r: Round,
                               before: seq<Event>, after: seq<Event>, i: nat) returns (last: Sample)
    requires Judged(cfg, SamplesSince(table, now - 3600), services, history, findings, hold)
    requires Follows(r, Plan(findings, {ServiceDown, LatencyDegraded}, hold))
    requires RoundChanged(r, before, after) && WasResolved(before, after, i)
    requires before[i].rule == ServiceDown && before[i].subject in services
    ensures last in table && last.service == before[i].subject && last.ok && last.ts >= now - 3600
    ensures forall s :: s in Of(SamplesSince(table, now - 3600), before[i].subject) ==> s.ts <= last.ts
  {
    RecoveredMeans(r, before, after, i);
    last := ServiceRecovers(cfg, table, now, services, history, findings, hold, r, before[i]);
  }

  /** What a probe tick hands over, given the samples and the time it saw. */
  ghost predicate ProbeRound(cfg: ProbeConfig, r: Round, table: seq<Sample>, now: int, services: seq<string>,
                             history: string -> seq<real>) {
    exists findings, hold :: Judged(cfg, SamplesSince(table, now - 3600), services, history, findings, hold)
                             && Follows(r, Plan(findings, {ServiceDown, LatencyDegraded}, hold))
  }

  /** Over every run of all jobs in which the probe job begins only rounds that its ticks planned: if a
      configured service recovers, then its latest sample of the hour before the very round that resolves
      it was ok; and the event was open when that round began. */
  lemma ServiceRunNoFalseRecovery(cfg: ProbeConfig, s: System, trace: seq<Action>, m: nat, i: nat, c: nat,
                                  tables: nat -> seq<Sample>, nows: nat -> int, services: seq<string>,
                                  histories: nat -> string -> seq<real>) returns (j: nat, k: nat, last: Sample)
    requires Inv(s, c) && LegalTrace(trace, c) && (forall kind :: JobOf(s, kind).Idle?) && m <= |trace|
    requires i < |Run(s, trace[..m]).db.events| && Run(s, trace[..m]).db.events[i].status == Open
    requires i < |Run(s, trace).db.events| && Run(s, trace).db.events[i].status == Resolved
    requires Run(s, trace[..m]).db.events[i].rule == ServiceDown && Run(s, trace[..m]).db.events[i].subject in services
    requires forall k :: 0 <= k < |trace| && trace[k].Begin? && trace[k].kind == Probe ==>
      ProbeRound(cfg, trace[k].round, tables(k), nows(k), services, histories(k))
    ensures m <= k && RecoversIn(s, trace, i, j, k) && trace[j].kind == Probe
    ensures var name := Run(s, trace[..m]).db.events[i].subject;
            && last in tables(j) && last.service == name && last.ok && last.ts >= nows(j) - 3600
            && forall x :: x in Of(SamplesSince(tables(j), nows(j) - 3600), name) ==> x.ts <= last.ts
  {
    hide Run, Act, Inv, Recovers, Judged, Follows, Of, SamplesSince;
    j, k := RecoveryHasItsRound(s, trace, m, i, c);
    ResolverOf(s, trace, i, j, k, Probe);
    var findings, hold :| Judged(cfg, SamplesSince(tables(j), nows(j) - 3600), services, histories(j), findings, hold)
                          && Follows(trace[j].round, Plan(findings, {ServiceDown, LatencyDegraded}, hold));
    last := ServiceRecovers(cfg, tables(j), nows(j), services, histories(j), findings, hold, trace[j].round,
                            Run(s, trace[..k]).db.events[i]);
  }

  /** A latency event recovers only if the service is up by its streak, was measured often enough this
      hour, and has no baseline yet or a percentile that does not exceed the threshold. */
  lemma LatencyNoFalseRecovery(cfg: ProbeConfig, window: seq<Sample>, services: seq<string>,
                               history: string -> seq<real>, findings: seq<Finding>, hold: set<Key>, r: Round,
                               before: seq<Event>, after: seq<Event>, i: nat)
    requires Judged(cfg, window, services, history, findings, hold)
    requires Follows(r, Plan(findings, {ServiceDown, LatencyDegraded}, hold))
    requires RoundChanged(r, before, after) && WasResolved(before, after, i)
    requires before[i].rule == LatencyDegraded && before[i].subject in services
    ensures var samples := Of(window, before[i].subject);
            !Down(samples, cfg.streak) && Measured(cfg, samples) && !Slow(cfg, samples, history(before[i].subject))
  {
    RecoveredMeans(r, before, after, i);
    var name := before[i].subject;
    assert (LatencyDegraded, name) !in hold;
  }
}
