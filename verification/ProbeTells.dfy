/** What the probe rules must say of a window of samples: said of its entries and their numbers, without the
    grouping, the streaks and the percentiles that compute it. */
module ProbeTells {
  import opened Basics
  import opened Ordering
  import opened Incidents
  import opened Patrol
  import opened ProbeRules

  // ---- The samples of a service ----

  function IsOf(name: string): Sample -> bool { (s: Sample) => s.service == name }

  /** A latency was measured. */
  function IsTimed(name: string): Sample -> bool { (s: Sample) => s.service == name && s.ok && s.latency.Some? }

  /** It was within one of two bounds. */
  function IsWithin(name: string, a: real, b: real): Sample -> bool {
    (s: Sample) => s.service == name && s.ok && s.latency.Some? && (s.latency.value <= a || s.latency.value <= b)
  }

  /** From some point of the window on, the service has `streak` samples, and all of them failed. */
  ghost predicate Fails(window: seq<Sample>, name: string, streak: int) {
    streak >= 1 && exists i :: 0 <= i <= |window| && FailsFrom(window, name, streak, i)
  }

  ghost predicate FailsFrom(window: seq<Sample>, name: string, streak: int, i: nat)
    requires i <= |window|
  {
    CountIf(window[i..], IsOf(name)) == streak && forall j :: i <= j < |window| && window[j].service == name ==> !window[j].ok
  }

  /** Its last sample succeeded. */
  ghost predicate EndsWell(window: seq<Sample>, name: string) {
    exists j :: 0 <= j < |window| && window[j].service == name && window[j].ok
                && forall k :: j < k < |window| ==> window[k].service != name
  }

  /** Fewer than 95 of a hundred latencies are within one of the bounds. */
  predicate Exceeds(window: seq<Sample>, name: string, a: real, b: real) {
    100 * CountIf(window, IsWithin(name, a, b)) < 95 * CountIf(window, IsTimed(name))
  }

  function Total(values: seq<real>): real {
    if values == [] then 0.0 else values[0] + Total(values[1..])
  }

  /** The mean of the daily values times the ratio, and the mean plus the margin. */
  function Bounds(cfg: ProbeConfig, history: seq<real>): (real, real)
    requires history != []
  {
    var mean := Total(history) / |history| as real;
    (mean * cfg.ratio, mean + cfg.margin)
  }

  /** There are daily values, and too many latencies exceed both bounds. */
  predicate Lags(cfg: ProbeConfig, window: seq<Sample>, name: string, history: seq<real>) {
    history != [] && Exceeds(window, name, Bounds(cfg, history).0, Bounds(cfg, history).1)
  }

  /** Exactly the services that fail are reported down, and exactly those are reported slow that do not fail,
      were measured often enough and lag. The rest is held back unless the service is seen to be well. */
  ghost predicate Tells(cfg: ProbeConfig, window: seq<Sample>, services: seq<string>, history: string -> seq<real>,
                        findings: seq<Finding>, hold: set<Key>) {
    && (forall f :: f in findings ==>
         (f.rule == ServiceDown && f.severity == "critical") || (f.rule == LatencyDegraded && f.severity == "warning"))
    && (forall name :: Mentions(findings, (ServiceDown, name)) <==> name in services && Fails(window, name, cfg.streak))
    && (forall name :: Mentions(findings, (LatencyDegraded, name)) <==>
         && name in services && !Fails(window, name, cfg.streak) && CountIf(window, IsTimed(name)) >= cfg.minSamples
         && Lags(cfg, window, name, history(name)))
    && (forall rule, name :: (rule, name) in hold <==>
         && name in services
         && if rule == ServiceDown then !Fails(window, name, cfg.streak) && !EndsWell(window, name)
            else rule == LatencyDegraded && (Fails(window, name, cfg.streak) || CountIf(window, IsTimed(name)) < cfg.minSamples))
  }

  // ---- What the window is ----

  lemma {:induction false} NewerMember(table: seq<Sample>, since: int, s: Sample)
    ensures s in Newer(table, since) <==> s in table && s.ts >= since
  {
    if table != [] {
      var n := |table| - 1;
      NewerMember(table[..n], since, s);
      assert s in table <==> s in table[..n] || s == table[n];
    }
  }

  /** The window holds exactly the samples since its beginning, in order of time. */
  lemma WindowMeans(table: seq<Sample>, since: int, s: Sample)
    ensures s in SamplesSince(table, since) <==> s in table && s.ts >= since
    ensures forall i, j :: 0 <= i < j < |SamplesSince(table, since)| ==>
      SamplesSince(table, since)[i].ts <= SamplesSince(table, since)[j].ts
  {
    NewerMember(table, since, s);
    SortMember(Newer(table, since), SampleByTs, s);
    assert TotalPreorder(SampleByTs);
    SortSorted(Newer(table, since), SampleByTs);
    forall i, j | 0 <= i < j < |SamplesSince(table, since)|
      ensures SamplesSince(table, since)[i].ts <= SamplesSince(table, since)[j].ts
    {
      assert SampleByTs(SamplesSince(table, since)[i], SamplesSince(table, since)[j]);
    }
  }

  // ---- What the grouping means ----

  lemma {:induction false} OfConcat(a: seq<Sample>, b: seq<Sample>, name: string)
    ensures Of(a + b, name) == Of(a, name) + Of(b, name)
  {
    if b == [] {
      assert a + b == a;
    } else {
      var n := |b| - 1;
      assert (a + b)[..|a| + n] == a + b[..n];
      OfConcat(a, b[..n], name);
    }
  }

  lemma {:induction false} OfCount(window: seq<Sample>, name: string)
    ensures |Of(window, name)| == CountIf(window, IsOf(name))
  {
    if window != [] { OfCount(window[..|window| - 1], name); }
  }

  lemma {:induction false} InOf(window: seq<Sample>, name: string, s: Sample)
    ensures s in Of(window, name) <==> s in window && s.service == name
  {
    if window != [] {
      var n := |window| - 1;
      InOf(window[..n], name, s);
      assert s in window <==> s in window[..n] || s == window[n];
    }
  }

  lemma SplitOf(window: seq<Sample>, name: string, i: nat)
    requires i <= |window|
    ensures Of(window, name) == Of(window[..i], name) + Of(window[i..], name)
  {
    assert window == window[..i] + window[i..];
    OfConcat(window[..i], window[i..], name);
  }

  /** Some end of the window holds exactly the last k samples of the service. */
  lemma {:induction false} EndWith(window: seq<Sample>, name: string, k: nat) returns (i: nat)
    requires k <= |Of(window, name)|
    ensures i <= |window| && |Of(window[i..], name)| == k
  {
    if |Of(window, name)| == k {
      i := 0;
      assert window[0..] == window;
    } else {
      SplitOf(window, name, 1);
      assert Of(window[..1], name) == if window[0].service == name then [window[0]] else [] by {
        assert window[..1][..0] == [];
      }
      var j := EndWith(window[1..], name, k);
      i := j + 1;
      assert window[1..][j..] == window[i..];
    }
  }

  lemma FailsFromMeans(window: seq<Sample>, name: string, streak: nat, i: nat)
    requires i <= |window| && |Of(window[i..], name)| == streak
    ensures |Of(window, name)| >= streak
    ensures FailsFrom(window, name, streak, i) <==>
      forall k :: |Of(window, name)| - streak <= k < |Of(window, name)| ==> !Of(window, name)[k].ok
  {
    var all, end := Of(window, name), Of(window[i..], name);
    SplitOf(window, name, i);
    OfCount(window[i..], name);
    var d := |all| - streak;
    assert forall k :: 0 <= k < streak ==> end[k] == all[d + k];
    forall s { InOf(window[i..], name, s); }
    hide Of, CountIf;
    if FailsFrom(window, name, streak, i) {
      forall k | d <= k < |all| ensures !all[k].ok {
        InOf(window[i..], name, end[k - d]);
        var j :| 0 <= j < |window[i..]| && window[i..][j] == end[k - d];
        assert window[i + j] == all[k];
      }
    }
    if forall k :: d <= k < |all| ==> !all[k].ok {
      forall j | i <= j < |window| && window[j].service == name ensures !window[j].ok {
        assert window[i..][j - i] == window[j];
        InOf(window[i..], name, window[j]);
        var k :| 0 <= k < |end| && end[k] == window[j];
        assert all[d + k] == window[j];
      }
    }
  }

  lemma DownMeans(window: seq<Sample>, name: string, streak: int)
    ensures Down(Of(window, name), streak) <==> Fails(window, name, streak)
  {
    var all := Of(window, name);
    if Down(all, streak) {
      var i := EndWith(window, name, streak);
      FailsFromMeans(window, name, streak, i);
    }
    if Fails(window, name, streak) {
      var i :| 0 <= i <= |window| && FailsFrom(window, name, streak, i);
      OfCount(window[i..], name);
      SplitOf(window, name, i);
      FailsFromMeans(window, name, streak, i);
    }
  }

  lemma {:induction false} LastOkMeans(window: seq<Sample>, name: string)
    ensures LastOk(Of(window, name)) <==> EndsWell(window, name)
  {
    if window != [] {
      var n := |window| - 1;
      LastOkMeans(window[..n], name);
      if window[n].service == name {
        if window[n].ok { assert EndsWell(window, name); }
      } else {
        assert Of(window, name) == Of(window[..n], name);
        if EndsWell(window[..n], name) {
          var j :| 0 <= j < n && window[j].service == name && window[j].ok
                   && forall k :: j < k < n ==> window[..n][k].service != name;
          assert forall k :: j < k < |window| ==> window[k].service != name by {
            forall k | j < k < n ensures window[k].service != name { assert window[..n][k] == window[k]; }
          }
        }
        if EndsWell(window, name) {
          var j :| 0 <= j < |window| && window[j].service == name && window[j].ok
                   && forall k :: j < k < |window| ==> window[k].service != name;
          assert window[..n][j] == window[j];
        }
      }
    }
  }

  // ---- What the percentile means ----

  lemma {:induction false} CountMore<T>(xs: seq<T>, p: T -> bool, q: T -> bool)
    requires forall i :: 0 <= i < |xs| && p(xs[i]) ==> q(xs[i])
    ensures CountIf(xs, p) <= CountIf(xs, q)
  {
    if xs != [] { CountMore(xs[..|xs| - 1], p, q); }
  }

  /** The percentile exceeds a bound exactly if fewer than 95 of a hundred values are within it. */
  lemma ExceedsIff(values: seq<real>, bound: real)
    ensures P95(values).Some? && P95(values).value > bound <==> 100 * CountIf(values, NoMoreThan(bound)) < 95 * |values|
  {
    if values != [] {
      P95Means(values);
      hide P95, CountIf;
      var v := P95(values).value;
      if v > bound {
        CountMore(values, NoMoreThan(bound), LessThan(v));
      } else {
        CountMore(values, NoMoreThan(v), NoMoreThan(bound));
      }
    }
  }

  lemma LatenciesNext(samples: seq<Sample>, s: Sample, p: real -> bool)
    ensures CountIf(Latencies(samples + [s]), p)
         == CountIf(Latencies(samples), p) + if s.ok && s.latency.Some? && p(s.latency.value) then 1 else 0
  {
    var values := Latencies(samples);
    assert (samples + [s])[..|samples|] == samples;
    if s.ok && s.latency.Some? {
      assert Latencies(samples + [s]) == values + [s.latency.value];
      assert (values + [s.latency.value])[..|values|] == values;
    } else {
      assert Latencies(samples + [s]) == values + [] == values;
    }
  }

  /** Counting the latencies of a service in the window. */
  lemma {:induction false} LatenciesCount(window: seq<Sample>, name: string, p: real -> bool, q: Sample -> bool)
    requires forall s :: q(s) == (s.service == name && s.ok && s.latency.Some? && p(s.latency.value))
    ensures CountIf(Latencies(Of(window, name)), p) == CountIf(window, q)
  {
    hide Latencies;
    if window != [] {
      var n := |window| - 1;
      LatenciesCount(window[..n], name, p, q);
      LatenciesNext(Of(window[..n], name), window[n], p);
      assert Of(window[..n], name) + [] == Of(window[..n], name);
    } else {
      NoLatencies(p);
    }
  }

  lemma NoLatencies(p: real -> bool)
    ensures CountIf(Latencies([]), p) == 0
  {}

  lemma {:induction false} CountAll<T>(xs: seq<T>, p: T -> bool)
    requires forall x :: p(x)
    ensures CountIf(xs, p) == |xs|
  {
    if xs != [] { CountAll(xs[..|xs| - 1], p); }
  }

  lemma MeasuredMeans(window: seq<Sample>, name: string)
    ensures |Latencies(Of(window, name))| == CountIf(window, IsTimed(name))
  {
    var any := (x: real) => true;
    LatenciesCount(window, name, any, IsTimed(name));
    CountAll(Latencies(Of(window, name)), any);
  }

  lemma WithinMeans(window: seq<Sample>, name: string, a: real, b: real)
    ensures CountIf(Latencies(Of(window, name)), NoMoreThan(if a >= b then a else b)) == CountIf(window, IsWithin(name, a, b))
  {
    LatenciesCount(window, name, NoMoreThan(if a >= b then a else b), IsWithin(name, a, b));
  }

  lemma SlowBounds(cfg: ProbeConfig, window: seq<Sample>, name: string, history: seq<real>, a: real, b: real)
    requires history != [] && Threshold(cfg, history) == if a >= b then a else b
    ensures Slow(cfg, Of(window, name), history) <==> Exceeds(window, name, a, b)
  {
    hide CountIf, Latencies, Of, NoMoreThan, IsWithin, IsTimed, P95, Threshold;
    ExceedsIff(Latencies(Of(window, name)), Threshold(cfg, history));
    MeasuredMeans(window, name);
    WithinMeans(window, name, a, b);
  }

  lemma {:induction false} SumMeans(values: seq<real>)
    ensures Sum(values) == Total(values)
  {
    if |values| > 1 {
      var n := |values| - 1;
      SumMeans(values[..n]);
      SumMeans(values[1..]);
      SumMeans(values[1..][..n - 1]);
      assert values[1..][..n - 1] == values[..n][1..];
    }
  }

  lemma BoundsMeans(cfg: ProbeConfig, history: seq<real>)
    requires history != []
    ensures var (a, b) := Bounds(cfg, history); Threshold(cfg, history) == if a >= b then a else b
  {
    SumMeans(history);
    hide Sum, Total;
  }

  lemma SlowMeans(cfg: ProbeConfig, window: seq<Sample>, name: string, history: seq<real>)
    ensures Slow(cfg, Of(window, name), history) <==> Lags(cfg, window, name, history)
  {
    hide Bounds, Exceeds, Threshold;
    if history != [] {
      BoundsMeans(cfg, history);
      SlowBounds(cfg, window, name, history, Bounds(cfg, history).0, Bounds(cfg, history).1);
    }
  }

  // ---- The law ----

  lemma KindsOf(findings: seq<Finding>)
    requires forall i :: 0 <= i < |findings| ==>
      findings[i] == DownFinding(findings[i].subject) || findings[i] == SlowFinding(findings[i].subject)
    ensures forall f :: f in findings ==>
      (f.rule == ServiceDown && f.severity == "critical") || (f.rule == LatencyDegraded && f.severity == "warning")
  {
    forall f | f in findings
      ensures (f.rule == ServiceDown && f.severity == "critical") || (f.rule == LatencyDegraded && f.severity == "warning")
    {
      var i :| 0 <= i < |findings| && findings[i] == f;
      assert f == DownFinding(f.subject) || f == SlowFinding(f.subject);
    }
  }

  /** Whatever the evaluation returns tells this of its window. */
  lemma JudgedTells(cfg: ProbeConfig, window: seq<Sample>, services: seq<string>, history: string -> seq<real>,
                    findings: seq<Finding>, hold: set<Key>)
    requires Judged(cfg, window, services, history, findings, hold)
    ensures Tells(cfg, window, services, history, findings, hold)
  {
    KindsOf(findings);
    forall name
      ensures Down(Of(window, name), cfg.streak) <==> Fails(window, name, cfg.streak)
      ensures LastOk(Of(window, name)) <==> EndsWell(window, name)
      ensures Measured(cfg, Of(window, name)) <==> CountIf(window, IsTimed(name)) >= cfg.minSamples
      ensures Slow(cfg, Of(window, name), history(name)) <==> Lags(cfg, window, name, history(name))
    {
      DownMeans(window, name, cfg.streak);
      LastOkMeans(window, name);
      MeasuredMeans(window, name);
      SlowMeans(cfg, window, name, history(name));
    }
    hide Down, Fails, LastOk, EndsWell, Measured, Slow, Lags, Of, CountIf, Mentions;
    forall rule, name ensures (rule, name) in hold <==>
      && name in services
      && if rule == ServiceDown then !Fails(window, name, cfg.streak) && !EndsWell(window, name)
         else rule == LatencyDegraded && (Fails(window, name, cfg.streak) || CountIf(window, IsTimed(name)) < cfg.minSamples)
    {}
  }
}
