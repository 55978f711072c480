/** The crash-loop detector: a tumbling window per container over a persistent baseline table, whose
    pruning must not be noticeable. */
module CrashLoop {
  import opened Basics

  /** One row of the baseline table: the restart count when the window opened, and when it did. */
  datatype Baseline = Baseline(count: int, start: int)

  /** A restart count seen at some time. */
  datatype Seen = Seen(at: int, count: int)

  datatype Crash = Crash(name: string, restartCount: int, delta: int, baselineCount: int)

  datatype Settings = Settings(threshold: int, window: int)

  /** The restart counts of one tick, in the order of the source's dict: names do not repeat. */
  datatype Tick = Tick(now: int, counts: seq<(string, int)>)

  const BASELINE_TTL := 86400

  ghost predicate Distinct(counts: seq<(string, int)>) {
    forall i, j :: 0 <= i < j < |counts| ==> counts[i].0 != counts[j].0
  }

  type Table = map<string, Baseline>

  function Get(t: Table, name: string): Option<Baseline> {
    if name in t then Some(t[name]) else None
  }

  // ---- One observation ----

  /** The restarts a container is reported with, if it is. */
  function Reported(s: Settings, b: Option<Baseline>, seen: Seen): Option<int> {
    if b.None? || seen.count < b.value.count then None
    else if seen.count - b.value.count >= s.threshold && seen.at - b.value.start <= s.window
    then Some(seen.count - b.value.count)
    else None
  }

  /** The window after an observation: opened by the first one, by a recreated container and by one
      that finds the window expired; a report leaves it alone. */
  function NextBaseline(s: Settings, b: Option<Baseline>, seen: Seen): Baseline {
    if b.None? || seen.count < b.value.count then Baseline(seen.count, seen.at)
    else if Reported(s, b, seen).Some? then b.value
    else if seen.at - b.value.start >= s.window then Baseline(seen.count, seen.at)
    else b.value
  }

  function Report(s: Settings, b: Option<Baseline>, name: string, seen: Seen): seq<Crash> {
    match Reported(s, b, seen)
    case None => []
    case Some(delta) => [Crash(name, seen.count, delta, seen.count - delta)]
  }

  // ---- One tick ----

  function Loop(s: Settings, t: Table, now: int, counts: seq<(string, int)>): (seq<Crash>, Table) {
    if counts == [] then ([], t)
    else
      var n := |counts| - 1;
      var (crashes, t') := Loop(s, t, now, counts[..n]);
      var (name, count) := counts[n];
      (crashes + Report(s, Get(t', name), name, Seen(now, count)),
       t'[name := NextBaseline(s, Get(t', name), Seen(now, count))])
  }

  function Max(a: int, b: int): int { if a >= b then a else b }

  function Prune(t: Table, olderThan: int): Table {
    map name | name in t && t[name].start >= olderThan :: t[name]
  }

  function Detect(s: Settings, t: Table, tick: Tick, prune: bool): (seq<Crash>, Table) {
    var (crashes, t') := Loop(s, t, tick.now, tick.counts);
    (crashes, if prune then Prune(t', tick.now - Max(BASELINE_TTL, s.window)) else t')
  }

  class BaselineStore {
    var rows: Table

    constructor ()
      ensures rows == map[]
    {
      rows := map[];
    }

    method GetRestartBaseline(name: string) returns (b: Option<Baseline>)
      ensures b == Get(rows, name)
    {
      b := if name in rows then Some(rows[name]) else None;
    }

    method UpsertRestartBaseline(name: string, count: int, start: int)
      modifies this
      ensures rows == old(rows)[name := Baseline(count, start)]
    {
      rows := rows[name := Baseline(count, start)];
    }

    method PruneRestartBaselines(olderThan: int)
      modifies this
      ensures rows == Prune(old(rows), olderThan)
    {
      rows := map name | name in rows && rows[name].start >= olderThan :: rows[name];
    }
  }

  lemma Unchanged(t: Table, name: string)
    requires name in t
    ensures t[name := t[name]] == t
  {}

  method DetectCrashloops(store: BaselineStore, s: Settings, tick: Tick) returns (crashes: seq<Crash>)
    modifies store
    ensures (crashes, store.rows) == Detect(s, old(store.rows), tick, true)
  {
    crashes := [];
    for i := 0 to |tick.counts|
      invariant (crashes, store.rows) == Loop(s, old(store.rows), tick.now, tick.counts[..i])
    {
      var (name, count) := tick.counts[i];
      assert tick.counts[..i + 1][..i] == tick.counts[..i];
      assert crashes + [] == crashes;
      var baseline := store.GetRestartBaseline(name);
      if baseline.None? {
        store.UpsertRestartBaseline(name, count, tick.now);
        continue;
      }
      Unchanged(store.rows, name);
      var Baseline(base, start) := baseline.value;
      if count < base {
        store.UpsertRestartBaseline(name, count, tick.now);
        continue;
      }
      var delta := count - base;
      if delta >= s.threshold && tick.now - start <= s.window {
        crashes := crashes + [Crash(name, count, delta, base)];
        continue;
      }
      if tick.now - start >= s.window {
        store.UpsertRestartBaseline(name, count, tick.now);
        continue;
      }
    }
    assert tick.counts[..|tick.counts|] == tick.counts;
    store.PruneRestartBaselines(tick.now - Max(BASELINE_TTL, s.window));
  }

  // ---- Whole runs ----

  /** The table after a run from the empty table. */
  function TableAfter(s: Settings, run: seq<Tick>, prune: bool): Table {
    if run == [] then map[]
    else Detect(s, TableAfter(s, run[..|run| - 1], prune), run[|run| - 1], prune).1
  }

  /** What the last tick of a run reports. */
  function LastReport(s: Settings, run: seq<Tick>, prune: bool): seq<Crash>
    requires run != []
  {
    Detect(s, TableAfter(s, run[..|run| - 1], prune), run[|run| - 1], prune).0
  }

  ghost predicate Clocked(run: seq<Tick>) {
    && (forall i, j :: 0 <= i < j < |run| ==> run[i].now <= run[j].now)
    && (forall i :: 0 <= i < |run| ==> Distinct(run[i].counts))
  }

  /** Where the pruned table lacks a row of the full one, that row's window is long over. */
  ghost predicate Prunes(s: Settings, p: Table, full: Table, now: int) {
    && (forall name :: name in p ==> name in full && full[name] == p[name])
    && (forall name :: name in full && name !in p ==> full[name].start < now - Max(BASELINE_TTL, s.window))
  }

  lemma {:induction false} LoopPrunes(s: Settings, p: Table, full: Table, then': int, now: int, counts: seq<(string, int)>)
    requires Prunes(s, p, full, then') && then' <= now && Distinct(counts)
    ensures Loop(s, p, now, counts).0 == Loop(s, full, now, counts).0
    ensures Prunes(s, Loop(s, p, now, counts).1, Loop(s, full, now, counts).1, now)
  {
    if counts != [] {
      var n := |counts| - 1;
      LoopPrunes(s, p, full, then', now, counts[..n]);
    }
  }

  /** Pruning is invisible: with and without it, every tick of a run with a non-decreasing clock
      reports the same, for every window length. */
  lemma {:induction false} PruningInvisible(s: Settings, run: seq<Tick>)
    requires Clocked(run)
    ensures run != [] ==> LastReport(s, run, true) == LastReport(s, run, false)
    ensures run != [] ==> Prunes(s, TableAfter(s, run, true), TableAfter(s, run, false), run[|run| - 1].now)
  {
    if run != [] {
      var n := |run| - 1;
      var before := run[..n];
      PruningInvisible(s, before);
      var p, full := TableAfter(s, before, true), TableAfter(s, before, false);
      LoopPrunes(s, p, full, if n == 0 then run[n].now else run[n - 1].now, run[n].now, run[n].counts);
    }
  }

  // ---- Each container by itself ----

  /** What a run saw of one container. */
  function History(run: seq<Tick>, name: string): seq<Seen> {
    if run == [] then []
    else History(run[..|run| - 1], name) + SeenIn(run[|run| - 1].now, run[|run| - 1].counts, name)
  }

  function SeenIn(now: int, counts: seq<(string, int)>, name: string): seq<Seen> {
    if counts == [] then []
    else
      var n := |counts| - 1;
      SeenIn(now, counts[..n], name) + if counts[n].0 == name then [Seen(now, counts[n].1)] else []
  }

  /** The window a container is in, from its own observations alone. */
  function WindowOf(s: Settings, h: seq<Seen>): Option<Baseline> {
    if h == [] then None else Some(NextBaseline(s, WindowOf(s, h[..|h| - 1]), h[|h| - 1]))
  }

  function CrashesOf(crashes: seq<Crash>, name: string): seq<Crash> {
    if crashes == [] then []
    else
      var n := |crashes| - 1;
      CrashesOf(crashes[..n], name) + if crashes[n].name == name then [crashes[n]] else []
  }

  lemma ReportFacts(s: Settings, b: Option<Baseline>, name: string, seen: Seen)
    ensures |Report(s, b, name, seen)| <= 1
    ensures forall c :: c in Report(s, b, name, seen) ==>
      && c.name == name && b.Some?
      && seen.at - b.value.start <= s.window
      && c.restartCount - b.value.count == c.delta >= s.threshold
  {}

  lemma CrashesAppend(a: seq<Crash>, s: Settings, b: Option<Baseline>, other: string, seen: Seen, name: string)
    ensures CrashesOf(a + Report(s, b, other, seen), name)
         == CrashesOf(a, name) + if other == name then Report(s, b, other, seen) else []
  {
    ReportFacts(s, b, other, seen);
    var more := Report(s, b, other, seen);
    if more == [] {
      assert a + more == a;
    } else {
      assert (a + [more[0]])[..|a|] == a;
    }
  }

  lemma WindowAppend(s: Settings, h: seq<Seen>, seen: Seen)
    ensures WindowOf(s, h + [seen]) == Some(NextBaseline(s, WindowOf(s, h), seen))
  {
    assert (h + [seen])[..|h|] == h;
  }

  lemma {:induction false} SeenInAbsent(now: int, counts: seq<(string, int)>, name: string)
    requires forall i :: 0 <= i < |counts| ==> counts[i].0 != name
    ensures SeenIn(now, counts, name) == []
  {
    if counts != [] { SeenInAbsent(now, counts[..|counts| - 1], name); }
  }

  lemma {:induction false} LoopOneContainer(s: Settings, t: Table, h: seq<Seen>, now: int, counts: seq<(string, int)>, name: string)
    requires Distinct(counts) && Get(t, name) == WindowOf(s, h)
    ensures var (crashes, t') := Loop(s, t, now, counts);
            var seen := SeenIn(now, counts, name);
            && Get(t', name) == WindowOf(s, h + seen)
            && |seen| <= 1
            && CrashesOf(crashes, name) == (if seen == [] then [] else Report(s, WindowOf(s, h), name, seen[0]))
  {
    if counts == [] {
      assert h + [] == h;
    } else {
      var n := |counts| - 1;
      var (crashes, t') := Loop(s, t, now, counts[..n]);
      var (other, count) := counts[n];
      LoopOneContainer(s, t, h, now, counts[..n], name);
      hide Report, NextBaseline, WindowOf, CrashesOf;
      CrashesAppend(crashes, s, Get(t', other), other, Seen(now, count), name);
      if other == name {
        SeenInAbsent(now, counts[..n], name);
        assert h + [] == h && SeenIn(now, counts, name) == [Seen(now, count)];
        WindowAppend(s, h, Seen(now, count));
      } else {
        assert h + SeenIn(now, counts, name) == h + SeenIn(now, counts[..n], name);
      }
    }
  }

  lemma {:induction false} TableIsHistory(s: Settings, run: seq<Tick>, name: string)
    requires forall i :: 0 <= i < |run| ==> Distinct(run[i].counts)
    ensures Get(TableAfter(s, run, false), name) == WindowOf(s, History(run, name))
  {
    hide Loop, Report, NextBaseline, CrashesOf, SeenIn;
    if run != [] {
      var n := |run| - 1;
      TableIsHistory(s, run[..n], name);
      LoopOneContainer(s, TableAfter(s, run[..n], false), History(run[..n], name), run[n].now, run[n].counts, name);
    }
  }

  /** The pruning detector reports of a container exactly what its own observations call for: no
      other container and no pruned row has any influence. */
  lemma ReportIsHistory(s: Settings, run: seq<Tick>, name: string)
    requires Clocked(run) && run != []
    ensures var n := |run| - 1;
            var seen := SeenIn(run[n].now, run[n].counts, name);
            CrashesOf(LastReport(s, run, true), name)
            == if seen == [] then [] else Report(s, WindowOf(s, History(run[..n], name)), name, seen[0])
  {
    var n := |run| - 1;
    PruningInvisible(s, run);
    TableIsHistory(s, run[..n], name);
    LoopOneContainer(s, TableAfter(s, run[..n], false), History(run[..n], name), run[n].now, run[n].counts, name);
  }

  // ---- Every report has a witness ----

  /** The window opened at observation k, and the container was not recreated since. */
  ghost predicate OpenedAt(b: Baseline, h: seq<Seen>, k: nat) {
    && k < |h|
    && b == Baseline(h[k].count, h[k].at)
    && forall m :: k <= m < |h| ==> h[m].count >= h[k].count
  }

  ghost predicate Opened(b: Baseline, h: seq<Seen>) {
    exists k :: OpenedAt(b, h, k)
  }

  lemma OpenedStays(s: Settings, b: Option<Baseline>, h: seq<Seen>, seen: Seen)
    requires b.Some? ==> Opened(b.value, h)
    ensures Opened(NextBaseline(s, b, seen), h + [seen])
  {
    var b' := NextBaseline(s, b, seen);
    if b.Some? && b' == b.value && seen.count >= b.value.count {
      var k :| OpenedAt(b.value, h, k);
      assert OpenedAt(b', h + [seen], k);
    } else {
      assert OpenedAt(b', h + [seen], |h|);
    }
  }

  /** Rows and reports of one tick come from observations, given that the rows before it did. */
  lemma {:induction false} LoopWitnessed(s: Settings, t: Table, h: seq<Seen>, now: int, counts: seq<(string, int)>, name: string)
    requires Distinct(counts) && (name in t ==> Opened(t[name], h))
    ensures var (crashes, t') := Loop(s, t, now, counts);
            && (name in t' ==> Opened(t'[name], h + SeenIn(now, counts, name)))
            && (forall c :: c in crashes && c.name == name ==>
                 exists b :: Opened(b, h) && now - b.start <= s.window && c.restartCount - b.count == c.delta >= s.threshold)
  {
    hide Report, NextBaseline, Opened;
    if counts == [] {
      assert h + [] == h;
    } else {
      var n := |counts| - 1;
      LoopWitnessed(s, t, h, now, counts[..n], name);
      var (other, count) := counts[n];
      var t' := Loop(s, t, now, counts[..n]).1;
      ReportFacts(s, Get(t', other), other, Seen(now, count));
      if other == name {
        SeenInAbsent(now, counts[..n], name);
        assert h + [] == h;
        OpenedStays(s, Get(t', name), h, Seen(now, count));
        assert SeenIn(now, counts, name) == [Seen(now, count)];
      } else {
        assert h + SeenIn(now, counts, name) == h + SeenIn(now, counts[..n], name);
      }
    }
  }

  lemma {:induction false} RowsWitnessed(s: Settings, run: seq<Tick>, name: string)
    requires forall i :: 0 <= i < |run| ==> Distinct(run[i].counts)
    ensures name in TableAfter(s, run, true) ==> Opened(TableAfter(s, run, true)[name], History(run, name))
  {
    if run != [] {
      var n := |run| - 1;
      RowsWitnessed(s, run[..n], name);
      LoopWitnessed(s, TableAfter(s, run[..n], true), History(run[..n], name), run[n].now, run[n].counts, name);
    }
  }

  /** A reported crash loop really happened, whatever the clocks did: an earlier observation of the
      same container, at most one window before, had a restart count lower by the reported number,
      which reaches the threshold, and the count never fell below it in between. */
  lemma ReportWitnessed(s: Settings, run: seq<Tick>, c: Crash) returns (k: nat)
    requires run != [] && forall i :: 0 <= i < |run| ==> Distinct(run[i].counts)
    requires c in LastReport(s, run, true)
    ensures var h := History(run[..|run| - 1], c.name);
            && k < |h|
            && run[|run| - 1].now - h[k].at <= s.window
            && c.restartCount - h[k].count == c.delta >= s.threshold
            && (forall m :: k <= m < |h| ==> h[m].count >= h[k].count)
  {
    var n := |run| - 1;
    var h := History(run[..n], c.name);
    RowsWitnessed(s, run[..n], c.name);
    LoopWitnessed(s, TableAfter(s, run[..n], true), h, run[n].now, run[n].counts, c.name);
    var b :| Opened(b, h) && run[n].now - b.start <= s.window && c.restartCount - b.count == c.delta >= s.threshold;
    k :| OpenedAt(b, h, k);
  }

  // ---- Exactly when a container is reported ----

  /** The observation ends a window that began with another: the container was recreated, the window is over,
      or it ends now without enough restarts. */
  predicate Ends(s: Settings, first: Seen, seen: Seen) {
    || seen.count < first.count
    || seen.at > first.at + s.window
    || (seen.at == first.at + s.window && seen.count < first.count + s.threshold)
  }

  /** Where the window of a history begins: with the first observation, or with the last that ended one. */
  function Began(s: Settings, h: seq<Seen>): (k: nat)
    requires h != []
    ensures k < |h|
  {
    var n := |h| - 1;
    if n == 0 then 0
    else
      var k := Began(s, h[..n]);
      if Ends(s, h[k], h[n]) then n else k
  }

  /** Nothing since has ended it, and what began it ended the window before. */
  lemma {:induction false} BeganMeans(s: Settings, h: seq<Seen>)
    requires h != []
    ensures var k := Began(s, h);
            && (forall m :: k < m < |h| ==> !Ends(s, h[k], h[m]))
            && (k > 0 ==> Ends(s, h[Began(s, h[..k])], h[k]))
  {
    var n := |h| - 1;
    if n > 0 {
      BeganMeans(s, h[..n]);
      var k := Began(s, h[..n]);
      assert h[..n][..k] == h[..k];
      forall m | k < m < n ensures h[..n][m] == h[m] {}
    }
  }

  lemma {:induction false} WindowBegan(s: Settings, h: seq<Seen>)
    requires h != []
    ensures var k := Began(s, h); WindowOf(s, h) == Some(Baseline(h[k].count, h[k].at))
  {
    var n := |h| - 1;
    if n > 0 { WindowBegan(s, h[..n]); } else { assert WindowOf(s, h[..0]) == None; }
  }

  /** In every run, a container is reported if and only if it was seen before and its count has risen by the
      threshold, and has not fallen, since its window began, which was no longer ago than the window is long.
      The report tells by how much. */
  lemma ReportedIff(s: Settings, run: seq<Tick>, name: string)
    requires Clocked(run) && run != []
    ensures var n := |run| - 1;
            var h, seen := History(run[..n], name), SeenIn(run[n].now, run[n].counts, name);
            var reports := CrashesOf(LastReport(s, run, true), name);
            if h == [] || seen == [] then reports == []
            else
              var first, last := h[Began(s, h)], seen[0];
              var rise := last.count - first.count;
              reports == if rise >= s.threshold && rise >= 0 && last.at <= first.at + s.window
                         then [Crash(name, last.count, rise, first.count)] else []
  {
    var n := |run| - 1;
    var h := History(run[..n], name);
    ReportIsHistory(s, run, name);
    if h != [] { WindowBegan(s, h); } else { assert WindowOf(s, h) == None; }
    hide LastReport, CrashesOf, SeenIn, History, Began, WindowOf;
  }
}
