/** What a turn of the poller must tell, over every run: exactly when a card is sent, suppressed or held and
    when an outage is reported. Said of the log alone, without the functions that take the turn. */
module PollerTells {
  import opened Basics
  import opened Differ
  import opened Poller

  /** Some event is about an incident of major or critical impact or that mentions an outage, about a component
      in partial or major outage, or about an indicator that became major or critical. */
  predicate Pressing(events: seq<Event>) {
    exists k :: 0 <= k < |events| &&
      match events[k]
      case Opened(x) => x.impact == Major || x.impact == Critical || x.mentionsOutage
      case Updated(x) => x.impact == Major || x.impact == Critical || x.mentionsOutage
      case Resolved(x) => x.impact == Major || x.impact == Critical || x.mentionsOutage
      case ComponentRecovered(c) => c.status == PartialOutage || c.status == MajorOutage
      case ComponentDegraded(c) => c.status == PartialOutage || c.status == MajorOutage
      case IndicatorChanged(i) => i == Major || i == Critical
      case Baseline => false
  }

  /** The snapshot of a provider that was stored last. */
  function LastStored(log: seq<Obs>, provider: string): Option<Snapshot> {
    if log == [] then None
    else
      var o := log[|log| - 1];
      if o.Stored? && o.provider == provider then Some(o.snapshot) else LastStored(log[..|log| - 1], provider)
  }

  predicate GapOver(cfg: Settings, log: seq<Obs>, provider: string, at: int) {
    LastSent(log, provider).None? || at >= LastSent(log, provider).value + cfg.minGap
  }

  /** A fetched snapshot is compared with the one stored last. A difference is carded if the send reaches a
      channel, unless it is not pressing and either comes within the gap or is suppressed. The snapshot is
      stored with its card, when its card is suppressed, and when there is no difference. */
  ghost predicate SnapshotTells(cfg: Settings, log: seq<Obs>, t: Turn, news: seq<Obs>)
    requires t.fetched.Some?
  {
    var p, snapshot := t.provider, t.fetched.value;
    var events := Diff(LastStored(log, p), snapshot, cfg.verbose);
    var dropped := events != [] && !Pressing(events) && GapOver(cfg, log, p, t.at) && cfg.gate && t.suppress;
    var carded := events != [] && t.delivered >= 1
                  && (Pressing(events) || (GapOver(cfg, log, p, t.at) && !(cfg.gate && t.suppress)));
    news == [Fetched(p)]
            + (if carded then [Card(p, events, t.at, t.sentAt)] else if dropped then [Suppressed(p)] else [])
            + (if carded || dropped || events == [] then [Stored(p, snapshot)] else [])
  }

  /** A failed fetch is reported if it makes enough failures in a row, none of them reported yet, and the
      report reaches a channel. */
  ghost predicate FailureTells(cfg: Settings, log: seq<Obs>, t: Turn, news: seq<Obs>) {
    var p := t.provider;
    var reported := FailedInARow(log, p) + 1 >= cfg.failThreshold && !ReportedDown(log, p) && t.delivered >= 1;
    news == [FetchFailed(p)] + if reported then [Meta(p)] else []
  }

  lemma StoredAppend(log: seq<Obs>, o: Obs, provider: string)
    ensures LastStored(log + [o], provider)
      == if o.Stored? && o.provider == provider then Some(o.snapshot) else LastStored(log, provider)
  {
    assert (log + [o])[..|log|] == log;
  }

  ghost predicate StoreOfLog(s: State) {
    forall p :: LastStored(s.log, p) == Snap(s, p)
  }

  lemma OtherStored(s: State, s': State, o: Obs)
    requires StoreOfLog(s) && s'.store == s.store && s'.log == s.log + [o] && !o.Stored?
    ensures StoreOfLog(s')
  {
    forall p ensures LastStored(s'.log, p) == Snap(s', p) {
      StoredAppend(s.log, o, p);
      assert LastStored(s.log, p) == Snap(s, p);
    }
  }

  lemma CommitStored(s: State, p: string, snapshot: Snapshot)
    requires StoreOfLog(s)
    ensures StoreOfLog(Commit(s, p, snapshot))
  {
    var s' := Commit(s, p, snapshot);
    forall q ensures LastStored(s'.log, q) == Snap(s', q) {
      StoredAppend(s.log, Stored(p, snapshot), q);
      assert LastStored(s.log, q) == Snap(s, q);
    }
  }

  lemma TurnStored(cfg: Settings, s: State, t: Turn)
    requires StoreOfLog(s)
    ensures StoreOfLog(TakeTurn(cfg, s, t))
  {
    var p := t.provider;
    match t.fetched
    case None =>
      var s1 := s.(fails := s.fails[p := Fails(s, p) + 1], log := s.log + [FetchFailed(p)]);
      OtherStored(s, s1, FetchFailed(p));
      if TakeTurn(cfg, s, t) != s1 { OtherStored(s1, TakeTurn(cfg, s, t), Meta(p)); }
    case Some(snapshot) =>
      hide StoreOfLog, Diff, Urgent;
      var s1 := s.(fails := s.fails[p := 0], metaSent := s.metaSent - {p}, log := s.log + [Fetched(p)]);
      var events := Diff(Snap(s, p), snapshot, cfg.verbose);
      var s2 := s1.(log := s1.log + [Suppressed(p)]);
      var s3 := s1.(lastCard := s1.lastCard[p := t.sentAt], log := s1.log + [Card(p, events, t.at, t.sentAt)]);
      OtherStored(s, s1, Fetched(p));
      OtherStored(s1, s2, Suppressed(p));
      OtherStored(s1, s3, Card(p, events, t.at, t.sentAt));
      CommitStored(s1, p, snapshot);
      CommitStored(s2, p, snapshot);
      CommitStored(s3, p, snapshot);
  }

  lemma {:induction false} RunStored(cfg: Settings, turns: seq<Turn>)
    ensures StoreOfLog(Run(cfg, EMPTY, turns))
  {
    if turns != [] {
      var n := |turns| - 1;
      RunStored(cfg, turns[..n]);
      TurnStored(cfg, Run(cfg, EMPTY, turns[..n]), turns[n]);
    }
  }

  lemma PressingMeans(events: seq<Event>)
    ensures Pressing(events) <==> Urgent(events)
  {
    if Urgent(events) {
      var k :| 0 <= k < |events| && UrgentEvent(events[k]);
      assert Pressing(events);
    }
    if Pressing(events) {
      assert exists k :: 0 <= k < |events| && UrgentEvent(events[k]);
    }
  }

  lemma GapMeans(cfg: Settings, s: State, provider: string, at: int)
    requires Counted(s)
    ensures GapOver(cfg, s.log, provider, at) <==> !TooSoon(cfg, s, provider, at)
  {}

  lemma SnapshotNews(cfg: Settings, s: State, t: Turn)
    requires Counted(s) && StoreOfLog(s) && t.fetched.Some?
    ensures |TakeTurn(cfg, s, t).log| >= |s.log| && TakeTurn(cfg, s, t).log[..|s.log|] == s.log
    ensures SnapshotTells(cfg, s.log, t, TakeTurn(cfg, s, t).log[|s.log|..])
  {
    PressingMeans(Diff(Snap(s, t.provider), t.fetched.value, cfg.verbose));
    GapMeans(cfg, s, t.provider, t.at);
    hide Diff, Pressing, Urgent, GapOver, TooSoon, Counted;
  }

  lemma FailureNews(cfg: Settings, s: State, t: Turn)
    requires Counted(s) && t.fetched.None?
    ensures |TakeTurn(cfg, s, t).log| >= |s.log| && TakeTurn(cfg, s, t).log[..|s.log|] == s.log
    ensures FailureTells(cfg, s.log, t, TakeTurn(cfg, s, t).log[|s.log|..])
  {
    assert Fails(s, t.provider) == FailedInARow(s.log, t.provider);
    hide FailedInARow, ReportedDown;
  }

  /** The last turn of every run tells exactly this, and takes back nothing. */
  lemma TurnTells(cfg: Settings, turns: seq<Turn>, t: Turn)
    ensures var log, log' := Run(cfg, EMPTY, turns).log, Run(cfg, EMPTY, turns + [t]).log;
            && |log| <= |log'| && log'[..|log|] == log
            && if t.fetched.Some? then SnapshotTells(cfg, log, t, log'[|log|..]) else FailureTells(cfg, log, t, log'[|log|..])
  {
    assert (turns + [t])[..|turns|] == turns;
    var s := Run(cfg, EMPTY, turns);
    assert Run(cfg, EMPTY, turns + [t]) == TakeTurn(cfg, s, t);
    RunCounted(cfg, turns);
    RunStored(cfg, turns);
    hide *;
    if t.fetched.Some? { SnapshotNews(cfg, s, t); } else { FailureNews(cfg, s, t); }
  }
}
