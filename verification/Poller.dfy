/** The poll cycle over the providers' status pages: a snapshot is committed only with its card, cards
    that are not urgent keep a minimum gap, and a failing provider is reported once per outage. */
module Poller {
  import opened Basics
  import opened Differ

  datatype Settings = Settings(verbose: bool, failThreshold: int, minGap: int, gate: bool)

  /** What one provider's turn meets: the fetched snapshot or nothing, the monotonic time when the gap
      is checked, whether the editor would suppress the card, how many channels the message reached,
      and the time after it was sent. */
  datatype Turn = Turn(provider: string, fetched: Option<Snapshot>, at: int, suppress: bool, delivered: nat, sentAt: int)

  datatype Obs =
    | Card(provider: string, events: seq<Event>, at: int, sentAt: int)
    | Suppressed(provider: string)
    | Stored(provider: string, snapshot: Snapshot)
    | Meta(provider: string)
    | FetchFailed(provider: string)
    | Fetched(provider: string)

  datatype State = State(
    fails: map<string, nat>, metaSent: set<string>, lastCard: map<string, int>, store: map<string, Snapshot>,
    log: seq<Obs>)

  const EMPTY := State(map[], {}, map[], map[], [])

  // ---- Urgency ----

  predicate UrgentEvent(e: Event) {
    match e
    case Opened(inc) => inc.impact in {Major, Critical} || inc.mentionsOutage
    case Updated(inc) => inc.impact in {Major, Critical} || inc.mentionsOutage
    case Resolved(inc) => inc.impact in {Major, Critical} || inc.mentionsOutage
    case ComponentRecovered(c) => c.status in {PartialOutage, MajorOutage}
    case ComponentDegraded(c) => c.status in {PartialOutage, MajorOutage}
    case IndicatorChanged(i) => i in {Major, Critical}
    case Baseline => false
  }

  predicate Urgent(events: seq<Event>) {
    exists i :: 0 <= i < |events| && UrgentEvent(events[i])
  }

  // ---- One provider's turn ----

  function Fails(s: State, provider: string): nat { if provider in s.fails then s.fails[provider] else 0 }

  function Snap(s: State, provider: string): Option<Snapshot> {
    if provider in s.store then Some(s.store[provider]) else None
  }

  predicate TooSoon(cfg: Settings, s: State, provider: string, at: int) {
    provider in s.lastCard && at - s.lastCard[provider] < cfg.minGap
  }

  function Commit(s: State, provider: string, snapshot: Snapshot): State {
    s.(store := s.store[provider := snapshot], log := s.log + [Stored(provider, snapshot)])
  }

  function OnFailure(cfg: Settings, s: State, t: Turn): State {
    var count := Fails(s, t.provider) + 1;
    var s' := s.(fails := s.fails[t.provider := count], log := s.log + [FetchFailed(t.provider)]);
    if count >= cfg.failThreshold && t.provider !in s.metaSent && t.delivered >= 1 then
      s'.(metaSent := s'.metaSent + {t.provider}, log := s'.log + [Meta(t.provider)])
    else s'
  }

  function OnSnapshot(cfg: Settings, s: State, t: Turn, snapshot: Snapshot): State {
    var p := t.provider;
    var s' := s.(fails := s.fails[p := 0], metaSent := s.metaSent - {p}, log := s.log + [Fetched(p)]);
    var events := Diff(Snap(s, p), snapshot, cfg.verbose);
    if events == [] then Commit(s', p, snapshot)
    else if TooSoon(cfg, s, p, t.at) && !Urgent(events) then s'
    else if cfg.gate && t.suppress && !Urgent(events) then
      Commit(s'.(log := s'.log + [Suppressed(p)]), p, snapshot)
    else if t.delivered < 1 then s'
    else
      Commit(s'.(lastCard := s'.lastCard[p := t.sentAt], log := s'.log + [Card(p, events, t.at, t.sentAt)]), p, snapshot)
  }

  function TakeTurn(cfg: Settings, s: State, t: Turn): State {
    match t.fetched
    case None => OnFailure(cfg, s, t)
    case Some(snapshot) => OnSnapshot(cfg, s, t, snapshot)
  }

  function Run(cfg: Settings, s: State, turns: seq<Turn>): State {
    if turns == [] then s else TakeTurn(cfg, Run(cfg, s, turns[..|turns| - 1]), turns[|turns| - 1])
  }

  // ---- The cycle as the source writes it ----

  class PollState {
    const cfg: Settings
    var fails: map<string, nat>
    var metaSent: set<string>
    var lastCard: map<string, int>
    var store: map<string, Snapshot>
    ghost var log: seq<Obs>

    ghost function Contents(): State
      reads this
    {
      State(fails, metaSent, lastCard, store, log)
    }

    constructor (cfg: Settings)
      ensures this.cfg == cfg && Contents() == EMPTY
    {
      this.cfg := cfg;
      fails, metaSent, lastCard, store, log := map[], {}, map[], map[], [];
    }

    method Failed(t: Turn)
      modifies this
      ensures Contents() == OnFailure(cfg, old(Contents()), t)
    {
      var count := (if t.provider in fails then fails[t.provider] else 0) + 1;
      fails := fails[t.provider := count];
      log := log + [FetchFailed(t.provider)];
      if count >= cfg.failThreshold && t.provider !in metaSent {
        if t.delivered >= 1 {
          metaSent := metaSent + {t.provider};
          log := log + [Meta(t.provider)];
        }
      }
    }

    method Got(t: Turn, snapshot: Snapshot)
      modifies this
      ensures Contents() == OnSnapshot(cfg, old(Contents()), t, snapshot)
    {
      hide Diff, Urgent;
      var p := t.provider;
      fails := fails[p := 0];
      metaSent := metaSent - {p};
      log := log + [Fetched(p)];
      var previous := if p in store then Some(store[p]) else None;
      var events := ComputeDiff(previous, snapshot, cfg.verbose);
      if events != [] {
        if p in lastCard && t.at - lastCard[p] < cfg.minGap && !Urgent(events) { return; }
        if cfg.gate && t.suppress && !Urgent(events) {
          log := log + [Suppressed(p)];
          store := store[p := snapshot];
          log := log + [Stored(p, snapshot)];
          return;
        }
        if t.delivered < 1 { return; }
        lastCard := lastCard[p := t.sentAt];
        log := log + [Card(p, events, t.at, t.sentAt)];
      }
      store := store[p := snapshot];
      log := log + [Stored(p, snapshot)];
    }

    method RunCycle(turns: seq<Turn>)
      modifies this
      ensures Contents() == Run(cfg, old(Contents()), turns)
    {
      for i := 0 to |turns|
        invariant Contents() == Run(cfg, old(Contents()), turns[..i])
      {
        var t := turns[i];
        assert turns[..i + 1][..i] == turns[..i];
        if t.fetched.None? { Failed(t); } else { Got(t, t.fetched.value); }
      }
      assert turns[..|turns|] == turns;
    }
  }

  // ---- Event sourcing ----

  /** What a reader of the delivered cards believes: the keys of the first stored snapshot, and from
      then on what the cards open and resolve. */
  function Believed(log: seq<Obs>, provider: string): Option<set<string>> {
    if log == [] then None
    else
      var before := Believed(log[..|log| - 1], provider);
      match log[|log| - 1]
      case Card(p, events, _, _) => if p == provider && before.Some? then Some(Apply(before.value, events)) else before
      case Stored(p, snapshot) => if p == provider && before.None? then Some(Keys(snapshot.incidents)) else before
      case _ => before
  }

  ghost predicate Sourced(s: State, provider: string) {
    Believed(s.log, provider) ==
    if provider in s.store then Some(Keys(s.store[provider].incidents)) else None
  }

  lemma BelievedAppend(log: seq<Obs>, o: Obs, provider: string)
    ensures Believed(log + [o], provider) ==
      if o.Card? && o.provider == provider && Believed(log, provider).Some?
      then Some(Apply(Believed(log, provider).value, o.events))
      else if o.Stored? && o.provider == provider && Believed(log, provider).None?
      then Some(Keys(o.snapshot.incidents))
      else Believed(log, provider)
  {
    assert (log + [o])[..|log|] == log;
  }

  /** Committing a snapshot together with its card keeps reader and store together. */
  lemma CardSourced(s: State, p: string, events: seq<Event>, card: Obs, snapshot: Snapshot, provider: string, verbose: bool)
    requires Sourced(s, provider) && events == Diff(Snap(s, p), snapshot, verbose)
    requires card.Card? && card.provider == p && card.events == events
    ensures Sourced(Commit(s.(log := s.log + [card]), p, snapshot), provider)
  {
    BelievedAppend(s.log, card, provider);
    BelievedAppend(s.log + [card], Stored(p, snapshot), provider);
    if p == provider && p in s.store { DiffIsExact(s.store[p], snapshot, verbose); }
  }

  /** So does committing one that differs in nothing worth a card. */
  lemma QuietSourced(s: State, p: string, snapshot: Snapshot, provider: string, verbose: bool)
    requires Sourced(s, provider) && Diff(Snap(s, p), snapshot, verbose) == []
    ensures Sourced(Commit(s, p, snapshot), provider)
  {
    BelievedAppend(s.log, Stored(p, snapshot), provider);
    if p == provider && p in s.store { QuietDiff(s.store[p], snapshot, verbose); }
  }

  lemma TurnSourced(cfg: Settings, s: State, t: Turn, provider: string)
    requires Sourced(s, provider) && !cfg.gate
    ensures Sourced(TakeTurn(cfg, s, t), provider)
  {
    match t.fetched
    case None =>
      BelievedAppend(s.log, FetchFailed(t.provider), provider);
      BelievedAppend(s.log + [FetchFailed(t.provider)], Meta(t.provider), provider);
    case Some(snapshot) =>
      var p := t.provider;
      BelievedAppend(s.log, Fetched(p), provider);
      var s1 := s.(fails := s.fails[p := 0], metaSent := s.metaSent - {p}, log := s.log + [Fetched(p)]);
      var events := Diff(Snap(s, p), snapshot, cfg.verbose);
      if events == [] {
        QuietSourced(s1, p, snapshot, provider, cfg.verbose);
      } else {
        CardSourced(s1.(lastCard := s1.lastCard[p := t.sentAt]), p, events, Card(p, events, t.at, t.sentAt), snapshot, provider,
                    cfg.verbose);
      }
  }

  /** Outside gate mode, whatever fetches fail, cards are held or broadcasts fail: folding the
      delivered cards over the first stored snapshot gives the incidents of the one now stored. */
  lemma {:induction false} EventSourcing(cfg: Settings, turns: seq<Turn>, provider: string)
    requires !cfg.gate
    ensures Sourced(Run(cfg, EMPTY, turns), provider)
  {
    if turns != [] {
      var n := |turns| - 1;
      EventSourcing(cfg, turns[..n], provider);
      TurnSourced(cfg, Run(cfg, EMPTY, turns[..n]), turns[n], provider);
    }
  }

  /** In gate mode a suppressed card keeps reader and store together exactly if it was about no
      incident that opened or closed. */
  lemma SuppressionLosesIncidents(cfg: Settings, s: State, t: Turn)
    requires Sourced(s, t.provider) && cfg.gate && t.fetched.Some? && t.provider in s.store
    requires var events := Diff(Snap(s, t.provider), t.fetched.value, cfg.verbose);
             events != [] && t.suppress && !Urgent(events) && !TooSoon(cfg, s, t.provider, t.at)
    ensures Sourced(TakeTurn(cfg, s, t), t.provider)
        <==> Keys(s.store[t.provider].incidents) == Keys(t.fetched.value.incidents)
  {
    var p := t.provider;
    BelievedAppend(s.log, Fetched(p), p);
    BelievedAppend(s.log + [Fetched(p)], Suppressed(p), p);
    BelievedAppend(s.log + [Fetched(p)] + [Suppressed(p)], Stored(p, t.fetched.value), p);
  }

  // ---- Gaps and outages ----

  /** The last card of a provider and when it was sent, from the log. */
  function LastSent(log: seq<Obs>, provider: string): Option<int> {
    if log == [] then None
    else
      var o := log[|log| - 1];
      if o.Card? && o.provider == provider then Some(o.sentAt) else LastSent(log[..|log| - 1], provider)
  }

  /** How many fetches of a provider have failed since the last one that did not. */
  function FailedInARow(log: seq<Obs>, provider: string): nat {
    if log == [] then 0
    else
      var o := log[|log| - 1];
      if o == Fetched(provider) then 0
      else FailedInARow(log[..|log| - 1], provider) + if o == FetchFailed(provider) then 1 else 0
  }

  /** The outage of a provider was reported since its last successful fetch. */
  predicate ReportedDown(log: seq<Obs>, provider: string) {
    if log == [] then false
    else
      var o := log[|log| - 1];
      if o == Fetched(provider) then false else o == Meta(provider) || ReportedDown(log[..|log| - 1], provider)
  }

  lemma LogAppend(log: seq<Obs>, o: Obs, provider: string)
    ensures LastSent(log + [o], provider) == if o.Card? && o.provider == provider then Some(o.sentAt) else LastSent(log, provider)
    ensures FailedInARow(log + [o], provider)
      == if o == Fetched(provider) then 0 else FailedInARow(log, provider) + if o == FetchFailed(provider) then 1 else 0
    ensures ReportedDown(log + [o], provider)
      <==> o != Fetched(provider) && (o == Meta(provider) || ReportedDown(log, provider))
  {
    assert (log + [o])[..|log|] == log;
  }

  /** A card is urgent or keeps its distance from the one before; a report of an outage comes after
      enough failures in a row and once per outage. */
  ghost predicate Proper(cfg: Settings, log: seq<Obs>, o: Obs) {
    match o
    case Card(p, events, at, _) =>
      Urgent(events) || LastSent(log, p).None? || at - LastSent(log, p).value >= cfg.minGap
    case Meta(p) => FailedInARow(log, p) >= cfg.failThreshold && !ReportedDown(log, p)
    case _ => true
  }

  ghost predicate LogOk(cfg: Settings, log: seq<Obs>) {
    forall k :: 0 <= k < |log| ==> Proper(cfg, log[..k], log[k])
  }

  ghost predicate Counted(s: State) {
    && (forall p :: Fails(s, p) == FailedInARow(s.log, p))
    && (forall p :: p in s.metaSent <==> ReportedDown(s.log, p))
    && (forall p :: LastSent(s.log, p) == if p in s.lastCard then Some(s.lastCard[p]) else None)
  }

  lemma Book(cfg: Settings, log: seq<Obs>, o: Obs)
    requires LogOk(cfg, log) && Proper(cfg, log, o)
    ensures LogOk(cfg, log + [o])
  {
    var log' := log + [o];
    forall k | 0 <= k < |log'| ensures Proper(cfg, log'[..k], log'[k]) {
      assert log'[..k] == log[..k];
      if k == |log| { assert log[..k] == log; }
    }
  }

  /** Entries that count neither failures nor cards. */
  lemma Quiet(cfg: Settings, s: State, o: Obs)
    requires Counted(s) && LogOk(cfg, s.log) && (o.Stored? || o.Suppressed?)
    ensures Counted(s.(log := s.log + [o])) && LogOk(cfg, s.log + [o])
  {
    Book(cfg, s.log, o);
    forall p
      ensures FailedInARow(s.log + [o], p) == FailedInARow(s.log, p)
      ensures ReportedDown(s.log + [o], p) == ReportedDown(s.log, p)
      ensures LastSent(s.log + [o], p) == LastSent(s.log, p)
    {
      LogAppend(s.log, o, p);
    }
    forall p ensures Fails(s.(log := s.log + [o]), p) == Fails(s, p) {}
  }

  lemma CommitCounted(cfg: Settings, s: State, p: string, snapshot: Snapshot)
    requires Counted(s) && LogOk(cfg, s.log)
    ensures Counted(Commit(s, p, snapshot)) && LogOk(cfg, Commit(s, p, snapshot).log)
  {
    var o := Stored(p, snapshot);
    Quiet(cfg, s, o);
    var mid := s.(log := s.log + [o]);
    forall q ensures Fails(Commit(s, p, snapshot), q) == Fails(mid, q) {}
  }

  lemma FailedCounted(cfg: Settings, s: State, p: string)
    requires Counted(s) && LogOk(cfg, s.log)
    ensures var s' := s.(fails := s.fails[p := Fails(s, p) + 1], log := s.log + [FetchFailed(p)]);
            Counted(s') && LogOk(cfg, s'.log)
  {
    var o := FetchFailed(p);
    var s' := s.(fails := s.fails[p := Fails(s, p) + 1], log := s.log + [o]);
    Book(cfg, s.log, o);
    forall q { LogAppend(s.log, o, q); }
    forall q ensures Fails(s', q) == FailedInARow(s'.log, q) { assert Fails(s, q) == FailedInARow(s.log, q); }
  }

  lemma MetaCounted(s: State, p: string)
    requires Counted(s)
    ensures Counted(s.(metaSent := s.metaSent + {p}, log := s.log + [Meta(p)]))
  {
    var s' := s.(metaSent := s.metaSent + {p}, log := s.log + [Meta(p)]);
    forall q { LogAppend(s.log, Meta(p), q); }
    forall q ensures Fails(s', q) == FailedInARow(s'.log, q) { assert Fails(s, q) == FailedInARow(s.log, q); }
  }

  lemma FailureCounted(cfg: Settings, s: State, t: Turn)
    requires Counted(s) && LogOk(cfg, s.log)
    ensures Counted(OnFailure(cfg, s, t)) && LogOk(cfg, OnFailure(cfg, s, t).log)
  {
    var p := t.provider;
    FailedCounted(cfg, s, p);
    var s1 := s.(fails := s.fails[p := Fails(s, p) + 1], log := s.log + [FetchFailed(p)]);
    if OnFailure(cfg, s, t) != s1 {
      MetaCounted(s1, p);
      Book(cfg, s1.log, Meta(p));
    }
  }

  lemma FetchedCounted(cfg: Settings, s: State, p: string)
    requires Counted(s) && LogOk(cfg, s.log)
    ensures var s' := s.(fails := s.fails[p := 0], metaSent := s.metaSent - {p}, log := s.log + [Fetched(p)]);
            Counted(s') && LogOk(cfg, s'.log)
  {
    var s' := s.(fails := s.fails[p := 0], metaSent := s.metaSent - {p}, log := s.log + [Fetched(p)]);
    Book(cfg, s.log, Fetched(p));
    forall q { LogAppend(s.log, Fetched(p), q); }
    forall q ensures Fails(s', q) == FailedInARow(s'.log, q) { assert Fails(s, q) == FailedInARow(s.log, q); }
  }

  lemma CardCounted(cfg: Settings, s: State, p: string, events: seq<Event>, at: int, sentAt: int)
    requires Counted(s) && LogOk(cfg, s.log) && (Urgent(events) || !TooSoon(cfg, s, p, at))
    ensures var s' := s.(lastCard := s.lastCard[p := sentAt], log := s.log + [Card(p, events, at, sentAt)]);
            Counted(s') && LogOk(cfg, s'.log)
  {
    var o := Card(p, events, at, sentAt);
    var s' := s.(lastCard := s.lastCard[p := sentAt], log := s.log + [o]);
    Book(cfg, s.log, o);
    forall q { LogAppend(s.log, o, q); }
    forall q ensures Fails(s', q) == FailedInARow(s'.log, q) { assert Fails(s, q) == FailedInARow(s.log, q); }
  }

  lemma SnapshotCounted(cfg: Settings, s: State, t: Turn, snapshot: Snapshot)
    requires Counted(s) && LogOk(cfg, s.log)
    ensures Counted(OnSnapshot(cfg, s, t, snapshot)) && LogOk(cfg, OnSnapshot(cfg, s, t, snapshot).log)
  {
    var p := t.provider;
    var events := Diff(Snap(s, p), snapshot, cfg.verbose);
    var s1 := s.(fails := s.fails[p := 0], metaSent := s.metaSent - {p}, log := s.log + [Fetched(p)]);
    FetchedCounted(cfg, s, p);
    if events == [] {
      CommitCounted(cfg, s1, p, snapshot);
    } else if TooSoon(cfg, s, p, t.at) && !Urgent(events) {
    } else if cfg.gate && t.suppress && !Urgent(events) {
      Quiet(cfg, s1, Suppressed(p));
      CommitCounted(cfg, s1.(log := s1.log + [Suppressed(p)]), p, snapshot);
    } else if t.delivered >= 1 {
      CardCounted(cfg, s1, p, events, t.at, t.sentAt);
      CommitCounted(cfg, s1.(lastCard := s1.lastCard[p := t.sentAt], log := s1.log + [Card(p, events, t.at, t.sentAt)]), p,
                    snapshot);
    }
  }

  /** Over every run: cards that are not urgent keep the minimum gap, and an outage is reported only
      after enough failures in a row and, once a report was delivered, not again until a fetch succeeds. */
  lemma {:induction false} GapsAndOutages(cfg: Settings, turns: seq<Turn>)
    ensures LogOk(cfg, Run(cfg, EMPTY, turns).log)
  {
    if turns != [] {
      GapsAndOutages(cfg, turns[..|turns| - 1]);
      RunCounted(cfg, turns[..|turns| - 1]);
      TurnCounted(cfg, Run(cfg, EMPTY, turns[..|turns| - 1]), turns[|turns| - 1]);
    }
  }

  /** The counters and times that the poller keeps are those of the log. */
  lemma {:induction false} RunCounted(cfg: Settings, turns: seq<Turn>)
    ensures Counted(Run(cfg, EMPTY, turns))
  {
    if turns != [] {
      GapsAndOutages(cfg, turns[..|turns| - 1]);
      RunCounted(cfg, turns[..|turns| - 1]);
      TurnCounted(cfg, Run(cfg, EMPTY, turns[..|turns| - 1]), turns[|turns| - 1]);
    }
  }

  lemma TurnCounted(cfg: Settings, s: State, t: Turn)
    requires Counted(s) && LogOk(cfg, s.log)
    ensures Counted(TakeTurn(cfg, s, t)) && LogOk(cfg, TakeTurn(cfg, s, t).log)
  {
    match t.fetched
    case None => FailureCounted(cfg, s, t);
    case Some(snapshot) => SnapshotCounted(cfg, s, t, snapshot);
  }
}
