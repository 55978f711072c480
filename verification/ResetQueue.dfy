/** What judging and delaying must queue: the stage an event reaches, the times it gets, and exactly when the
    new stage is announced. Said of the tables before and after, without the functions that compute them. */
module ResetQueue {
  import opened Basics
  import opened Ordering
  import opened Confirmation
  import opened ResetStore
  import opened ResetMonitor
  import opened ResetSafety

  // ---- The newest evidence ----

  /** When the newest piece of evidence of an event that satisfies p was observed. */
  function Newest(rows: seq<EvidenceRow>, id: string, p: Evidence -> bool): Option<int> {
    if rows == [] then None
    else
      var rest, e := Newest(rows[1..], id, p), rows[0].evidence;
      if rows[0].id == id && p(e) && (rest.None? || rest.value < e.observedAt) then Some(e.observedAt) else rest
  }

  lemma {:induction false} NewestMeans(rows: seq<EvidenceRow>, id: string, p: Evidence -> bool)
    ensures Newest(rows, id, p).None? <==> forall e :: e in Select(rows, id) ==> !p(e)
    ensures Newest(rows, id, p).Some? ==>
      && (exists e :: e in Select(rows, id) && p(e) && e.observedAt == Newest(rows, id, p).value)
      && (forall e :: e in Select(rows, id) && p(e) ==> e.observedAt <= Newest(rows, id, p).value)
  {
    if rows != [] { NewestMeans(rows[1..], id, p); }
  }

  lemma {:induction false} LatestMeans(evidence: seq<Evidence>, p: Evidence -> bool)
    requires Sorted(evidence, ByObserved)
    ensures Latest(evidence, p).None? <==> forall e :: e in evidence ==> !p(e)
    ensures Latest(evidence, p).Some? ==>
      && Latest(evidence, p).value in evidence && p(Latest(evidence, p).value)
      && (forall e :: e in evidence && p(e) ==> e.observedAt <= Latest(evidence, p).value.observedAt)
  {
    if evidence != [] {
      var n := |evidence| - 1;
      LatestMeans(evidence[..n], p);
      assert forall e :: e in evidence ==> e in evidence[..n] || e == evidence[n];
      assert forall k :: 0 <= k < n ==> ByObserved(evidence[k], evidence[n]);
    }
  }

  lemma ObservedTotal()
    ensures TotalPreorder(ByObserved)
  {}

  /** The last piece in order of time is the newest. */
  lemma LatestIsNewest(rows: seq<EvidenceRow>, id: string, p: Evidence -> bool)
    ensures At(Latest(EvidenceFor(rows, id), p)) == Newest(rows, id, p)
  {
    var selected, sorted := Select(rows, id), EvidenceFor(rows, id);
    ObservedTotal();
    SortSorted(selected, ByObserved);
    forall e ensures e in sorted <==> e in selected { SortMember(selected, ByObserved, e); }
    hide Sort, Select, Sorted, Newest, Latest;
    NewestMeans(rows, id, p);
    LatestMeans(sorted, p);
  }

  // ---- The verdict ----

  /** Some evidence of the event satisfies p. */
  ghost predicate Shown(rows: seq<EvidenceRow>, id: string, p: Evidence -> bool) {
    exists k :: 0 <= k < |rows| && rows[k].id == id && p(rows[k].evidence)
  }

  lemma {:induction false} ShownMeans(rows: seq<EvidenceRow>, id: string, p: Evidence -> bool)
    ensures Shown(rows, id, p) <==> exists e :: e in Select(rows, id) && p(e)
  {
    if rows != [] {
      ShownMeans(rows[1..], id, p);
      if k :| 0 <= k < |rows| && rows[k].id == id && p(rows[k].evidence) {
        if k > 0 { assert rows[1..][k - 1] == rows[k]; } else { assert rows[0].evidence in Select(rows, id); }
      }
      if k :| 0 <= k < |rows[1..]| && rows[1..][k].id == id && p(rows[1..][k].evidence) { assert rows[k + 1] == rows[1..][k]; }
    }
  }

  lemma AnyMeans(rows: seq<EvidenceRow>, id: string, p: Evidence -> bool)
    ensures AnyOf(EvidenceFor(rows, id), p) <==> Shown(rows, id, p)
  {
    var selected, sorted := Select(rows, id), EvidenceFor(rows, id);
    forall e ensures e in sorted <==> e in selected { SortMember(selected, ByObserved, e); }
    hide Sort, Select, Shown;
    ShownMeans(rows, id, p);
    if AnyOf(sorted, p) {
      var i :| 0 <= i < |sorted| && p(sorted[i]);
      assert sorted[i] in selected;
    }
  }

  function BalanceRose(): Evidence -> bool {
    (e: Evidence) => e.stage == Confirmed && e.localReference && e.resetType == Some(Banked)
  }

  function OfficialNews(banked: bool): Evidence -> bool {
    (e: Evidence) => e.stage == Announced && e.official && e.url != "" && e.expectedEnd != None && e.resetType != None
         && (banked ==> e.resetType == Some(Banked))
  }

  function OfficialRumour(): Evidence -> bool { (e: Evidence) => e.stage == Hint && e.official && e.url != "" }

  /** What evidence calls for: confirmed, if an account's balance rose or the confirmations have a basis and no
      banked reset is announced; announced, if it is official and neither holds; else a hint, if one is
      official. */
  lemma VerdictMeans(rows: seq<EvidenceRow>, id: string, canonical: Canonical)
    ensures var verdict := Classify(EvidenceFor(rows, id), canonical);
            var based := ConfirmationBasis(EvidenceFor(rows, id), canonical) != NoBasis;
            var rose := Shown(rows, id, BalanceRose());
            var news, banked := Shown(rows, id, OfficialNews(false)), Shown(rows, id, OfficialNews(true));
            && (verdict == Some(Confirmed) <==> rose || (based && !banked))
            && (verdict == Some(Announced) <==> !rose && news && (banked || !based))
            && (verdict == Some(Hint) <==> !rose && !based && !news && Shown(rows, id, OfficialRumour()))
            && verdict != Some(Delayed)
  {
    var evidence := EvidenceFor(rows, id);
    AnyMeans(rows, id, BalanceRose());
    AnyMeans(rows, id, OfficialNews(false));
    AnyMeans(rows, id, OfficialNews(true));
    AnyMeans(rows, id, OfficialRumour());
    assert AnyOf(evidence, BankedArrived) <==> AnyOf(evidence, BalanceRose());
    assert AnyOf(evidence, FullAnnouncement) <==> AnyOf(evidence, OfficialNews(false));
    assert AnyOf(evidence, BankedAnnouncement) <==> AnyOf(evidence, OfficialNews(true));
    assert AnyOf(evidence, OfficialHint) <==> AnyOf(evidence, OfficialRumour());
    assert AnyOf(evidence, OfficialNews(true)) ==> AnyOf(evidence, OfficialNews(false));
    hide EvidenceFor, Shown, AnyOf, ConfirmationBasis;
  }

  // ---- Judging ----

  /** The order of stages, from a hint over announced and delayed to confirmed. */
  predicate Above(a: Stage, b: Stage) {
    match a
    case Hint => false
    case Announced => b == Hint
    case Delayed => b == Hint || b == Announced
    case Confirmed => b != Confirmed
  }

  lemma QueueHas(t: Tables, id: string, stage: Stage, now: int)
    ensures HasDelivery(QueueDelivery(t, id, stage, now).deliveries, id, stage)
    ensures QueueDelivery(t, id, stage, now) == t.(deliveries := QueueDelivery(t, id, stage, now).deliveries)
  {
    if !HasDelivery(t.deliveries, id, stage) {
      assert QueueDelivery(t, id, stage, now).deliveries[|t.deliveries|] == Delivery(id, stage, Waiting, 0, now);
    }
  }

  function OfStage(stage: Stage): Evidence -> bool { (e: Evidence) => e.stage == stage }

  function Anything(): Evidence -> bool { (e: Evidence) => true }

  /** The time of a stage of an event: when it was first confirmed, or first announced; or else that of the
      newest evidence. */
  function TimeOf(rows: seq<EvidenceRow>, id: string, before: Option<ResetEvent>, stage: Stage): Option<int> {
    var kept := if before.None? then None else if stage == Confirmed then before.value.confirmedTs else before.value.announcedTs;
    var found := Newest(rows, id, OfStage(if stage == Confirmed then Confirmed else Announced));
    if kept.Some? then kept else if found.Some? then found else Newest(rows, id, Anything())
  }

  ghost predicate Within(at: Option<int>, now: int, age: nat) { at.Some? && now - age <= at.value <= now }

  predicate Rises(before: Option<ResetEvent>, verdict: Stage) { before.None? || Above(verdict, before.value.stage) }

  /** What the last pieces of evidence are. */
  lemma LatestOnes(rows: seq<EvidenceRow>, id: string)
    ensures var evidence := EvidenceFor(rows, id);
            && At(Latest(evidence, (e: Evidence) => e.stage == Announced)) == Newest(rows, id, OfStage(Announced))
            && At(Latest(evidence, (e: Evidence) => e.stage == Confirmed)) == Newest(rows, id, OfStage(Confirmed))
            && LatestObserved(evidence) == Newest(rows, id, Anything())
  {
    var evidence := EvidenceFor(rows, id);
    LatestIsNewest(rows, id, OfStage(Announced));
    LatestIsNewest(rows, id, OfStage(Confirmed));
    LatestIsNewest(rows, id, Anything());
    SameLatest(evidence, (e: Evidence) => e.stage == Announced, OfStage(Announced));
    SameLatest(evidence, (e: Evidence) => e.stage == Confirmed, OfStage(Confirmed));
    LastObserved(evidence);
  }

  /** Judging an event with nothing in between lifts it to what its evidence calls for, if that is higher, and
      sets its times. */
  lemma JudgedRises(cfg: Config, t: Tables, id: string, now: int)
    requires Classify(EvidenceFor(t.evidence, id), cfg.canonical).Some?
    ensures var verdict := Classify(EvidenceFor(t.evidence, id), cfg.canonical).value;
            var before, t' := EventOf(t, id), AdvanceEvent(cfg, t, id, now);
            && id in t'.events
            && var after := t'.events[id];
            && after.stage == (if Rises(before, verdict) then verdict else before.value.stage)
            && after.announcedTs == (if before.Some? && before.value.announcedTs.Some? then before.value.announcedTs
                                     else Newest(t.evidence, id, OfStage(Announced)))
            && after.confirmedTs == (if before.Some? && before.value.confirmedTs.Some? then before.value.confirmedTs
                                     else if after.stage == Confirmed then Newest(t.evidence, id, OfStage(Confirmed)) else None)
            && after.lastSeen == now && after.firstSeen == (if before.Some? then before.value.firstSeen else now)
  {
    LatestOnes(t.evidence, id);
    forall x: Tables, stage { QueueHas(x, id, stage, now); }
    hide EvidenceFor, Classify, Newest, Latest, LatestObserved, QueueDelivery, HasDelivery;
  }

  /** A newest piece of evidence of the event that satisfies p. */
  ghost predicate IsNewest(rows: seq<EvidenceRow>, id: string, p: Evidence -> bool, e: Evidence) {
    EvidenceRow(id, e) in rows && p(e) && Newest(rows, id, p) == Some(e.observedAt)
  }

  function Typed(): Evidence -> bool { (e: Evidence) => e.resetType.Some? }

  lemma {:induction false} SelectMember(rows: seq<EvidenceRow>, id: string, e: Evidence)
    ensures e in Select(rows, id) <==> EvidenceRow(id, e) in rows
  {
    if rows != [] { SelectMember(rows[1..], id, e); }
  }

  lemma LatestIs(rows: seq<EvidenceRow>, id: string, p: Evidence -> bool)
    ensures var latest := Latest(EvidenceFor(rows, id), p);
            if latest.Some? then IsNewest(rows, id, p, latest.value) else Newest(rows, id, p).None?
  {
    var selected, sorted := Select(rows, id), EvidenceFor(rows, id);
    ObservedTotal();
    SortSorted(selected, ByObserved);
    LatestIsNewest(rows, id, p);
    LatestMeans(sorted, p);
    if Latest(sorted, p).Some? {
      SortMember(selected, ByObserved, Latest(sorted, p).value);
      SelectMember(rows, id, Latest(sorted, p).value);
    }
    hide Sort, Select, Sorted, Newest, Latest;
  }

  /** A time that is kept once it is known, and comes from a newest announcement. */
  ghost predicate Expects(rows: seq<EvidenceRow>, id: string, kept: Option<int>, after: Option<int>, of: Evidence -> Option<int>) {
    if kept.Some? then after == kept
    else if Newest(rows, id, OfStage(Announced)).None? then after == None
    else exists e :: IsNewest(rows, id, OfStage(Announced), e) && after == of(e)
  }

  /** The kind of reset is that of the newest evidence that tells one, or else stays. The expected times stay once
      they are known; until then they are those of the newest announcement. */
  lemma JudgedDetails(cfg: Config, t: Tables, id: string, now: int)
    requires Classify(EvidenceFor(t.evidence, id), cfg.canonical).Some?
    ensures var before, t' := EventOf(t, id), AdvanceEvent(cfg, t, id, now);
            && id in t'.events
            && var after := t'.events[id];
            && (if Newest(t.evidence, id, Typed()).None?
                then after.resetType == (if before.Some? then before.value.resetType else None)
                else exists e :: IsNewest(t.evidence, id, Typed(), e) && after.resetType == e.resetType)
            && Expects(t.evidence, id, if before.Some? then before.value.expectedStart else None, after.expectedStart,
                       (e: Evidence) => e.expectedStart)
            && Expects(t.evidence, id, if before.Some? then before.value.expectedEnd else None, after.expectedEnd,
                       (e: Evidence) => e.expectedEnd)
  {
    var evidence := EvidenceFor(t.evidence, id);
    LatestIs(t.evidence, id, OfStage(Announced));
    LatestIs(t.evidence, id, Typed());
    SameLatest(evidence, (e: Evidence) => e.stage == Announced, OfStage(Announced));
    SameLatest(evidence, (e: Evidence) => e.resetType.Some?, Typed());
    forall x: Tables, stage { QueueHas(x, id, stage, now); }
    hide EvidenceFor, Classify, Newest, Latest, LatestObserved, QueueDelivery, HasDelivery, IsNewest;
  }

  /** If its stage rises, the new stage is queued if and only if it was queued before or its own time is
      recent; otherwise nothing is. */
  lemma JudgedQueuesIff(cfg: Config, t: Tables, id: string, now: int)
    requires Classify(EvidenceFor(t.evidence, id), cfg.canonical).Some?
    ensures var verdict := Classify(EvidenceFor(t.evidence, id), cfg.canonical).value;
            var before, t' := EventOf(t, id), AdvanceEvent(cfg, t, id, now);
            if Rises(before, verdict) then
              HasDelivery(t'.deliveries, id, verdict) <==>
                HasDelivery(t.deliveries, id, verdict) || Within(TimeOf(t.evidence, id, before, verdict), now, cfg.maxAge)
            else t'.deliveries == t.deliveries
  {
    LatestOnes(t.evidence, id);
    forall x: Tables, stage { QueueHas(x, id, stage, now); }
    hide EvidenceFor, Classify, Newest, Latest, LatestObserved, QueueDelivery, HasDelivery;
  }

  lemma {:induction false} SameLatest(evidence: seq<Evidence>, p: Evidence -> bool, q: Evidence -> bool)
    requires forall e :: p(e) == q(e)
    ensures Latest(evidence, p) == Latest(evidence, q)
  {
    if evidence != [] { SameLatest(evidence[..|evidence| - 1], p, q); }
  }

  lemma LastObserved(evidence: seq<Evidence>)
    ensures LatestObserved(evidence) == At(Latest(evidence, Anything()))
  {}

  // ---- Delaying ----

  /** Announced, not of a banked reset, and over for longer than the grace allows. */
  predicate Late(cfg: Config, e: ResetEvent, now: int) {
    && e.stage == Announced && (e.resetType == None || e.resetType == Some(Direct))
    && e.expectedEnd.Some? && now > e.expectedEnd.value + cfg.delayGrace
  }

  /** An event is marked delayed if and only if it is late, and then queued if and only if it was queued before
      or its expected end, or without one its announcement, is recent. Nothing else changes. */
  lemma DelayedQueuesIff(cfg: Config, t: Tables, id: string, now: int)
    ensures var t' := DelayEvent(cfg, t, id, now);
            if id in t.events && Late(cfg, t.events[id], now) then
              var e := t.events[id];
              var at := if e.expectedEnd == Some(0) then e.announcedTs else e.expectedEnd;
              && t'.events == t.events[id := e.(stage := Delayed, lastSeen := now)]
              && (HasDelivery(t'.deliveries, id, Delayed) <==>
                   HasDelivery(t.deliveries, id, Delayed) || Within(at, now, cfg.maxAge))
            else t' == t
  {
    forall x: Tables { QueueHas(x, id, Delayed, now); }
    hide QueueDelivery, HasDelivery;
    if id in t.events {
      var e := t.events[id];
      assert e.resetType.Some? ==> e.resetType.value.Direct? || e.resetType.value.Banked?;
    }
  }

  // ---- Loading what is due ----

  predicate IsDue(d: Delivery, now: int) { d.status == Waiting && d.nextAttempt <= now }

  /** Its time came first, or both times are the same and its stage is the lower one. */
  predicate Sooner(a: Delivery, b: Delivery) {
    a.nextAttempt < b.nextAttempt || (a.nextAttempt == b.nextAttempt && Above(b.stage, a.stage))
  }

  function DueNoLater(x: Delivery, now: int): Delivery -> bool { (d: Delivery) => IsDue(d, now) && !Sooner(x, d) }

  function DueSooner(x: Delivery, now: int): Delivery -> bool { (d: Delivery) => IsDue(d, now) && Sooner(d, x) }

  /** How many due deliveries come before the i-th row: the sooner ones, and of those no sooner and no later,
      the ones before it in the table. */
  function Earlier(rows: seq<Delivery>, i: nat, now: int): nat
    requires i < |rows|
  {
    CountIf(rows[..i], DueNoLater(rows[i], now)) + CountIf(rows[i + 1..], DueSooner(rows[i], now))
  }

  lemma {:induction false} CountDue(rows: seq<Delivery>, now: int, p: Delivery -> bool, q: Delivery -> bool)
    requires forall d :: q(d) == (IsDue(d, now) && p(d))
    ensures CountIf(Due(rows, now), p) == CountIf(rows, q)
  {
    if rows != [] {
      var n := |rows| - 1;
      CountDue(rows[..n], now, p, q);
      var rest := Due(rows[..n], now);
      if IsDue(rows[n], now) { assert (rest + [rows[n]])[..|rest|] == rest; } else { assert rest + [] == rest; }
    }
  }

  function MayPrecede(x: Delivery): Delivery -> bool { (y: Delivery) => ByNextAttempt(y, x) }

  function MustPrecede(x: Delivery): Delivery -> bool { (y: Delivery) => !ByNextAttempt(x, y) }

  lemma CountNoLater(rows: seq<Delivery>, x: Delivery, now: int)
    ensures CountIf(Due(rows, now), MayPrecede(x)) == CountIf(rows, DueNoLater(x, now))
  {
    CountDue(rows, now, MayPrecede(x), DueNoLater(x, now));
  }

  lemma CountSooner(rows: seq<Delivery>, x: Delivery, now: int)
    ensures CountIf(Due(rows, now), MustPrecede(x)) == CountIf(rows, DueSooner(x, now))
  {
    CountDue(rows, now, MustPrecede(x), DueSooner(x, now));
  }

  lemma CountsDue(a: seq<Delivery>, x: Delivery, b: seq<Delivery>, now: int)
    ensures Preceding(Due(a, now) + [x] + Due(b, now), |Due(a, now)|, ByNextAttempt)
         == CountIf(a, DueNoLater(x, now)) + CountIf(b, DueSooner(x, now))
  {
    hide ByNextAttempt, CountIf, Due, Preceding, DueNoLater, DueSooner;
    CountNoLater(a, x, now);
    CountSooner(b, x, now);
    PrecedingSplit(Due(a, now), x, Due(b, now), ByNextAttempt, MayPrecede(x), MustPrecede(x));
  }

  lemma {:induction false} DueConcat(a: seq<Delivery>, b: seq<Delivery>, now: int)
    ensures Due(a + b, now) == Due(a, now) + Due(b, now)
  {
    if b == [] {
      assert a + b == a;
    } else {
      var n := |b| - 1;
      assert (a + b)[..|a| + n] == a + b[..n];
      DueConcat(a, b[..n], now);
    }
  }

  lemma NextAttemptTotal()
    ensures TotalPreorder(ByNextAttempt)
  {}

  lemma DueAround(rows: seq<Delivery>, i: nat, now: int)
    requires i < |rows| && IsDue(rows[i], now)
    ensures Due(rows, now) == Due(rows[..i], now) + [rows[i]] + Due(rows[i + 1..], now)
  {
    var x := rows[i];
    assert rows == rows[..i] + ([x] + rows[i + 1..]);
    DueConcat(rows[..i], [x] + rows[i + 1..], now);
    DueConcat([x], rows[i + 1..], now);
    assert Due([x], now) == [x];
  }

  /** Where a due row stands among the due ones, and how many of them precede it. */
  lemma DuePlace(rows: seq<Delivery>, i: nat, now: int)
    requires i < |rows| && IsDue(rows[i], now)
    ensures var due, j := Due(rows, now), |Due(rows[..i], now)|;
            j < |due| && due[j] == rows[i] && Preceding(due, j, ByNextAttempt) == Earlier(rows, i, now)
  {
    var x := rows[i];
    DueAround(rows, i, now);
    hide Due, CountIf, Preceding;
    CountsDue(rows[..i], x, rows[i + 1..], now);
  }

  lemma OnlyPlace(rows: seq<Delivery>, x: Delivery, c: nat)
    requires Apart(rows, SameMessage) && c < |rows| && rows[c] == x
    ensures var first := if |rows| <= 20 then rows else rows[..20];
            (x in first <==> c < 20) && (c < 20 ==> c < |first| && first[c] == x)
  {
    var first := if |rows| <= 20 then rows else rows[..20];
    if x in first {
      var k :| 0 <= k < |first| && first[k] == x;
      assert rows[k] == x;
      assert SameMessage(rows[k], rows[c]);
    }
  }

  /** A tick loads a row if and only if it is waiting and its time has come and fewer than twenty due rows come
      before it; and it sends what it loads in that order. */
  lemma DueLoadedIff(rows: seq<Delivery>, i: nat, now: int)
    requires i < |rows| && DistinctDeliveries(rows)
    ensures rows[i] in DueDeliveries(rows, now) <==> IsDue(rows[i], now) && Earlier(rows, i, now) < 20
    ensures rows[i] in DueDeliveries(rows, now) ==>
      Earlier(rows, i, now) < |DueDeliveries(rows, now)| && DueDeliveries(rows, now)[Earlier(rows, i, now)] == rows[i]
  {
    var x, due := rows[i], Due(rows, now);
    var sorted := Sort(due, ByNextAttempt);
    DueMember(rows, now, x);
    SortMember(due, ByNextAttempt, x);
    DueApart(rows, now);
    SortApart(due, ByNextAttempt, SameMessage);
    NextAttemptTotal();
    hide Sort, Due, ByNextAttempt, IsDue, Earlier, Preceding, DistinctDeliveries, Apart;
    assert x in DueDeliveries(rows, now) ==> x in sorted;
    if IsDue(x, now) {
      DuePlace(rows, i, now);
      SortPosition(due, |Due(rows[..i], now)|, ByNextAttempt);
      OnlyPlace(sorted, x, Earlier(rows, i, now));
    }
  }

  // ---- On the machine ----

  /** The two steps of judging, with nothing in between, do just that; likewise the step of delaying. */
  lemma JudgesAsSaid(cfg: Config, s: System, owner: string, id: string, at: int, later: int)
    requires PhaseOf(s, owner).Collecting? && Classify(EvidenceFor(s.tables.evidence, id), cfg.canonical).Some?
    ensures Act(cfg, Act(cfg, s, Judge(owner, at, id)), Decide(owner, later)).tables
         == AdvanceEvent(cfg, s.tables, id, PhaseOf(s, owner).now)
    ensures Act(cfg, s, Delay(owner, at, id)).tables == DelayEvent(cfg, s.tables, id, PhaseOf(s, owner).now)
  {
    hide AdvanceFrom, DelayEvent, EvidenceFor, Classify;
    var s1 := Act(cfg, s, Judge(owner, at, id));
    assert PhaseOf(s.(clock := at), owner) == PhaseOf(s, owner);
    assert PhaseOf(s1.(clock := later), owner) == PhaseOf(s1, owner);
  }

  // ---- The delays of retries ----

  /** The delay doubles with every failure, up to its limit. */
  function Doubling(base: nat, limit: nat, n: nat): nat
    requires n >= 1
  {
    var d := if n == 1 then base else 2 * Doubling(base, limit, n - 1);
    if d <= limit then d else limit
  }

  lemma {:induction false} DelayDoubles(cfg: Config, n: nat)
    requires n >= 1
    ensures RetryDelay(cfg, n) == Doubling(cfg.retryBase, cfg.retryMax, n)
  {
    if n > 1 {
      DelayDoubles(cfg, n - 1);
      assert Pow2(n - 1) == 2 * Pow2(n - 2);
      assert cfg.retryBase * Pow2(n - 1) == 2 * (cfg.retryBase * Pow2(n - 2));
    } else {
      assert Pow2(0) == 1;
    }
  }
}
