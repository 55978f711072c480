/** Judging an event reads its stage in one statement and writes it in another. When a stage can fall in
    between, exactly. */
module ResetStages {
  import opened Basics
  import opened Ordering
  import opened Confirmation
  import opened ResetStore
  import opened ResetMonitor
  import opened ResetSafety
  import opened ResetResults
  import opened ResetOverlap

  // ---- What never changes ----

  /** Announced, expected and confirmed times, once set, stay, and so does the time an event was first seen. */
  ghost predicate SameTimes(a: ResetEvent, b: ResetEvent) {
    && b.firstSeen == a.firstSeen
    && (a.announcedTs.Some? ==> b.announcedTs == a.announcedTs)
    && (a.expectedStart.Some? ==> b.expectedStart == a.expectedStart)
    && (a.expectedEnd.Some? ==> b.expectedEnd == a.expectedEnd)
    && (a.confirmedTs.Some? ==> b.confirmedTs == a.confirmedTs)
  }

  ghost predicate TimesKept(a: map<string, ResetEvent>, b: map<string, ResetEvent>) {
    forall id :: id in a ==> id in b && SameTimes(a[id], b[id])
  }

  lemma AdvanceTimes(cfg: Config, t: Tables, id: string, evidence: seq<Evidence>, read: Option<ResetEvent>, now: int)
    ensures TimesKept(t.events, AdvanceFrom(cfg, t, id, evidence, read, now).events)
  {
    hide Classify, RecentEnough, Latest;
  }

  lemma ActKeepsTimes(cfg: Config, s: System, a: Action)
    ensures TimesKept(s.tables.events, Act(cfg, s, a).tables.events)
  {
    var c := s.(clock := a.at);
    var phase := PhaseOf(c, a.owner);
    if a.Delay? && phase.Collecting? { DelayAdvances(cfg, c.tables, a.id, phase.now); }
    if a.Decide? && phase.Judging? { AdvanceTimes(cfg, c.tables, phase.id, phase.evidence, phase.read, phase.now); }
    hide AdvanceFrom, Classify, DueDeliveries, BookOutcome, PutEvidence, EvidenceFor, DelayEvent;
  }

  /** Over any run whatever, stale writes included, an event is never forgotten and its announced, expected
      and confirmed times never change once set. */
  lemma {:induction false} TimesNeverChange(cfg: Config, s: System, trace: seq<Action>)
    ensures TimesKept(s.tables.events, Run(cfg, s, trace).tables.events)
  {
    hide Act;
    if trace != [] {
      var n := |trace| - 1;
      TimesNeverChange(cfg, s, trace[..n]);
      ActKeepsTimes(cfg, Run(cfg, s, trace[..n]), trace[n]);
    }
  }

  // ---- When stages do not fall ----

  ghost predicate StagesKept(a: map<string, ResetEvent>, b: map<string, ResetEvent>) {
    forall id :: id in a ==> id in b && Rank(b[id].stage) >= Rank(a[id].stage)
  }

  /** Whoever is still to judge holds the lease of its tick. */
  ghost predicate SoleJudge(s: System) {
    forall owner: string :: Judges(PhaseOf(s, owner)) ==> s.tables.lease == Some(Lease(owner, PhaseOf(s, owner).until))
  }

  ghost predicate Judicious(s: System) { SoleJudge(s) && ReadsHold(s) }

  /** The lease never passes on while its holder is still to judge. */
  ghost predicate Unrivalled(cfg: Config, s: System, trace: seq<Action>) {
    forall k :: 0 <= k < |trace| ==> NoRival(Run(cfg, s, trace[..k]), trace[k])
  }

  lemma UndisturbedIsUnrivalled(cfg: Config, s: System, trace: seq<Action>)
    requires Undisturbed(cfg, s, trace)
    ensures Unrivalled(cfg, s, trace)
  {
    hide Run;
    forall k | 0 <= k < |trace| ensures NoRival(Run(cfg, s, trace[..k]), trace[k]) {
      assert NoTakeover(Run(cfg, s, trace[..k]), trace[k]);
    }
  }

  lemma ActSole(cfg: Config, s: System, a: Action)
    requires SoleJudge(s) && NoRival(s, a)
    ensures SoleJudge(Act(cfg, s, a))
  {
    var s' := Act(cfg, s, a);
    assert PhaseOf(s.(clock := a.at), a.owner) == PhaseOf(s, a.owner);
    hide AdvanceFrom, DelayEvent, DueDeliveries, BookOutcome, PutEvidence, EvidenceFor, Classify;
    LeaseAfter(cfg, s, a);
    forall o: string | Judges(PhaseOf(s', o)) ensures s'.tables.lease == Some(Lease(o, PhaseOf(s', o).until)) {
      if o != a.owner { assert PhaseOf(s', o) == PhaseOf(s, o); }
    }
  }

  /** Only ticks and closings touch the lease. */
  lemma LeaseAfter(cfg: Config, s: System, a: Action)
    ensures !a.Tick? && !a.Close? ==> Act(cfg, s, a).tables.lease == s.tables.lease
  {
    var c := s.(clock := a.at);
    var phase := PhaseOf(c, a.owner);
    if a.Delay? && phase.Collecting? { DelayAdvances(cfg, c.tables, a.id, phase.now); }
    hide Classify, DueDeliveries, PutEvidence, EvidenceFor, DelayEvent, RecentEnough, Latest, UpsertEvent;
  }

  lemma DecideStages(cfg: Config, s: System, owner: string, at: int)
    requires ReadsHold(s) && PhaseOf(s, owner).Judging?
    ensures var phase, s' := PhaseOf(s, owner), Act(cfg, s, Decide(owner, at));
            && Advances(s.tables, s'.tables, phase.id, phase.now)
            && s'.phases == s.phases[owner := Collecting(phase.now, phase.until)]
  {
    var phase := PhaseOf(s, owner);
    assert PhaseOf(s.(clock := at), owner) == phase;
    AdvanceAdvances(cfg, s.tables, phase.id, phase.evidence, phase.now);
    hide AdvanceFrom, Advances;
  }

  lemma ActStages(cfg: Config, s: System, a: Action)
    requires Judicious(s) && NoRival(s, a)
    ensures Judicious(Act(cfg, s, a)) && StagesKept(s.tables.events, Act(cfg, s, a).tables.events)
  {
    ActSole(cfg, s, a);
    var s' := Act(cfg, s, a);
    var phase := PhaseOf(s, a.owner);
    assert PhaseOf(s.(clock := a.at), a.owner) == phase;
    if a.Decide? && phase.Judging? {
      DecideStages(cfg, s, a.owner, a.at);
      OthersDoNotJudge(s, a.owner);
      hide Act, Advances;
      forall o: string ensures !PhaseOf(s', o).Judging? { assert o != a.owner ==> PhaseOf(s', o) == PhaseOf(s, o); }
      AdvancesKept(s.tables, s'.tables, phase.id, phase.now);
    } else if a.Delay? && phase.Collecting? {
      DelayAdvances(cfg, s.tables, a.id, phase.now);
      assert s'.phases == s.phases && Advances(s.tables, s'.tables, a.id, phase.now);
      OthersDoNotJudge(s, a.owner);
      hide Act, Advances;
      forall o: string ensures !PhaseOf(s', o).Judging? { assert PhaseOf(s', o) == PhaseOf(s, o); }
      AdvancesKept(s.tables, s'.tables, a.id, phase.now);
    } else {
      assert s'.tables.events == s.tables.events;
      QuietReads(cfg, s, a);
    }
  }

  lemma AdvancesKept(t: Tables, t': Tables, id: string, now: int)
    requires Advances(t, t', id, now)
    ensures StagesKept(t.events, t'.events)
  {
    forall other | other in t.events ensures other in t'.events && Rank(t'.events[other].stage) >= Rank(t.events[other].stage) {
      if other != id { assert t'.events[other] == t.events[other]; }
    }
  }

  lemma OthersDoNotJudge(s: System, owner: string)
    requires SoleJudge(s) && Judges(PhaseOf(s, owner))
    ensures forall o: string :: o != owner ==> !Judges(PhaseOf(s, o))
  {
    assert s.tables.lease == Some(Lease(owner, PhaseOf(s, owner).until));
  }

  /** No step of a run lowers a stage. */
  ghost predicate NeverFalls(cfg: Config, s: System, trace: seq<Action>) {
    forall k :: 0 <= k < |trace| ==>
      StagesKept(Run(cfg, s, trace[..k]).tables.events, Run(cfg, s, trace[..k + 1]).tables.events)
  }

  /** Over every run in which the lease never passes on while its holder is still to judge, no stage ever
      goes down. */
  lemma {:induction false} StagesNeverFall(cfg: Config, s: System, trace: seq<Action>)
    requires Judicious(s) && Unrivalled(cfg, s, trace)
    ensures Judicious(Run(cfg, s, trace)) && NeverFalls(cfg, s, trace)
    ensures StagesKept(s.tables.events, Run(cfg, s, trace).tables.events)
  {
    hide Act, Judicious, NoRival, StagesKept;
    if trace != [] {
      var n := |trace| - 1;
      forall k | 0 <= k < n ensures NoRival(Run(cfg, s, trace[..n][..k]), trace[..n][k]) { assert trace[..n][..k] == trace[..k]; }
      StagesNeverFall(cfg, s, trace[..n]);
      ActStages(cfg, Run(cfg, s, trace[..n]), trace[n]);
      forall k | 0 <= k < |trace|
        ensures StagesKept(Run(cfg, s, trace[..k]).tables.events, Run(cfg, s, trace[..k + 1]).tables.events)
      {
        if k < n { assert trace[..n][..k] == trace[..k] && trace[..n][..k + 1] == trace[..k + 1]; }
        else { assert trace[..k + 1] == trace; }
      }
      KeptTrans(s.tables.events, Run(cfg, s, trace[..n]).tables.events, Run(cfg, s, trace).tables.events);
    } else {
      KeptSame(s.tables.events);
    }
  }

  lemma KeptSame(a: map<string, ResetEvent>)
    ensures StagesKept(a, a)
  {}

  lemma KeptTrans(a: map<string, ResetEvent>, b: map<string, ResetEvent>, c: map<string, ResetEvent>)
    requires StagesKept(a, b) && StagesKept(b, c)
    ensures StagesKept(a, c)
  {}

  // ---- When one does ----

  /** Steps at this moment, no tick among them. */
  ghost predicate Plain(s: System, trace: seq<Action>) {
    forall k :: 0 <= k < |trace| ==> !trace[k].Tick? && trace[k].at == s.clock
  }

  lemma {:induction false} PlainRun(cfg: Config, s: System, trace: seq<Action>)
    requires Plain(s, trace)
    ensures Clockwise(cfg, s, trace) && Unrivalled(cfg, s, trace) && Run(cfg, s, trace).clock == s.clock
  {
    hide Act, PhaseOf, LeaseFree;
    if trace != [] {
      var n := |trace| - 1;
      PlainRun(cfg, s, trace[..n]);
      ActClock(cfg, Run(cfg, s, trace[..n]), trace[n]);
      forall k | 0 <= k < |trace| ensures Clocked(Run(cfg, s, trace[..k]), trace[k]) && NoRival(Run(cfg, s, trace[..k]), trace[k]) {
        if k < n {
          assert trace[..n][..k] == trace[..k] && trace[..n][k] == trace[k];
          assert Clocked(Run(cfg, s, trace[..n][..k]), trace[..n][k]);
        }
      }
    }
  }

  lemma ActClock(cfg: Config, s: System, a: Action)
    ensures Act(cfg, s, a).clock == a.at
  {
    hide AdvanceFrom, DelayEvent, DueDeliveries, BookOutcome, PutEvidence, EvidenceFor, Classify;
  }

  function ArrivedAt(now: int): Evidence {
    Evidence("source", "family", "banked", Confirmed, "title", "url", now, Some(Banked), None, None, true, true, true)
  }

  lemma {:induction false} PutSelected(rows: seq<EvidenceRow>, id: string, e: Evidence)
    ensures e in Select(PutEvidence(rows, id, e), id)
  {
    if rows != [] {
      PutSelected(rows[1..], id, e);
      assert ([EvidenceRow(id, e)] + rows[1..])[0] == EvidenceRow(id, e);
      assert ([rows[0]] + PutEvidence(rows[1..], id, e))[1..] == PutEvidence(rows[1..], id, e);
    }
  }

  lemma ArrivedConfirms(rows: seq<EvidenceRow>, id: string, now: int, canonical: Canonical)
    ensures Classify(EvidenceFor(PutEvidence(rows, id, ArrivedAt(now)), id), canonical) == Some(Confirmed)
  {
    var e := ArrivedAt(now);
    var evidence := EvidenceFor(PutEvidence(rows, id, e), id);
    PutSelected(rows, id, e);
    SortMember(Select(PutEvidence(rows, id, e), id), ByObserved, e);
    var i :| 0 <= i < |evidence| && evidence[i] == e;
    assert BankedArrived(evidence[i]);
  }

  lemma HintSelected(t: Tables, id: string, now: int, canonical: Canonical)
    requires NewId(t, id)
    ensures Classify(EvidenceFor(PutEvidence(t.evidence, id, HintAt(now)), id), canonical) == Some(Hint)
  {
    SelectNew(t.evidence, id, HintAt(now));
    HintClassified(now, canonical);
    assert [HintAt(now)][..0] == [];
    assert EvidenceFor(PutEvidence(t.evidence, id, HintAt(now)), id) == [HintAt(now)];
  }

  lemma Reading(cfg: Config, s: System, o: string, other: string, id: string) returns (s': System)
    requires o != other && PhaseOf(s, o).Collecting? && id in s.tables.events
    requires Classify(EvidenceFor(s.tables.evidence, id), cfg.canonical).Some?
    ensures s' == Act(cfg, s, Judge(o, s.clock, id)) && s'.tables == s.tables && s'.clock == s.clock
    ensures PhaseOf(s', o) == Judging(PhaseOf(s, o).now, PhaseOf(s, o).until, id,
                                      EvidenceFor(s.tables.evidence, id), Some(s.tables.events[id]))
    ensures PhaseOf(s', other) == PhaseOf(s, other)
  {
    hide EvidenceFor, Classify;
    s' := Act(cfg, s, Judge(o, s.clock, id));
  }

  lemma GatherCase(cfg: Config, s: System, o: string, id: string, e: Evidence, other: string)
    requires PhaseOf(s, o).Collecting?
    ensures var s' := Act(cfg, s, Gather(o, s.clock, id, e));
            && s'.tables == s.tables.(evidence := PutEvidence(s.tables.evidence, id, e)) && s'.clock == s.clock
            && PhaseOf(s', o) == PhaseOf(s, o) && PhaseOf(s', other) == PhaseOf(s, other)
  {
    hide PutEvidence;
  }

  /** a has read the event as a hint, and b is about to confirm it. */
  ghost predicate AtOdds(cfg: Config, s: System, a: string, b: string, id: string) {
    var p, q := PhaseOf(s, a), PhaseOf(s, b);
    && id in s.tables.events && s.tables.events[id].stage == Hint
    && p.Judging? && p.id == id && Classify(p.evidence, cfg.canonical) == Some(Hint)
    && q.Judging? && q.id == id && Classify(q.evidence, cfg.canonical) == Some(Confirmed)
    && p.read == q.read == Some(s.tables.events[id])
  }

  lemma BothJudge(cfg: Config, s: System, a: string, b: string, id: string)
    requires a != b && PhaseOf(s, a).Collecting? && PhaseOf(s, b).Collecting?
    requires id in s.tables.events && s.tables.events[id].stage == Hint
    requires Classify(EvidenceFor(s.tables.evidence, id), cfg.canonical) == Some(Hint)
    ensures var at := s.clock;
            AtOdds(cfg, Act(cfg, Act(cfg, Act(cfg, s, Judge(a, at, id)), Gather(b, at, id, ArrivedAt(at))), Judge(b, at, id)), a, b, id)
  {
    hide EvidenceFor, PutEvidence, Classify, ArrivedAt, Act;
    var s2 := Reading(cfg, s, a, b, id);
    GatherCase(cfg, s2, b, id, ArrivedAt(s.clock), a);
    ArrivedConfirms(s.tables.evidence, id, s.clock, cfg.canonical);
    var s3 := Reading(cfg, Act(cfg, s2, Gather(b, s.clock, id, ArrivedAt(s.clock))), b, a, id);
  }

  lemma BothRead(cfg: Config, s: System, a: string, b: string) returns (more: seq<Action>, id: string)
    requires a != b && PhaseOf(s, a).Collecting? && PhaseOf(s, b).Collecting?
    ensures Plain(s, more) && AtOdds(cfg, Run(cfg, s, more), a, b, id)
  {
    var at, now := s.clock, PhaseOf(s, a).now;
    hide *;
    id := UnusedId(s.tables);
    var first := Announcing(a, at, id, now);
    AnnouncedFor(cfg, s, a, b, id);
    BothJudge(cfg, Run(cfg, s, first), a, b, id);
    var ja, gb, jb := Judge(a, at, id), Gather(b, at, id, ArrivedAt(at)), Judge(b, at, id);
    OneMore(cfg, s, first, ja);
    OneMore(cfg, s, first + [ja], gb);
    OneMore(cfg, s, first + [ja] + [gb], jb);
    PlainAnnouncing(s, a, id, now);
    PlainMore(s, first, ja);
    PlainMore(s, first + [ja], gb);
    PlainMore(s, first + [ja] + [gb], jb);
    more := first + [ja] + [gb] + [jb];
  }

  lemma PlainAnnouncing(s: System, a: string, id: string, now: int)
    ensures Plain(s, Announcing(a, s.clock, id, now))
  {}

  lemma AnnouncedFor(cfg: Config, s: System, a: string, b: string, id: string)
    requires a != b && PhaseOf(s, a).Collecting? && PhaseOf(s, b).Collecting? && NewId(s.tables, id)
    ensures var s' := Run(cfg, s, Announcing(a, s.clock, id, PhaseOf(s, a).now));
            && s'.clock == s.clock && PhaseOf(s', a).Collecting? && PhaseOf(s', b).Collecting?
            && id in s'.tables.events && s'.tables.events[id].stage == Hint
            && Classify(EvidenceFor(s'.tables.evidence, id), cfg.canonical) == Some(Hint)
  {
    Announces(cfg, s, a, id);
    HintSelected(s.tables, id, PhaseOf(s, a).now, cfg.canonical);
    hide Run, EvidenceFor, PutEvidence, Classify, HintAt, NewId, Act, Calm;
  }

  /** The one that read first writes last. */
  lemma WritesLast(cfg: Config, s: System, a: string, b: string, id: string)
    requires a != b && AtOdds(cfg, s, a, b, id)
    ensures var s2 := Act(cfg, s, Decide(b, s.clock));
            !StagesKept(s2.tables.events, Act(cfg, s2, Decide(a, s.clock)).tables.events)
  {
    hide Classify;
    var s2 := Act(cfg, s, Decide(b, s.clock));
    assert s2.tables.events[id].stage == Confirmed && PhaseOf(s2, a) == PhaseOf(s, a);
    assert Act(cfg, s2, Decide(a, s.clock)).tables.events[id].stage == Hint;
  }

  /** Two that judge at once can lower a stage. */
  lemma RivalsLower(cfg: Config, s: System, a: string, b: string) returns (more: seq<Action>)
    requires a != b && PhaseOf(s, a).Collecting? && PhaseOf(s, b).Collecting?
    ensures Plain(s, more) && !NeverFalls(cfg, s, more)
  {
    hide Run, Plain, AtOdds, Act, StagesKept, PhaseOf;
    var t, id := BothRead(cfg, s, a, b);
    PlainRun(cfg, s, t);
    var da, db := Decide(a, s.clock), Decide(b, s.clock);
    WritesLast(cfg, Run(cfg, s, t), a, b, id);
    OneMore(cfg, s, t, db);
    OneMore(cfg, s, t + [db], da);
    PlainMore(s, t, db);
    PlainMore(s, t + [db], da);
    more := t + [db] + [da];
    var k := |t| + 1;
    assert more[..k] == t + [db] && more[..k + 1] == more;
  }

  lemma OneMore(cfg: Config, s: System, trace: seq<Action>, x: Action)
    ensures Run(cfg, s, trace + [x]) == Act(cfg, Run(cfg, s, trace), x)
  {
    hide Act;
    assert (trace + [x])[..|trace|] == trace;
  }

  lemma PlainMore(s: System, trace: seq<Action>, x: Action)
    requires Plain(s, trace) && !x.Tick? && x.at == s.clock
    ensures Plain(s, trace + [x])
  {}

  /** If the lease passes on while its holder a is still to judge, a stage can fall. */
  lemma TakeoverLowers(cfg: Config, s: System, a: string, b: string) returns (more: seq<Action>)
    requires a != b && Judges(PhaseOf(s, a)) && PhaseOf(s, b).Collecting? && ReadsHold(s)
    ensures Plain(s, more) && !NeverFalls(cfg, s, more)
  {
    if PhaseOf(s, a).Collecting? {
      more := RivalsLower(cfg, s, a, b);
    } else {
      var d := Decide(a, s.clock);
      var s1 := Act(cfg, s, d);
      DecideStages(cfg, s, a, s.clock);
      ActClock(cfg, s, d);
      hide Act, Run, NeverFalls, Plain;
      var rest := RivalsLower(cfg, s1, a, b);
      more := [d] + rest;
      FallsLater(cfg, s, d, rest);
    }
  }

  lemma FallsLater(cfg: Config, s: System, d: Action, rest: seq<Action>)
    requires !d.Tick? && d.at == s.clock && Act(cfg, s, d).clock == s.clock
    requires Plain(Act(cfg, s, d), rest) && !NeverFalls(cfg, Act(cfg, s, d), rest)
    ensures Plain(s, [d] + rest) && !NeverFalls(cfg, s, [d] + rest)
  {
    hide Act, StagesKept;
    var s1, more := Act(cfg, s, d), [d] + rest;
    var k :| 0 <= k < |rest| && !StagesKept(Run(cfg, s1, rest[..k]).tables.events, Run(cfg, s1, rest[..k + 1]).tables.events);
    assert more[..k + 1] == [d] + rest[..k] && more[..k + 2] == [d] + rest[..k + 1];
    assert [d][..0] == [] && Run(cfg, s, [d]) == s1;
    RunConcat(cfg, s, [d], rest[..k]);
    RunConcat(cfg, s, [d], rest[..k + 1]);
  }

  /** No continuation lowers a stage, as long as the lease does not pass on once more while its holder is
      still to judge. */
  ghost predicate NeverLowered(cfg: Config, s: System) {
    forall more :: Clockwise(cfg, s, more) && Unrivalled(cfg, s, more) ==> NeverFalls(cfg, s, more)
  }

  /** Exactly the takeovers from an instance that is still to judge are dangerous: when b takes the lease,
      no continuation without such a takeover lowers a stage if and only if no other instance is still to
      judge, or the lease was b's own. */
  lemma StagesSafeIff(cfg: Config, s: System, b: string, at: int)
    requires Judicious(s) && TakesLease(s, Tick(b, at))
    ensures NoRival(s, Tick(b, at)) <==> NeverLowered(cfg, Act(cfg, s, Tick(b, at)))
  {
    var tick := Tick(b, at);
    var s' := Act(cfg, s, tick);
    if NoRival(s, tick) {
      ActStages(cfg, s, tick);
      hide Act, Run, NoRival, NeverFalls, Judicious;
      forall more | Clockwise(cfg, s', more) && Unrivalled(cfg, s', more) ensures NeverFalls(cfg, s', more) {
        StagesNeverFall(cfg, s', more);
      }
    } else {
      var a: string :| Judges(PhaseOf(s, a));
      assert a != b && PhaseOf(s', a) == PhaseOf(s, a) && PhaseOf(s', b).Collecting?;
      QuietReads(cfg, s, tick);
      hide Act, Run, NeverFalls;
      var more := TakeoverLowers(cfg, s', a, b);
      PlainRun(cfg, s', more);
    }
  }

  /** It can come to that: from the empty store, a is still collecting when its lease runs out and b takes
      it. */
  lemma LateTickLowersAStage(cfg: Config) returns (trace: seq<Action>)
    ensures Clockwise(cfg, EMPTY, trace) && !Unrivalled(cfg, EMPTY, trace) && !NeverFalls(cfg, EMPTY, trace)
  {
    var first, second := Tick("a", 0), Tick("b", cfg.ttl);
    var s1 := Act(cfg, EMPTY, first);
    var s2 := Act(cfg, s1, second);
    assert PhaseOf(s1, "a").Collecting? && PhaseOf(s2, "a") == PhaseOf(s1, "a") && PhaseOf(s2, "b").Collecting?;
    assert !NoRival(s1, second) && Clocked(EMPTY, first) && Clocked(s1, second);
    assert forall o: string :: !PhaseOf(s2, o).Judging?;
    hide Act, NeverFalls, Run, Plain;
    var more := TakeoverLowers(cfg, s2, "a", "b");
    PlainRun(cfg, s2, more);
    trace := [first, second] + more;
    TwoFirst(cfg, EMPTY, first, second, more);
    assert trace[1] == second && trace[..1] == [first];
  }

  lemma TwoSteps(cfg: Config, s: System, x: Action, y: Action)
    ensures Run(cfg, s, [x]) == Act(cfg, s, x) && Run(cfg, s, [x, y]) == Act(cfg, Act(cfg, s, x), y)
  {
    hide Act;
    OneMore(cfg, s, [], x);
    OneMore(cfg, s, [x], y);
    assert [] + [x] == [x] && [x] + [y] == [x, y];
  }

  lemma TwoFirst(cfg: Config, s: System, x: Action, y: Action, more: seq<Action>)
    requires Clocked(s, x) && Clocked(Act(cfg, s, x), y) && Clockwise(cfg, Act(cfg, Act(cfg, s, x), y), more)
    requires !NeverFalls(cfg, Act(cfg, Act(cfg, s, x), y), more)
    ensures Clockwise(cfg, s, [x, y] + more) && !NeverFalls(cfg, s, [x, y] + more)
    ensures Run(cfg, s, [x]) == Act(cfg, s, x)
  {
    hide Act, Clocked, StagesKept;
    var s2, trace := Act(cfg, Act(cfg, s, x), y), [x, y] + more;
    TwoSteps(cfg, s, x, y);
    ClockwiseFirst(cfg, s, x, y, more);
    hide Clockwise, Run;
    var k :| 0 <= k < |more| && !StagesKept(Run(cfg, s2, more[..k]).tables.events, Run(cfg, s2, more[..k + 1]).tables.events);
    assert trace[..k + 2] == [x, y] + more[..k] && trace[..k + 3] == [x, y] + more[..k + 1];
    RunConcat(cfg, s, [x, y], more[..k]);
    RunConcat(cfg, s, [x, y], more[..k + 1]);
  }

  lemma ClockwiseFirst(cfg: Config, s: System, x: Action, y: Action, more: seq<Action>)
    requires Clocked(s, x) && Clocked(Act(cfg, s, x), y) && Clockwise(cfg, Act(cfg, Act(cfg, s, x), y), more)
    ensures Clockwise(cfg, s, [x, y] + more)
  {
    hide Act, Clocked;
    var s2, trace := Act(cfg, Act(cfg, s, x), y), [x, y] + more;
    TwoSteps(cfg, s, x, y);
    assert trace[..0] == [] && trace[..1] == [x];
    forall j | 0 <= j < |trace| ensures Clocked(Run(cfg, s, trace[..j]), trace[j]) {
      if j >= 2 {
        assert trace[..j] == [x, y] + more[..j - 2];
        RunConcat(cfg, s, [x, y], more[..j - 2]);
        assert Clocked(Run(cfg, s2, more[..j - 2]), more[j - 2]);
      }
    }
  }
}
