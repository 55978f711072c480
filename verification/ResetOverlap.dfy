/** What a takeover of the lease can do: while its holder is busy it always can make a message go out
    twice, and otherwise it never does. */
module ResetOverlap {
  import opened Basics
  import opened Ordering
  import opened Confirmation
  import opened Runs
  import opened ResetStore
  import opened ResetMonitor
  import opened ResetSafety
  import opened ResetResults

  // ---- Runs, put together ----

  /** The clock does not run backwards and the lease never passes on while its holder is busy. */
  ghost predicate Calm(cfg: Config, s: System, trace: seq<Action>) {
    Clockwise(cfg, s, trace) && Undisturbed(cfg, s, trace)
  }

  function Stepper(cfg: Config): (System, Action) -> System { (s, a) => Act(cfg, s, a) }

  lemma {:induction false} RunIsFold(cfg: Config, s: System, trace: seq<Action>)
    ensures Run(cfg, s, trace) == Fold(Stepper(cfg), s, trace)
  {
    hide Act;
    if trace != [] { RunIsFold(cfg, s, trace[..|trace| - 1]); }
  }

  lemma RunConcat(cfg: Config, s: System, a: seq<Action>, b: seq<Action>)
    ensures Run(cfg, s, a + b) == Run(cfg, Run(cfg, s, a), b)
  {
    hide Act, Run;
    RunIsFold(cfg, s, a + b);
    RunIsFold(cfg, s, a);
    RunIsFold(cfg, Run(cfg, s, a), b);
    FoldConcat(Stepper(cfg), s, a, b);
  }

  lemma CalmConcat(cfg: Config, s: System, a: seq<Action>, b: seq<Action>)
    requires Calm(cfg, s, a) && Calm(cfg, Run(cfg, s, a), b)
    ensures Calm(cfg, s, a + b) && Run(cfg, s, a + b) == Run(cfg, Run(cfg, s, a), b)
  {
    hide Act, Run, Clocked, NoTakeover;
    RunConcat(cfg, s, a, b);
    var mid := Run(cfg, s, a);
    forall k | 0 <= k < |a + b|
      ensures Clocked(Run(cfg, s, (a + b)[..k]), (a + b)[k]) && NoTakeover(Run(cfg, s, (a + b)[..k]), (a + b)[k])
    {
      if k < |a| {
        assert (a + b)[..k] == a[..k];
        assert Clocked(Run(cfg, s, a[..k]), a[k]) && NoTakeover(Run(cfg, s, a[..k]), a[k]);
      } else {
        var j := k - |a|;
        assert (a + b)[..k] == a + b[..j];
        RunConcat(cfg, s, a, b[..j]);
        assert Clocked(Run(cfg, mid, b[..j]), b[j]) && NoTakeover(Run(cfg, mid, b[..j]), b[j]);
      }
    }
  }

  lemma CalmNone(cfg: Config, s: System)
    ensures Calm(cfg, s, []) && Run(cfg, s, []) == s
  {}

  lemma CalmOne(cfg: Config, s: System, a: Action)
    requires Clocked(s, a) && NoTakeover(s, a)
    ensures Calm(cfg, s, [a]) && Run(cfg, s, [a]) == Act(cfg, s, a)
  {
    hide Act, Clocked, NoTakeover;
    assert [a][..0] == [];
  }

  lemma CalmTwo(cfg: Config, s: System, a: Action, b: Action)
    requires Clocked(s, a) && NoTakeover(s, a) && Clocked(Act(cfg, s, a), b) && NoTakeover(Act(cfg, s, a), b)
    ensures Calm(cfg, s, [a, b]) && Run(cfg, s, [a, b]) == Act(cfg, Act(cfg, s, a), b)
  {
    hide Act, Clocked, NoTakeover, Calm, Run;
    CalmOne(cfg, s, a);
    CalmOne(cfg, Act(cfg, s, a), b);
    CalmConcat(cfg, s, [a], [b]);
    assert [a] + [b] == [a, b];
  }

  // ---- A message nobody has sent ----

  lemma {:induction false} Unused(ids: set<string>) returns (id: string)
    ensures id !in ids && forall s :: s in ids ==> |s| < |id|
  {
    if ids == {} {
      id := "x";
    } else {
      var s :| s in ids;
      var rest := Unused(ids - {s});
      id := rest + s + "x";
      forall t | t in ids ensures |t| < |id| { if t != s { assert t in ids - {s}; } }
    }
  }

  ghost predicate NewId(t: Tables, id: string) {
    && id !in t.events
    && (forall i :: 0 <= i < |t.evidence| ==> t.evidence[i].id != id)
    && (forall stage :: !HasDelivery(t.deliveries, id, stage))
  }

  lemma UnusedId(t: Tables) returns (id: string)
    ensures NewId(t, id)
  {
    var evidence := set i | 0 <= i < |t.evidence| :: t.evidence[i].id;
    var deliveries := set i | 0 <= i < |t.deliveries| :: t.deliveries[i].id;
    id := Unused(t.events.Keys + evidence + deliveries);
    forall i | 0 <= i < |t.evidence| ensures t.evidence[i].id != id { assert t.evidence[i].id in evidence; }
    forall i | 0 <= i < |t.deliveries| ensures t.deliveries[i].id != id { assert t.deliveries[i].id in deliveries; }
  }

  function HintAt(now: int): Evidence {
    Evidence("source", "family", "item", Hint, "title", "url", now, None, None, None, true, false, false)
  }

  lemma {:induction false} SelectNew(rows: seq<EvidenceRow>, id: string, e: Evidence)
    requires forall i :: 0 <= i < |rows| ==> rows[i].id != id
    ensures Select(PutEvidence(rows, id, e), id) == [e] && Select(rows, id) == []
  {
    if rows != [] {
      SelectNew(rows[1..], id, e);
      assert ([EvidenceRow(id, e)] + rows[1..])[1..] == rows[1..];
      assert ([rows[0]] + PutEvidence(rows[1..], id, e))[1..] == PutEvidence(rows[1..], id, e);
    }
  }

  lemma HintClassified(now: int, canonical: Canonical)
    ensures Classify([HintAt(now)], canonical) == Some(Hint)
  {
    assert OfficialHint([HintAt(now)][0]);
  }

  /** An official hint of a new event is queued when it is judged. */
  lemma HintQueued(cfg: Config, t: Tables, id: string, now: int)
    requires NewId(t, id)
    ensures var t' := AdvanceEvent(cfg, t.(evidence := PutEvidence(t.evidence, id, HintAt(now))), id, now);
            && t'.deliveries == t.deliveries + [Delivery(id, Hint, Waiting, 0, now)] && t'.lease == t.lease
            && id in t'.events && t'.events[id].stage == Hint && t'.evidence == PutEvidence(t.evidence, id, HintAt(now))
  {
    var e := HintAt(now);
    SelectNew(t.evidence, id, e);
    assert [e][..0] == [];
    assert EvidenceFor(PutEvidence(t.evidence, id, e), id) == [e];
    HintClassified(now, cfg.canonical);
    var event := UpsertEvent(None, None, Hint, [e], now);
    assert [e][..|[e]| - 1] == [];
    assert Latest([e], (x: Evidence) => x.stage == Announced) == None;
    assert event.announcedTs == None && LatestObserved([e]) == Some(now);
    assert RecentEnough(cfg, Coalesce(event.announcedTs, LatestObserved([e])), now);
  }

  /** The steps of an instance that comes upon a new event. */
  function Announcing(a: string, at: int, id: string, now: int): seq<Action> {
    [Gather(a, at, id, HintAt(now)), Judge(a, at, id), Decide(a, at)]
  }

  /** A collecting instance can come to have a message to send. */
  lemma Announces(cfg: Config, s: System, a: string, id: string)
    requires PhaseOf(s, a).Collecting? && NewId(s.tables, id)
    ensures var now := PhaseOf(s, a).now;
            var trace := Announcing(a, s.clock, id, now);
            var s' := Run(cfg, s, trace);
            && Calm(cfg, s, trace)
            && s'.tables.deliveries == s.tables.deliveries + [Delivery(id, Hint, Waiting, 0, now)]
            && id in s'.tables.events && s'.tables.events[id].stage == Hint
            && s'.tables.evidence == PutEvidence(s.tables.evidence, id, HintAt(now))
            && s'.tables.lease == s.tables.lease && s'.phases == s.phases && s'.clock == s.clock
            && s'.log == s.log + [Staged(id, Hint), Enqueued(id, Hint)]
  {
    var phase := PhaseOf(s, a);
    var now := phase.now;
    var g, j, d := Gather(a, s.clock, id, HintAt(now)), Judge(a, s.clock, id), Decide(a, s.clock);
    HintQueued(cfg, s.tables, id, now);
    SelectNew(s.tables.evidence, id, HintAt(now));
    HintClassified(now, cfg.canonical);
    assert [HintAt(now)][..0] == [];
    var rows := PutEvidence(s.tables.evidence, id, HintAt(now));
    assert EvidenceFor(rows, id) == [HintAt(now)];
    hide AdvanceFrom, PutEvidence, EvidenceFor, Classify, HintAt;
    var s1 := Act(cfg, s, g);
    var s2 := Act(cfg, s1, j);
    CalmTwo(cfg, s, g, j);
    CalmOne(cfg, s2, d);
    CalmConcat(cfg, s, [g, j], [d]);
    assert PhaseOf(s2, a) == Judging(now, phase.until, id, [HintAt(now)], None);
    var s3 := Act(cfg, s2, d);
    assert s3.tables == AdvanceEvent(cfg, s.tables.(evidence := rows), id, now);
    assert s3.phases == s.phases;
    assert s.log + [Staged(id, Hint)] + [Enqueued(id, Hint)] == s.log + [Staged(id, Hint), Enqueued(id, Hint)];
    assert [g, j] + [d] == Announcing(a, s.clock, id, now);
  }

  // ---- Both send it ----

  /** b holds the lease while a is still to send d, which waits and is due. */
  ghost predicate Overlapped(s: System, a: string, b: string, d: Delivery) {
    && a != b && PhaseOf(s, a).Dispatching? && PhaseOf(s, a).due != [] && PhaseOf(s, a).due[0] == d
    && s.tables.lease.Some? && s.tables.lease.value.owner == b
    && DistinctDeliveries(s.tables.deliveries)
    && d in s.tables.deliveries && d.status == Waiting && d.nextAttempt <= s.clock
    && Results(s.log, d.id, d.stage, true) == 0
  }

  /** What b is to send is due and waits. */
  ghost predicate Loaded(s: System, b: string) {
    var phase := PhaseOf(s, b);
    && phase.Dispatching? && !phase.sending && phase.now == s.clock && DistinctDeliveries(phase.due)
    && forall x :: x in phase.due ==> x in s.tables.deliveries && x.status == Waiting && x.nextAttempt <= s.clock
  }

  lemma {:induction false} DueShrinks(rows: seq<Delivery>, rows': seq<Delivery>, k: nat, now: int)
    requires k < |rows| == |rows'| && rows[k].status == Waiting && rows[k].nextAttempt <= now && rows'[k].status != Waiting
    requires forall i :: 0 <= i < |rows| && i != k ==> rows'[i] == rows[i]
    ensures |Due(rows', now)| == |Due(rows, now)| - 1
    decreases |rows|
  {
    var n := |rows| - 1;
    if k < n {
      DueShrinks(rows[..n], rows'[..n], k, now);
    } else {
      assert rows'[..n] == rows[..n];
    }
  }

  /** b sends one message, and it arrives. */
  lemma SendsOne(cfg: Config, s: System, a: string, b: string, d: Delivery) returns (s': System)
    requires Overlapped(s, a, b, d) && Loaded(s, b) && PhaseOf(s, b).due != []
    ensures Calm(cfg, s, [Send(b, s.clock), Hear(b, s.clock, 1)]) && s' == Run(cfg, s, [Send(b, s.clock), Hear(b, s.clock, 1)])
    ensures s'.clock == s.clock && PhaseOf(s', a) == PhaseOf(s, a)
    ensures |Due(s'.tables.deliveries, s.clock)| < |Due(s.tables.deliveries, s.clock)|
    ensures if PhaseOf(s, b).due[0] == d then Results(s'.log, d.id, d.stage, true) == 1
            else Overlapped(s', a, b, d) && Loaded(s', b)
  {
    var phase := PhaseOf(s, b);
    var x := phase.due[0];
    var k := RowIndex(s.tables.deliveries, x);
    s' := Sent(cfg, s, a, b);
    BookedRows(cfg, s.tables, x, s.clock, 1, k);
    SameKeys(s.tables.deliveries, s'.tables.deliveries);
    DueShrinks(s.tables.deliveries, s'.tables.deliveries, k, s.clock);
    RestDue(s.tables.deliveries, s'.tables.deliveries, phase.due, k, s.clock);
    var o, o' := Attempt(x.id, x.stage, phase.now, s.clock), Result(x.id, x.stage, phase.now, s.clock, true);
    CountAppend(s.log, o, d.id, d.stage);
    CountAppend(s.log + [o], o', d.id, d.stage);
    if x != d {
      var i := RowIndex(s.tables.deliveries, d);
      assert s'.tables.deliveries[i] == d && !SameMessage(x, d);
    }
  }

  lemma Sent(cfg: Config, s: System, a: string, b: string) returns (s': System)
    requires a != b && PhaseOf(s, b).Dispatching? && !PhaseOf(s, b).sending && PhaseOf(s, b).due != []
    ensures Calm(cfg, s, [Send(b, s.clock), Hear(b, s.clock, 1)]) && s' == Run(cfg, s, [Send(b, s.clock), Hear(b, s.clock, 1)])
    ensures var phase, x := PhaseOf(s, b), PhaseOf(s, b).due[0];
            && s'.clock == s.clock && PhaseOf(s', a) == PhaseOf(s, a)
            && PhaseOf(s', b) == phase.(due := phase.due[1..])
            && s'.tables == BookOutcome(cfg, s.tables, x, phase.now, 1)
            && s'.log == s.log + [Attempt(x.id, x.stage, phase.now, s.clock)] + [Result(x.id, x.stage, phase.now, s.clock, true)]
  {
    hide BookOutcome;
    CalmTwo(cfg, s, Send(b, s.clock), Hear(b, s.clock, 1));
    s' := Run(cfg, s, [Send(b, s.clock), Hear(b, s.clock, 1)]);
  }

  /** b starts over: its lease is its own to renew. */
  lemma StartsOver(cfg: Config, s: System, a: string, b: string, d: Delivery) returns (trace: seq<Action>, s': System)
    requires Overlapped(s, a, b, d)
    requires (Loaded(s, b) && PhaseOf(s, b).due == []) || PhaseOf(s, b) == Collecting(s.clock, s.clock + cfg.ttl)
    ensures Calm(cfg, s, trace) && s' == Run(cfg, s, trace)
    ensures Overlapped(s', a, b, d) && Loaded(s', b) && PhaseOf(s', b).due != []
    ensures s'.tables.deliveries == s.tables.deliveries && s'.clock == s.clock && PhaseOf(s', a) == PhaseOf(s, a)
  {
    hide Act, Run, Calm, Overlapped;
    var first, mid := TicksOver(cfg, s, a, b, d);
    var more: seq<Action>;
    more, s' := LoadsOver(cfg, mid, a, b, d);
    CalmConcat(cfg, s, first, more);
    trace := first + more;
  }

  lemma TicksOver(cfg: Config, s: System, a: string, b: string, d: Delivery) returns (trace: seq<Action>, s': System)
    requires Overlapped(s, a, b, d)
    requires (Loaded(s, b) && PhaseOf(s, b).due == []) || PhaseOf(s, b) == Collecting(s.clock, s.clock + cfg.ttl)
    ensures Calm(cfg, s, trace) && s' == Run(cfg, s, trace)
    ensures Overlapped(s', a, b, d) && PhaseOf(s', b) == Collecting(s'.clock, s'.clock + cfg.ttl)
    ensures s'.tables.deliveries == s.tables.deliveries && s'.clock == s.clock && PhaseOf(s', a) == PhaseOf(s, a)
  {
    trace, s' := [], s;
    CalmNone(cfg, s);
    if PhaseOf(s, b).Dispatching? {
      var end, tick := End(b, s.clock), Tick(b, s.clock);
      CountAppend(s.log, Acquired(b, s.clock, s.clock + cfg.ttl), d.id, d.stage);
      EndCase(cfg, s, b);
      var s1 := s.(phases := s.phases[b := Off]);
      TickCase(cfg, s1, b, s.clock);
      s' := Act(cfg, s1, tick);
      hide Act, Results, DistinctDeliveries, Run, Calm;
      CalmTwo(cfg, s, end, tick);
      trace := [end, tick];
    }
  }

  lemma EndCase(cfg: Config, s: System, b: string)
    requires PhaseOf(s, b).Dispatching? && !PhaseOf(s, b).sending && PhaseOf(s, b).due == []
    ensures Act(cfg, s, End(b, s.clock)) == s.(phases := s.phases[b := Off])
  {}

  lemma TickCase(cfg: Config, s: System, b: string, at: int)
    requires PhaseOf(s, b).Off? && LeaseFree(s.tables.lease, b, at)
    ensures Act(cfg, s, Tick(b, at)) ==
      System(s.tables.(lease := Some(Lease(b, at + cfg.ttl))), s.phases[b := Collecting(at, at + cfg.ttl)], at,
             s.log + [Acquired(b, at, at + cfg.ttl)])
  {}

  lemma LoadsOver(cfg: Config, s: System, a: string, b: string, d: Delivery) returns (trace: seq<Action>, s': System)
    requires Overlapped(s, a, b, d) && PhaseOf(s, b) == Collecting(s.clock, s.clock + cfg.ttl)
    ensures Calm(cfg, s, trace) && s' == Run(cfg, s, trace)
    ensures Overlapped(s', a, b, d) && Loaded(s', b) && PhaseOf(s', b).due != []
    ensures s'.tables.deliveries == s.tables.deliveries && s'.clock == s.clock && PhaseOf(s', a) == PhaseOf(s, a)
  {
    LoadDue(s.tables.deliveries, s.clock);
    SomeDue(s.tables.deliveries, s.clock, d);
    hide DueDeliveries, DistinctDeliveries, Results;
    trace := [Load(b, s.clock)];
    CalmOne(cfg, s, trace[0]);
    s' := Act(cfg, s, trace[0]);
  }

  /** In the end b sends d, if need be in several ticks. */
  lemma {:induction false} Delivers(cfg: Config, s: System, a: string, b: string, d: Delivery)
    returns (trace: seq<Action>, s': System)
    requires Overlapped(s, a, b, d) && Loaded(s, b)
    ensures Calm(cfg, s, trace) && s' == Run(cfg, s, trace)
    ensures s'.clock == s.clock && PhaseOf(s', a) == PhaseOf(s, a) && Results(s'.log, d.id, d.stage, true) == 1
    decreases |Due(s.tables.deliveries, s.clock)|, if PhaseOf(s, b).due == [] then 1 else 0
  {
    hide Act, Run, Calm, Overlapped;
    var first: seq<Action>, mid: System;
    if PhaseOf(s, b).due == [] {
      first, mid := StartsOver(cfg, s, a, b, d);
    } else {
      first := [Send(b, s.clock), Hear(b, s.clock, 1)];
      mid := SendsOne(cfg, s, a, b, d);
      if PhaseOf(s, b).due[0] == d { return first, mid; }
    }
    var rest: seq<Action>;
    rest, s' := Delivers(cfg, mid, a, b, d);
    CalmConcat(cfg, s, first, rest);
    trace := first + rest;
  }

  /** And so does a, which has read it before. */
  lemma SendsAgain(cfg: Config, s: System, a: string, d: Delivery) returns (trace: seq<Action>)
    requires PhaseOf(s, a).Dispatching? && PhaseOf(s, a).due != [] && PhaseOf(s, a).due[0] == d
    ensures Calm(cfg, s, trace)
    ensures Results(Run(cfg, s, trace).log, d.id, d.stage, true) == Results(s.log, d.id, d.stage, true) + 1
  {
    hide BookOutcome;
    var now := PhaseOf(s, a).now;
    var o, o' := Attempt(d.id, d.stage, now, s.clock), Result(d.id, d.stage, now, s.clock, true);
    if PhaseOf(s, a).sending {
      trace := [Hear(a, s.clock, 1)];
      CalmOne(cfg, s, trace[0]);
      CountAppend(s.log, o', d.id, d.stage);
    } else {
      trace := [Send(a, s.clock), Hear(a, s.clock, 1)];
      CalmTwo(cfg, s, trace[0], trace[1]);
      CountAppend(s.log, o, d.id, d.stage);
      CountAppend(s.log + [o], o', d.id, d.stage);
    }
  }

  // ---- The condition is exact ----

  ghost predicate NoneTwice(log: seq<Obs>) {
    forall id, stage :: Results(log, id, stage, true) <= 1
  }

  /** Where a and b are when b has taken the lease: a still collects, or it has a message to send. */
  ghost predicate Taken(cfg: Config, s: System, a: string, b: string) {
    && a != b && Busy(PhaseOf(s, a)) && PhaseOf(s, a).now <= s.clock
    && PhaseOf(s, b) == Collecting(s.clock, s.clock + cfg.ttl)
    && s.tables.lease == Some(Lease(b, s.clock + cfg.ttl))
    && DistinctDeliveries(s.tables.deliveries)
    && (forall i :: 0 <= i < |s.tables.deliveries| ==> Unheard(s, s.tables.deliveries[i]))
    && (forall id, stage :: !HasDelivery(s.tables.deliveries, id, stage) ==> Results(s.log, id, stage, true) == 0)
    && (PhaseOf(s, a).Dispatching? ==> Fits(s, PhaseOf(s, a).due[0], PhaseOf(s, a).now))
    && (PhaseOf(s, a).Judging? ==> EventOf(s.tables, PhaseOf(s, a).id) == PhaseOf(s, a).read)
  }

  ghost predicate Unheard(s: System, d: Delivery) {
    d.status == Waiting ==> Results(s.log, d.id, d.stage, true) == 0
  }

  ghost predicate Fits(s: System, d: Delivery, now: int) {
    d in s.tables.deliveries && d.status == Waiting && d.nextAttempt <= now
  }

  lemma Takes(cfg: Config, s: System, a: string, b: string, at: int)
    requires Inv(cfg, s) && TakesLease(s, Tick(b, at)) && Busy(PhaseOf(s, a)) && PhaseOf(s, a).now <= at && a != b
    ensures Taken(cfg, Act(cfg, s, Tick(b, at)), a, b) && Act(cfg, s, Tick(b, at)).clock == at
  {
    var s' := Act(cfg, s, Tick(b, at));
    var o := Acquired(b, at, at + cfg.ttl);
    assert PhaseOf(s', a) == PhaseOf(s, a) && s'.log == s.log + [o];
    assert DueOk(s, PhaseOf(s, a));
    forall id, stage ensures Results(s'.log, id, stage, true) == Results(s.log, id, stage, true) {
      CountAppend(s.log, o, id, stage);
    }
    forall i | 0 <= i < |s.tables.deliveries| ensures Unheard(s', s.tables.deliveries[i]) {
      assert RowOk(cfg, s.log, s.tables.deliveries[i], IsSending(s, s.tables.deliveries[i]));
    }
  }

  lemma SomeDue(rows: seq<Delivery>, now: int, d: Delivery)
    requires d in rows && d.status == Waiting && d.nextAttempt <= now
    ensures DueDeliveries(rows, now) != []
  {
    DueMember(rows, now, d);
    SortMember(Due(rows, now), ByNextAttempt, d);
  }

  /** If a is about to write what it has judged, it does so. */
  lemma Settles(cfg: Config, s: System, a: string, b: string) returns (trace: seq<Action>, s': System)
    requires Taken(cfg, s, a, b)
    ensures Calm(cfg, s, trace) && s' == Run(cfg, s, trace) && Taken(cfg, s', a, b) && !PhaseOf(s', a).Judging?
  {
    trace, s' := [], s;
    CalmNone(cfg, s);
    var phase := PhaseOf(s, a);
    if phase.Judging? {
      hide AdvanceFrom, Touch, Taken, Advances;
      trace := [Decide(a, s.clock)];
      CalmOne(cfg, s, trace[0]);
      s' := Act(cfg, s, trace[0]);
      ReadsOwn(cfg, s, a, b);
      var t := AdvanceFrom(cfg, s.tables, phase.id, phase.evidence, phase.read, phase.now);
      AdvanceAdvances(cfg, s.tables, phase.id, phase.evidence, phase.now);
      TouchTaken(cfg, s, a, b, phase.id, t, phase.now);
    }
  }

  lemma ReadsOwn(cfg: Config, s: System, a: string, b: string)
    requires Taken(cfg, s, a, b) && PhaseOf(s, a).Judging?
    ensures PhaseOf(s, a).read == EventOf(s.tables, PhaseOf(s, a).id) && s.(clock := s.clock) == s
  {}

  lemma TouchTaken(cfg: Config, s: System, a: string, b: string, id: string, t: Tables, now: int)
    requires Taken(cfg, s, a, b) && PhaseOf(s, a).Judging? && Advances(s.tables, t, id, now)
    ensures var phase := Collecting(PhaseOf(s, a).now, PhaseOf(s, a).until);
            Taken(cfg, Touch(s, id, t).(phases := s.phases[a := phase]), a, b)
  {
    var s' := Touch(s, id, t).(phases := s.phases[a := Collecting(PhaseOf(s, a).now, PhaseOf(s, a).until)]);
    var rows, rows' := s.tables.deliveries, t.deliveries;
    assert PhaseOf(s', b) == PhaseOf(s, b);
    forall i, stage ensures Results(s'.log, i, stage, true) == Results(s.log, i, stage, true) { TouchResults(s, id, t, i, stage); }
    hide Touch, Results, EventOf;
    forall i, stage | HasDelivery(rows, i, stage) ensures HasDelivery(rows', i, stage) {
      var k :| 0 <= k < |rows| && rows[k].id == i && rows[k].stage == stage;
      assert rows'[k] == rows[k];
    }
    forall i | 0 <= i < |rows'| ensures Unheard(s', rows'[i]) {
      if i < |rows| { assert rows'[i] == rows[i] && Unheard(s, rows[i]); }
    }
  }

  lemma TouchResults(s: System, id: string, t: Tables, i: string, stage: Stage)
    ensures Results(Touch(s, id, t).log, i, stage, true) == Results(s.log, i, stage, true)
  {
    var moved := id in t.events && (id !in s.tables.events || s.tables.events[id].stage != t.events[id].stage);
    var staged := if moved then [Staged(id, t.events[id].stage)] else [];
    assert s.log + [] == s.log && s.log + staged + [] == s.log + staged;
    if moved { CountAppend(s.log, Staged(id, t.events[id].stage), i, stage); }
    if |t.deliveries| > |s.tables.deliveries| {
      CountAppend(s.log + staged, Enqueued(id, t.deliveries[|t.deliveries| - 1].stage), i, stage);
    }
  }

  /** a comes to have a message to send, if it has none yet. */
  lemma Finds(cfg: Config, s: System, a: string, b: string) returns (trace: seq<Action>, s': System)
    requires Taken(cfg, s, a, b) && !PhaseOf(s, a).Judging?
    ensures Calm(cfg, s, trace) && s' == Run(cfg, s, trace) && Taken(cfg, s', a, b) && !PhaseOf(s', a).Judging?
    ensures PhaseOf(s', a).Collecting? ==> DueDeliveries(s'.tables.deliveries, PhaseOf(s', a).now) != []
  {
    assert Busy(PhaseOf(s, a));
    CalmNone(cfg, s);
    hide Act, Run, Calm, Taken, NewId, HintAt;
    var now := PhaseOf(s, a).now;
    if PhaseOf(s, a).Collecting? && DueDeliveries(s.tables.deliveries, now) == [] {
      var id := UnusedId(s.tables);
      Announces(cfg, s, a, id);
      trace := Announcing(a, s.clock, id, now);
      s' := Run(cfg, s, trace);
      var row := Delivery(id, Hint, Waiting, 0, now);
      AnnouncedTaken(cfg, s, s', a, b, id, row);
      SomeDue(s'.tables.deliveries, now, row);
    } else {
      trace, s' := [], s;
    }
  }

  lemma AnnouncedTaken(cfg: Config, s: System, s': System, a: string, b: string, id: string, row: Delivery)
    requires Taken(cfg, s, a, b) && PhaseOf(s, a).Collecting? && NewId(s.tables, id)
    requires row.id == id && row.stage == Hint && s'.tables.deliveries == s.tables.deliveries + [row]
    requires s'.tables.lease == s.tables.lease && s'.phases == s.phases && s'.clock == s.clock
    requires s'.log == s.log + [Staged(id, Hint), Enqueued(id, Hint)]
    ensures Taken(cfg, s', a, b)
  {
    var rows, rows' := s.tables.deliveries, s'.tables.deliveries;
    assert s'.log == s.log + [Staged(id, Hint)] + [Enqueued(id, Hint)];
    forall i, stage ensures Results(s'.log, i, stage, true) == Results(s.log, i, stage, true) {
      CountAppend(s.log, Staged(id, Hint), i, stage);
      CountAppend(s.log + [Staged(id, Hint)], Enqueued(id, Hint), i, stage);
    }
    assert !HasDelivery(rows, id, Hint);
    forall i, stage | HasDelivery(rows, i, stage) ensures HasDelivery(rows', i, stage) {
      var k :| 0 <= k < |rows| && rows[k].id == i && rows[k].stage == stage;
      assert rows'[k] == rows[k];
    }
    forall i | 0 <= i < |rows'| ensures Unheard(s', rows'[i]) {
      if i < |rows| { assert rows'[i] == rows[i] && Unheard(s, rows[i]); }
    }
  }

  lemma Reads(cfg: Config, s: System, a: string, b: string) returns (trace: seq<Action>, s': System, d: Delivery)
    requires Taken(cfg, s, a, b) && !PhaseOf(s, a).Judging?
    requires PhaseOf(s, a).Collecting? ==> DueDeliveries(s.tables.deliveries, PhaseOf(s, a).now) != []
    ensures Calm(cfg, s, trace) && s' == Run(cfg, s, trace)
    ensures Overlapped(s', a, b, d) && PhaseOf(s', b) == Collecting(s'.clock, s'.clock + cfg.ttl)
  {
    trace, s' := [], s;
    if PhaseOf(s, a).Collecting? {
      trace := [Load(a, s.clock)];
      CalmOne(cfg, s, trace[0]);
      s' := Act(cfg, s, trace[0]);
      LoadDue(s.tables.deliveries, PhaseOf(s, a).now);
      assert PhaseOf(s', b) == PhaseOf(s, b) && PhaseOf(s', a).due[0] in PhaseOf(s', a).due;
    }
    d := PhaseOf(s', a).due[0];
    var k := RowIndex(s.tables.deliveries, d);
    assert Unheard(s, s.tables.deliveries[k]);
  }

  /** If the lease passes on while its holder is busy, some calm continuation sends a message twice. */
  lemma TakeoverSendsTwice(cfg: Config, s: System, a: string, b: string, at: int) returns (more: seq<Action>)
    requires Inv(cfg, s) && TakesLease(s, Tick(b, at)) && Busy(PhaseOf(s, a)) && PhaseOf(s, a).now <= at && a != b
    ensures Calm(cfg, Act(cfg, s, Tick(b, at)), more)
    ensures !NoneTwice(Run(cfg, Act(cfg, s, Tick(b, at)), more).log)
  {
    hide Act, Run, Calm, Overlapped, Taken, Inv;
    var s0 := Act(cfg, s, Tick(b, at));
    Takes(cfg, s, a, b, at);
    var t0, sa := Settles(cfg, s0, a, b);
    var t1, s1 := Finds(cfg, sa, a, b);
    var t2, s2, d := Reads(cfg, s1, a, b);
    var t3, s3 := StartsOver(cfg, s2, a, b, d);
    var t4, s4 := Delivers(cfg, s3, a, b, d);
    OverlapSends(s3, a, b, d);
    var t5 := SendsAgain(cfg, s4, a, d);
    CalmConcat(cfg, s0, t0, t1);
    CalmConcat(cfg, s0, t0 + t1, t2);
    CalmConcat(cfg, s0, t0 + t1 + t2, t3);
    CalmConcat(cfg, s0, t0 + t1 + t2 + t3, t4);
    CalmConcat(cfg, s0, t0 + t1 + t2 + t3 + t4, t5);
    more := t0 + t1 + t2 + t3 + t4 + t5;
    assert Results(Run(cfg, s0, more).log, d.id, d.stage, true) == 2;
  }

  lemma OverlapSends(s: System, a: string, b: string, d: Delivery)
    requires Overlapped(s, a, b, d)
    ensures PhaseOf(s, a).Dispatching? && PhaseOf(s, a).due != [] && PhaseOf(s, a).due[0] == d
  {}

  /** Exactly the takeovers from a busy holder are dangerous: when an instance takes the lease, no calm
      continuation sends a message twice if and only if no other instance is busy, or the lease was its
      own. */
  lemma TakeoverSafeIff(cfg: Config, s: System, b: string, at: int)
    requires Inv(cfg, s) && cfg.maxAttempts >= 1 && TakesLease(s, Tick(b, at))
    requires forall o: string :: Busy(PhaseOf(s, o)) ==> PhaseOf(s, o).now <= at
    ensures NoTakeover(s, Tick(b, at))
      <==> forall more :: Calm(cfg, Act(cfg, s, Tick(b, at)), more) ==> NoneTwice(Run(cfg, Act(cfg, s, Tick(b, at)), more).log)
  {
    hide Act, Run, Inv;
    var s0 := Act(cfg, s, Tick(b, at));
    if NoTakeover(s, Tick(b, at)) {
      ActKeeps(cfg, s, Tick(b, at));
      forall more | Calm(cfg, s0, more) ensures NoneTwice(Run(cfg, s0, more).log) {
        EveryRun(cfg, s0, more);
        NeverTwice(cfg, Run(cfg, s0, more));
      }
    } else {
      var a: string :| Busy(PhaseOf(s, a));
      var more := TakeoverSendsTwice(cfg, s, a, b, at);
    }
  }

  lemma NeverTwice(cfg: Config, s: System)
    requires Inv(cfg, s)
    ensures NoneTwice(s.log)
  {
    forall id, stage ensures Results(s.log, id, stage, true) <= 1 { LogBounds(cfg, s.log, id, stage); }
  }

  /** It can come to that: from the empty store, a is still collecting when its lease runs out and b takes
      it. */
  lemma LateTickSendsTwice(cfg: Config) returns (trace: seq<Action>)
    requires cfg.maxAttempts >= 1
    ensures Clockwise(cfg, EMPTY, trace) && !Undisturbed(cfg, EMPTY, trace)
    ensures !NoneTwice(Run(cfg, EMPTY, trace).log)
  {
    var first, second := Tick("a", 0), Tick("b", cfg.ttl);
    var s := Act(cfg, EMPTY, first);
    EveryRun(cfg, EMPTY, []);
    CalmOne(cfg, EMPTY, first);
    ActKeeps(cfg, EMPTY, first);
    assert Busy(PhaseOf(s, "a")) && !NoTakeover(s, second);
    var more := TakeoverSendsTwice(cfg, s, "a", "b", cfg.ttl);
    trace := LateTrace(cfg, s, first, second, more);
  }

  lemma LateTrace(cfg: Config, s: System, first: Action, second: Action, more: seq<Action>) returns (trace: seq<Action>)
    requires Clocked(EMPTY, first) && s == Act(cfg, EMPTY, first) && Clocked(s, second) && !NoTakeover(s, second)
    requires Clockwise(cfg, Act(cfg, s, second), more)
    ensures Clockwise(cfg, EMPTY, trace) && !Undisturbed(cfg, EMPTY, trace)
    ensures Run(cfg, EMPTY, trace) == Run(cfg, Act(cfg, s, second), more)
  {
    hide Act, Clocked, NoTakeover;
    trace := [first, second] + more;
    assert trace[..0] == [] && trace[..1] == [first] && trace[..2] == [first, second] == [first] + [second];
    assert [first][..0] == [] && [second][..0] == [];
    RunConcat(cfg, EMPTY, [first], [second]);
    RunConcat(cfg, EMPTY, [first, second], more);
    assert Run(cfg, EMPTY, [first]) == s && Run(cfg, s, [second]) == Act(cfg, s, second);
    assert !NoTakeover(Run(cfg, EMPTY, trace[..1]), trace[1]);
    forall k | 0 <= k < |trace| ensures Clocked(Run(cfg, EMPTY, trace[..k]), trace[k]) {
      if k >= 2 {
        var j := k - 2;
        assert trace[..k] == [first, second] + more[..j];
        RunConcat(cfg, EMPTY, [first, second], more[..j]);
        assert Clocked(Run(cfg, Act(cfg, s, second), more[..j]), more[j]);
      }
    }
  }
}
