/** The dispatch loop as a run of the interleaving machine, and why the queue drains. */
module HookProgress {
  import opened Basics
  import opened Ordering
  import opened Runs
  import opened CodexHooks
  import opened HookSafety

  // ---- The loop is a run ----

  function Stepper(cfg: Config): (Manager, Action) -> Manager { (m, a) => Act(cfg, m, a) }

  lemma {:induction false} RunIsFold(cfg: Config, m: Manager, trace: seq<Action>)
    ensures Run(cfg, m, trace) == Fold(Stepper(cfg), m, trace)
  {
    if trace != [] { RunIsFold(cfg, m, trace[..|trace| - 1]); }
  }

  lemma RunConcat(cfg: Config, m: Manager, a: seq<Action>, b: seq<Action>)
    ensures Run(cfg, m, a + b) == Run(cfg, Run(cfg, m, a), b)
  {
    RunIsFold(cfg, m, a + b);
    RunIsFold(cfg, m, a);
    RunIsFold(cfg, Run(cfg, m, a), b);
    FoldConcat(Stepper(cfg), m, a, b);
  }

  function Meeting(o: Outer): Action {
    match o
    case Event(e, now) => DoIngest(e, now)
    case Pruning(before) => DoPrune(before)
  }

  function Meetings(outers: seq<Outer>): seq<Action> { Map(Meeting, outers) }

  lemma {:induction false} MeetAllIsRun(cfg: Config, m: Manager, outers: seq<Outer>)
    ensures MeetAll(cfg, m, outers) == Run(cfg, m, Meetings(outers))
  {
    if outers != [] {
      var n := |outers| - 1;
      MeetAllIsRun(cfg, m, outers[..n]);
      assert Meetings(outers)[..n] == Meetings(outers[..n]);
    }
  }

  lemma RunOne(cfg: Config, m: Manager, a: Action)
    ensures Run(cfg, m, [a]) == Act(cfg, m, a)
  {
    assert [a][..0] == [];
  }

  /** The actions of one turn of the loop. */
  function TurnActions(m: Manager, k: nat, outside: Outside): seq<Action> {
    var picked := PickNext(m);
    if picked.dispatch.Some? && picked.dispatch.value.sending.Some? then
      [DoPick] + Meetings(outside.during(k)) + [DoFinish(outside.delivered(k))]
    else [DoPick]
  }

  lemma TurnIsRun(cfg: Config, m: Manager, k: nat, outside: Outside)
    ensures Turn(cfg, m, k, outside).0 == Run(cfg, m, TurnActions(m, k, outside))
  {
    var meetings := Meetings(outside.during(k));
    RunOne(cfg, m, DoPick);
    MeetAllIsRun(cfg, PickNext(m), outside.during(k));
    RunConcat(cfg, m, [DoPick], meetings);
    RunConcat(cfg, m, [DoPick] + meetings, [DoFinish(outside.delivered(k))]);
    RunOne(cfg, Run(cfg, m, [DoPick] + meetings), DoFinish(outside.delivered(k)));
  }

  /** What comes from outside during a run, in order. */
  function Arrivals(trace: seq<Action>): seq<Outer> {
    if trace == [] then []
    else
      Arrivals(trace[..|trace| - 1]) +
      match trace[|trace| - 1]
      case DoIngest(e, now) => [Event(e, now)]
      case DoPrune(before) => [Pruning(before)]
      case _ => []
  }

  lemma {:induction false} ArrivalsConcat(a: seq<Action>, b: seq<Action>)
    ensures Arrivals(a + b) == Arrivals(a) + Arrivals(b)
  {
    if b == [] {
      assert a + b == a && Arrivals(a) + [] == Arrivals(a);
    } else {
      var n := |b| - 1;
      assert (a + b)[..|a| + n] == a + b[..n];
      ArrivalsConcat(a, b[..n]);
    }
  }

  lemma {:induction false} MeetingsArrive(outers: seq<Outer>)
    ensures Arrivals(Meetings(outers)) == outers
  {
    if outers != [] {
      var n := |outers| - 1;
      MeetingsArrive(outers[..n]);
      assert Meetings(outers)[..n] == Meetings(outers[..n]);
      assert outers == outers[..n] + [outers[n]];
    }
  }

  /** What comes during the sends k, ..., n - 1. */
  function During(outside: Outside, k: nat, n: nat): seq<Outer> {
    if n <= k then [] else During(outside, k, n - 1) + outside.during(n - 1)
  }

  lemma {:induction false} DuringSplit(outside: Outside, k: nat, n: nat)
    requires k < n
    ensures During(outside, k, n) == outside.during(k) + During(outside, k + 1, n)
  {
    if n == k + 1 {
      assert [] + outside.during(k) == outside.during(k) + [];
    } else {
      DuringSplit(outside, k, n - 1);
    }
  }

  lemma TurnArrivals(m: Manager, k: nat, outside: Outside)
    ensures var started := PickNext(m).dispatch.Some? && PickNext(m).dispatch.value.sending.Some?;
            Arrivals(TurnActions(m, k, outside)) == if started then outside.during(k) else []
  {
    hide PickNext;
    assert [DoPick][..0] == [] && Arrivals([DoPick]) == [];
    if PickNext(m).dispatch.Some? && PickNext(m).dispatch.value.sending.Some? {
      var finish := DoFinish(outside.delivered(k));
      assert [finish][..0] == [] && Arrivals([finish]) == [];
      MeetingsArrive(outside.during(k));
      ArrivalsConcat([DoPick], Meetings(outside.during(k)));
      ArrivalsConcat([DoPick] + Meetings(outside.during(k)), [finish]);
    }
  }

  /** The rest of a dispatch is a run of the machine, and what comes during that run is exactly what the
      outside brings during its sends, in order. */
  lemma {:induction false} DispatchIsRun(cfg: Config, m: Manager, k: nat, outside: Outside) returns (trace: seq<Action>, n: nat)
    requires m.dispatch.Some? ==> m.dispatch.value.sending.None?
    ensures Dispatching(cfg, m, k, outside) == Run(cfg, m, trace)
    ensures n >= k && Arrivals(trace) == During(outside, k, n)
    decreases DueLeft(m)
  {
    hide PickNext, FinishSend, MeetAll, TurnActions, Dispatching, Act;
    if m.dispatch.None? {
      AtRest(cfg, m, k, outside);
      trace, n := [], k;
    } else {
      var (m', k') := Turn(cfg, m, k, outside);
      Unfold(cfg, m, k, outside);
      var rest: seq<Action>;
      rest, n := DispatchIsRun(cfg, m', k', outside);
      TurnIsRun(cfg, m, k, outside);
      TurnArrivals(m, k, outside);
      RunConcat(cfg, m, TurnActions(m, k, outside), rest);
      ArrivalsConcat(TurnActions(m, k, outside), rest);
      if k' == k + 1 { DuringSplit(outside, k, n); }
      trace := TurnActions(m, k, outside) + rest;
    }
  }

  /** A whole dispatch, from the moment it finds what is due, is a run during which exactly that comes which
      the outside brings during its sends. */
  lemma WholeDispatchIsRun(cfg: Config, m: Manager, now: int, outside: Outside) returns (trace: seq<Action>, n: nat)
    requires m.dispatch.None?
    ensures WholeDispatch(cfg, m, now, outside) == Run(cfg, m, trace)
    ensures Arrivals(trace) == During(outside, 0, n)
  {
    var rest: seq<Action>;
    rest, n := DispatchIsRun(cfg, BeginDispatch(cfg, m, now), 0, outside);
    RunOne(cfg, m, DoBegin(now));
    RunConcat(cfg, m, [DoBegin(now)], rest);
    ArrivalsConcat([DoBegin(now)], rest);
    assert [DoBegin(now)][..0] == [] && Arrivals([DoBegin(now)]) == [];
    trace := [DoBegin(now)] + rest;
  }

  // ---- Draining ----

  /** The sends the candidates of a list have left. */
  function SendsLeft(items: seq<Item>): int {
    if items == [] then 0 else 3 - items[0].attempts + SendsLeft(items[1..])
  }

  lemma {:induction false} SendsLeftAppend(items: seq<Item>, x: Item)
    ensures SendsLeft(items + [x]) == SendsLeft(items) + 3 - x.attempts
  {
    if items == [] {
      assert items + [x] == [x];
    } else {
      assert (items + [x])[1..] == items[1..] + [x];
      SendsLeftAppend(items[1..], x);
    }
  }

  lemma {:induction false} WithoutAbsent(items: seq<Item>, id: Id)
    requires forall x :: x in items ==> x.id != id
    ensures Without(items, id) == items
  {
    if items != [] { WithoutAbsent(items[1..], id); }
  }

  lemma {:induction false} SendsLeftWithout(items: seq<Item>, x: Item)
    requires DistinctIds(items) && x in items
    ensures SendsLeft(Without(items, x.id)) == SendsLeft(items) - (3 - x.attempts)
  {
    if items[0].id == x.id {
      WithoutAbsent(items[1..], x.id);
    } else {
      SendsLeftWithout(items[1..], x);
      var p := (y: Item) => y.id != x.id;
      assert Without(items, x.id) == [items[0]] + Keep(items[1..], p);
      assert ([items[0]] + Keep(items[1..], p))[1..] == Keep(items[1..], p);
    }
  }

  /** Picking a due candidate takes its sends off the queue. */
  lemma PickDrains(cfg: Config, m: Manager)
    requires Inv(cfg, m) && m.dispatch.Some? && m.dispatch.value.sending.None? && m.dispatch.value.due != []
    requires forall x :: x in m.dispatch.value.due ==> x in m.pending
    ensures var d := m.dispatch.value;
            var item := d.due[0];
            var picked := PickNext(m);
            && Inv(cfg, picked)
            && picked.dispatch == Some(d.(due := d.due[1..],
                 sending := if (item.id, item.category) in m.receipts then None else Some(item)))
            && (forall x :: x in d.due[1..] ==> x in picked.pending)
            && (forall x :: x in picked.pending ==> x.id != item.id)
            && SendsLeft(picked.pending) == SendsLeft(m.pending) - (3 - item.attempts)
            && item.attempts <= 2
  {
    var item := m.dispatch.value.due[0];
    FindMember(m.pending, item.id);
    TailDistinct(m.dispatch.value.due);
    PickKeeps(cfg, m);
    PickCases(m);
    WithoutPlace(m.pending, item.id);
    SendsLeftWithout(m.pending, item);
    assert Idle(cfg, m.log, item);
    hide PickNext, Without, SendsLeft, Idle, LogOk, TicketsOk, Inv, Find;
  }

  /** A failed candidate comes back with one send less. */
  lemma FinishDrains(cfg: Config, m: Manager, delivered: nat)
    requires Inv(cfg, m) && m.dispatch.Some? && m.dispatch.value.sending.Some?
    requires forall x :: x in m.pending ==> x.id != m.dispatch.value.sending.value.id
    ensures var d := m.dispatch.value;
            var m' := FinishSend(m, delivered);
            && Inv(cfg, m')
            && m'.dispatch == Some(d.(sending := None))
            && (forall x :: x in m.pending ==> x in m'.pending)
            && SendsLeft(m'.pending) + 1 <= SendsLeft(m.pending) + (3 - d.sending.value.attempts)
  {
    var again := Again(m.dispatch.value, m.dispatch.value.sending.value);
    FinishKeeps(cfg, m, delivered);
    EndsSend(m, delivered);
    PutNew(m.pending, again);
    SendsLeftAppend(m.pending, again);
    assert Sending(cfg, m.log, m.dispatch.value.sending.value, m.dispatch.value.now);
    hide FinishSend, Put, SendsLeft, Inv;
  }

  /** A candidate that is dispatched without any event in between uses up at least one send. */
  lemma TurnDrains(cfg: Config, m: Manager, k: nat, outside: Outside)
    requires Inv(cfg, m) && m.dispatch.Some? && m.dispatch.value.sending.None? && m.dispatch.value.due != []
    requires forall x :: x in m.dispatch.value.due ==> x in m.pending
    requires outside.during(k) == []
    ensures var m' := Turn(cfg, m, k, outside).0;
            && Inv(cfg, m')
            && m'.dispatch == Some(m.dispatch.value.(due := m.dispatch.value.due[1..]))
            && (forall x :: x in m.dispatch.value.due[1..] ==> x in m'.pending)
            && SendsLeft(m'.pending) + 1 <= SendsLeft(m.pending)
  {
    PickDrains(cfg, m);
    if PickNext(m).dispatch.value.sending.Some? { FinishDrains(cfg, PickNext(m), outside.delivered(k)); }
  }

  lemma {:induction false} LoopDrains(cfg: Config, m: Manager, k: nat, outside: Outside)
    requires Inv(cfg, m) && m.dispatch.Some? && m.dispatch.value.sending.None?
    requires forall x :: x in m.dispatch.value.due ==> x in m.pending
    requires forall i :: outside.during(i) == []
    ensures SendsLeft(Dispatching(cfg, m, k, outside).pending) + |m.dispatch.value.due| <= SendsLeft(m.pending)
    decreases |m.dispatch.value.due|
  {
    var (m', k') := Turn(cfg, m, k, outside);
    Unfold(cfg, m, k, outside);
    if m.dispatch.value.due != [] {
      TurnDrains(cfg, m, k, outside);
      LoopDrains(cfg, m', k', outside);
    } else {
      assert Dispatching(cfg, m', k', outside) == m';
    }
  }

  lemma {:induction false} KeepAll(items: seq<Item>, p: Item -> bool)
    requires forall x :: x in items ==> p(x)
    ensures Keep(items, p) == items
  {
    if items != [] { KeepAll(items[1..], p); }
  }

  /** With no new events, a dispatch that finds every candidate due uses up a send of each of them,
      whatever the outcomes: the queue drains. */
  lemma EveryDispatchDrains(cfg: Config, m: Manager, now: int, outside: Outside)
    requires Inv(cfg, m) && m.dispatch.None?
    requires forall x :: x in m.pending ==> x.dueAt <= now
    requires forall i :: outside.during(i) == []
    ensures var after := WholeDispatch(cfg, m, now, outside);
            SendsLeft(after.pending) <= SendsLeft(m.pending) - |m.pending|
  {
    KeepAll(m.pending, (x: Item) => x.dueAt <= now);
    DueItemsShape(m.pending, now);
    BeginKeeps(cfg, m, now);
    var begun := BeginDispatch(cfg, m, now);
    if m.pending != [] {
      assert |DueItems(m.pending, now)| == |m.pending|;
      LoopDrains(cfg, begun, 0, outside);
    }
  }

  /** Each waiting candidate has one to three sends left, so `SendsLeft` bounds the queue. */
  lemma {:induction false} SendsLeftBounds(items: seq<Item>)
    requires forall x :: x in items ==> x.attempts <= 2
    ensures |items| <= SendsLeft(items) <= 3 * |items|
  {
    if items != [] { SendsLeftBounds(items[1..]); }
  }

  /** A dispatched candidate is gone or comes back with one attempt more; the others stay. */
  lemma TurnRaises(cfg: Config, m: Manager, k: nat, outside: Outside)
    requires Inv(cfg, m) && m.dispatch.Some? && m.dispatch.value.sending.None? && m.dispatch.value.due != []
    requires forall x :: x in m.dispatch.value.due ==> x in m.pending
    requires outside.during(k) == []
    ensures var item := m.dispatch.value.due[0];
            forall x :: x in Turn(cfg, m, k, outside).0.pending ==>
              (x in m.pending && x.id != item.id) || x.attempts == item.attempts + 1
  {
    var d := m.dispatch.value;
    var item := d.due[0];
    PickDrains(cfg, m);
    FindMember(m.pending, item.id);
    PickCases(m);
    var picked := PickNext(m);
    forall x ensures x in picked.pending <==> x in m.pending && x.id != item.id { WithoutMember(m.pending, item.id, x); }
    hide PickNext, Inv;
    if picked.dispatch.value.sending.Some? {
      assert MeetAll(cfg, picked, outside.during(k)) == picked;
      FinishRaises(cfg, picked, outside.delivered(k));
    }
  }

  lemma FinishRaises(cfg: Config, m: Manager, delivered: nat)
    requires Inv(cfg, m) && m.dispatch.Some? && m.dispatch.value.sending.Some?
    requires forall x :: x in m.pending ==> x.id != m.dispatch.value.sending.value.id
    ensures forall x :: x in FinishSend(m, delivered).pending ==>
      x in m.pending || x.attempts == m.dispatch.value.sending.value.attempts + 1
  {
    EndsSend(m, delivered);
    PutNew(m.pending, Again(m.dispatch.value, m.dispatch.value.sending.value));
    hide FinishSend, Put;
  }

  lemma {:induction false} LoopRaises(cfg: Config, m: Manager, k: nat, outside: Outside, least: nat)
    requires Inv(cfg, m) && m.dispatch.Some? && m.dispatch.value.sending.None?
    requires forall x :: x in m.dispatch.value.due ==> x in m.pending && x.attempts >= least
    requires forall x :: x in m.pending ==> x in m.dispatch.value.due || x.attempts >= least + 1
    requires forall i :: outside.during(i) == []
    ensures var after := Dispatching(cfg, m, k, outside);
            Inv(cfg, after) && after.dispatch.None? && forall x :: x in after.pending ==> x.attempts >= least + 1
    decreases |m.dispatch.value.due|
  {
    var d := m.dispatch.value;
    if d.due == [] {
      LastTurn(cfg, m, k, outside);
      PickKeeps(cfg, m);
    } else {
      var (m', k') := Turn(cfg, m, k, outside);
      TurnDrains(cfg, m, k, outside);
      TurnRaises(cfg, m, k, outside);
      Unfold(cfg, m, k, outside);
      TailDistinct(d.due);
      hide Inv, Turn, Dispatching;
      forall x | x in m'.pending ensures x in d.due[1..] || x.attempts >= least + 1 {
        if x in m.pending && x.id != d.due[0].id && x in d.due {
          var i :| 0 <= i < |d.due| && d.due[i] == x;
          assert d.due[1..][i - 1] == x;
        }
      }
      LoopRaises(cfg, m', k', outside, least);
    }
  }

  lemma DispatchRaises(cfg: Config, m: Manager, now: int, outside: Outside, least: nat)
    requires Inv(cfg, m) && m.dispatch.None?
    requires forall x :: x in m.pending ==> x.dueAt <= now && x.attempts >= least
    requires forall i :: outside.during(i) == []
    ensures var after := WholeDispatch(cfg, m, now, outside);
            Inv(cfg, after) && forall x :: x in after.pending ==> x.attempts >= least + 1
  {
    DueItemsShape(m.pending, now);
    BeginKeeps(cfg, m, now);
    var begun := BeginDispatch(cfg, m, now);
    if begun.dispatch.Some? {
      LoopRaises(cfg, begun, 0, outside, least);
    } else {
      AtRest(cfg, begun, 0, outside);
      forall x | x in m.pending ensures x in DueItems(m.pending, now) {}
    }
  }

  /** The queue drains: after three dispatches, each past all due times, with no new events, nothing
      waits, whatever reaches whom. */
  lemma ThreeDispatchesDrain(cfg: Config, m: Manager, t1: int, t2: int, t3: int, o1: Outside, o2: Outside, o3: Outside)
    requires Inv(cfg, m) && m.dispatch.None?
    requires forall i :: o1.during(i) == [] && o2.during(i) == [] && o3.during(i) == []
    requires forall x :: x in m.pending ==> x.dueAt <= t1
    requires forall x :: x in WholeDispatch(cfg, m, t1, o1).pending ==> x.dueAt <= t2
    requires forall x :: x in WholeDispatch(cfg, WholeDispatch(cfg, m, t1, o1), t2, o2).pending ==> x.dueAt <= t3
    ensures WholeDispatch(cfg, WholeDispatch(cfg, WholeDispatch(cfg, m, t1, o1), t2, o2), t3, o3).pending == []
  {
    hide WholeDispatch, Inv;
    var m1 := WholeDispatch(cfg, m, t1, o1);
    var m2 := WholeDispatch(cfg, m1, t2, o2);
    DispatchRaises(cfg, m, t1, o1, 0);
    DispatchRaises(cfg, m1, t2, o2, 1);
    DispatchRaises(cfg, m2, t3, o3, 2);
    NoneLeft(cfg, WholeDispatch(cfg, m2, t3, o3));
  }

  lemma {:induction false} SendsSpent(items: seq<Item>)
    requires forall x :: x in items ==> x.attempts >= 3
    ensures SendsLeft(items) <= 0
  {
    if items != [] { SendsSpent(items[1..]); }
  }

  lemma Bounded(cfg: Config, m: Manager)
    requires Inv(cfg, m)
    ensures forall x :: x in m.pending ==> x.attempts <= 2
  {
    forall x | x in m.pending ensures x.attempts <= 2 { assert Idle(cfg, m.log, x); }
  }

  lemma NoneLeft(cfg: Config, m: Manager)
    requires Inv(cfg, m) && forall x :: x in m.pending ==> x.attempts >= 3
    ensures m.pending == []
  {
    hide Inv, SendsLeft;
    Bounded(cfg, m);
    SendsSpent(m.pending);
    SendsLeftBounds(m.pending);
  }
}
