/** The hook notifier relies on event ids. Ids that never repeat suffice for all its guarantees, whatever
    its memory of seen ids forgets; and a forgotten id that is used again can revive a cancelled candidate. */
module HookIds {
  import opened Basics
  import opened Ordering
  import opened CodexHooks
  import opened HookSafety
  import opened HookProgress
  import opened HookCancel
  import opened HookLoss

  // ---- Unique ids suffice ----

  ghost predicate Live(m: Manager, id: Id) {
    || (exists x :: x in m.pending && x.id == id)
    || (m.dispatch.Some? && exists x :: x in m.dispatch.value.due && x.id == id)
    || (m.dispatch.Some? && m.dispatch.value.sending.Some? && m.dispatch.value.sending.value.id == id)
  }

  /** An event that is taken for a new one does not carry the id of a candidate that is still around. */
  ghost predicate Fresh(m: Manager, a: Action) {
    a.DoIngest? && a.event.id !in m.seen ==> !Live(m, a.event.id)
  }

  lemma FreshSpares(cfg: Config, m: Manager, a: Action)
    requires Fresh(m, a)
    ensures Spares(cfg, m, a) && Harmless(cfg, m, a)
  {
    hide Queues;
    if a.DoIngest? && a.event.id !in m.seen {
      assert forall x :: x in m.pending ==> Live(m, x.id);
      assert m.dispatch.Some? ==> forall x :: x in m.dispatch.value.due ==> Live(m, x.id);
    }
  }

  lemma {:induction false} PutMember(items: seq<Item>, item: Item, x: Item)
    ensures x in Put(items, item) ==> x == item || x in items
  {
    if items != [] { PutMember(items[1..], item, x); }
  }

  ghost predicate NewerIds(m: Manager, m': Manager, id: Id) {
    forall other :: Live(m', other) ==> Live(m, other) || other == id
  }

  lemma CancelIds(m: Manager, session: string, turn: Option<string>, category: Option<Category>, id: Id)
    ensures NewerIds(m, Cancel(m, session, turn, category), id)
  {
    forall x | x in Cancel(m, session, turn, category).pending ensures x in m.pending {
      KeepMember(m.pending, (x: Item) => !Hits(x, session, turn, category), x);
    }
  }

  lemma QueueIds(cfg: Config, m: Manager, e: HookEvent, category: Category, now: int, task: string, result: string)
    ensures NewerIds(m, Queue(cfg, m, e, category, now, task, result), e.id)
  {
    var m' := Queue(cfg, m, e, category, now, task, result);
    var item := m'.log[|m.log|].item;
    forall x | x in m'.pending ensures x in m.pending || x.id == e.id { PutMember(m.pending, item, x); }
  }

  lemma StopIds(cfg: Config, m: Manager, e: HookEvent, now: int)
    ensures NewerIds(m, OnStop(cfg, m, e, now), e.id)
  {
    hide Cancel, Queue, StopCategory, TaskSummary, Or;
    var m' := if Named(e.turn) then Cancel(m, e.session, e.turn, Some(ApprovalRequired)) else m;
    CancelIds(m, e.session, e.turn, Some(ApprovalRequired), e.id);
    var key := (e.session, if e.turn.Some? then e.turn.value else "");
    var state := if key in m'.turns then Some(m'.turns[key]) else None;
    var m'' := m'.(turns := m'.turns - {key});
    var elapsed := if state.Some? then Some(now - state.value.startedAt) else None;
    var result := Or(e.resultSummary, "The Codex turn has ended.");
    assert NewerIds(m, m'', e.id);
    var category := StopCategory(cfg, result, elapsed);
    if category.Some? {
      QueueIds(cfg, m'', e, category.value, now, if state.Some? then state.value.taskSummary else TaskSummary(m'', e), result);
    }
  }

  lemma IngestIds(cfg: Config, m: Manager, e: HookEvent, now: int)
    ensures NewerIds(m, Ingest(cfg, m, e, now), e.id)
  {
    hide Cancel, Queue, MarkSeen, TaskSummary, Or;
    if e.id !in m.seen {
      var m1 := m.(seen := MarkSeen(m.seen, e.id, now));
      match e.name
      case UserPromptSubmit =>
        CancelIds(m1, e.session, None, None, e.id);
        assert forall id :: Live(OnPrompt(m1, e, now), id) ==> Live(Cancel(m1, e.session, None, None), id);
      case PostToolUse => CancelIds(m1, e.session, e.turn, Some(ApprovalRequired), e.id);
      case SessionEnd => CancelIds(m1, e.session, None, None, e.id);
      case PermissionRequest =>
        QueueIds(cfg, m1, e, ApprovalRequired, now, TaskSummary(m1, e), Or(e.resultSummary, "Codex is waiting for approval."));
      case Stop => if !e.continued { StopIds(cfg, m1, e, now); }
    }
  }

  lemma DispatchIds(cfg: Config, m: Manager, a: Action, id: Id)
    requires !a.DoIngest? && Live(Act(cfg, m, a), id)
    ensures Live(m, id)
  {
    match a
    case DoPrune(_) =>
    case DoBegin(now) =>
      forall x | x in DueItems(m.pending, now) ensures x in m.pending {
        SortMember(Keep(m.pending, (x: Item) => x.dueAt <= now), ByDue, x);
        KeepMember(m.pending, (x: Item) => x.dueAt <= now, x);
      }
    case DoPick =>
      if m.dispatch.Some? && m.dispatch.value.sending.None? && m.dispatch.value.due != [] {
        PickCases(m);
        var item := m.dispatch.value.due[0];
        forall x | x in Without(m.pending, item.id) ensures x in m.pending { WithoutMember(m.pending, item.id, x); }
        assert item in m.dispatch.value.due;
      } else {
        PickQuiet(m);
      }
    case DoFinish(delivered) => FinishIds(m, delivered, id);
  }

  lemma FinishIds(m: Manager, delivered: nat, id: Id)
    requires Live(FinishSend(m, delivered), id)
    ensures Live(m, id)
  {
    if m.dispatch.Some? && m.dispatch.value.sending.Some? {
      var s := m.dispatch.value.sending.value;
      forall x | x in FinishSend(m, delivered).pending ensures x in m.pending || x.id == s.id {
        PutMember(m.pending, Again(m.dispatch.value, s), x);
      }
    }
  }

  ghost predicate Ingested(trace: seq<Action>, id: Id) {
    exists k :: 0 <= k < |Arrivals(trace)| && Arrivals(trace)[k].Event? && Arrivals(trace)[k].event.id == id
  }

  lemma {:induction false} LiveWasIngested(cfg: Config, trace: seq<Action>, id: Id)
    requires Live(Run(cfg, EMPTY, trace), id)
    ensures Ingested(trace, id)
  {
    hide Act, Live;
    if trace == [] {
      NoneLive(id);
    } else {
      var n := |trace| - 1;
      var m, a := Run(cfg, EMPTY, trace[..n]), trace[n];
      LiveBefore(cfg, m, a, id);
      if Live(m, id) {
        LiveWasIngested(cfg, trace[..n], id);
        var k :| 0 <= k < |Arrivals(trace[..n])| && Arrivals(trace[..n])[k].Event? && Arrivals(trace[..n])[k].event.id == id;
        assert Arrivals(trace)[k] == Arrivals(trace[..n])[k];
      } else {
        assert Arrivals(trace)[|Arrivals(trace[..n])|] == Event(a.event, a.now);
      }
    }
  }

  lemma NoneLive(id: Id)
    ensures !Live(EMPTY, id)
  {}

  lemma LiveBefore(cfg: Config, m: Manager, a: Action, id: Id)
    requires Live(Act(cfg, m, a), id)
    ensures Live(m, id) || (a.DoIngest? && a.event.id == id)
  {
    hide Live;
    if a.DoIngest? { IngestIds(cfg, m, a.event, a.now); } else { DispatchIds(cfg, m, a, id); }
  }

  ghost predicate DistinctEvents(outers: seq<Outer>) {
    forall i, j :: 0 <= i < j < |outers| && outers[i].Event? && outers[j].Event? ==> outers[i].event.id != outers[j].event.id
  }

  /** What arrives at position k is new, if no id arrives twice. */
  lemma ArrivesOnce(trace: seq<Action>, k: nat)
    requires k < |trace| && trace[k].DoIngest? && DistinctEvents(Arrivals(trace))
    ensures !Ingested(trace[..k], trace[k].event.id)
  {
    assert trace[..k + 1][..k] == trace[..k] && trace == trace[..k + 1] + trace[k + 1..];
    ArrivalsConcat(trace[..k + 1], trace[k + 1..]);
    var before := Arrivals(trace[..k]);
    assert Arrivals(trace[..k + 1]) == before + [Event(trace[k].event, trace[k].now)];
    assert Arrivals(trace)[|before|] == Event(trace[k].event, trace[k].now);
    forall i | 0 <= i < |before| && before[i].Event? ensures before[i].event.id != trace[k].event.id {
      assert Arrivals(trace)[i] == before[i];
    }
  }

  /** If no event id arrives twice, every run from the start meets the conditions of cancellation and of
      accounting, however much the memory of seen ids forgets. */
  lemma UniqueIdsAreFresh(cfg: Config, trace: seq<Action>)
    requires DistinctEvents(Arrivals(trace))
    ensures SparesAll(cfg, EMPTY, trace) && HarmlessAll(cfg, EMPTY, trace)
  {
    hide Run, Live, Ingested, Arrivals, Harmless, Spares, DistinctEvents;
    forall k | 0 <= k < |trace|
      ensures Spares(cfg, Run(cfg, EMPTY, trace[..k]), trace[k]) && Harmless(cfg, Run(cfg, EMPTY, trace[..k]), trace[k])
    {
      var m := Run(cfg, EMPTY, trace[..k]);
      if trace[k].DoIngest? {
        ArrivesOnce(trace, k);
        if Live(m, trace[k].event.id) { LiveWasIngested(cfg, trace[..k], trace[k].event.id); }
      }
      FreshSpares(cfg, m, trace[k]);
    }
  }

  /** So the dispatch that the source writes, with whatever comes during its awaits, keeps all guarantees:
      no candidate is sent too often or too early, none that is cancelled is sent, and none is lost. */
  lemma DispatchesSafely(cfg: Config, before: seq<Action>, now: int, outside: Outside)
    requires Run(cfg, EMPTY, before).dispatch.None?
    requires forall n: nat :: DistinctEvents(Arrivals(before) + During(outside, 0, n))
    ensures Kept(cfg, WholeDispatch(cfg, Run(cfg, EMPTY, before), now, outside))
  {
    var trace, n := WholeDispatchIsRun(cfg, Run(cfg, EMPTY, before), now, outside);
    RunConcat(cfg, EMPTY, before, trace);
    ArrivalsConcat(before, trace);
    hide Run, WholeDispatch, Arrivals, During, DistinctEvents, Kept;
    assert DistinctEvents(Arrivals(before + trace));
    UniqueIdsAreFresh(cfg, before + trace);
    StartKept(cfg);
    NothingLost(cfg, EMPTY, before + trace);
  }

  // ---- A forgotten id ----

  const LATER := SEEN_SECONDS + 1

  const X_EVENT := HookEvent(1, PermissionRequest, "A", None, "", "", false)
  const Y_EVENT := HookEvent(0, PermissionRequest, "C", None, "", "", false)

  function XItem(cfg: Config): Item {
    Item(1, "A", "session", ApprovalRequired, "Codex task", "Codex is waiting for approval.", 0, cfg.grace, 0, 0)
  }

  function YItem(cfg: Config): Item {
    Item(0, "C", "session", ApprovalRequired, "Codex task", "Codex is waiting for approval.", 0, cfg.grace, 0, 1)
  }

  /** Two candidates are queued and due, and the first send is under way. */
  function Opening(cfg: Config): seq<Action> {
    [DoIngest(X_EVENT, 0), DoIngest(Y_EVENT, 0), DoBegin(cfg.grace), DoPick]
  }

  function Filler(i: nat): Action { DoIngest(HookEvent(i + 2, PostToolUse, "F", None, "", "", false), LATER) }

  /** A day later, n tool uses of another session. */
  function Fillers(n: nat): seq<Action> { if n == 0 then [] else Fillers(n - 1) + [Filler(n - 1)] }

  function SeenAfter(n: nat): (seen: map<Id, int>)
    ensures |seen| == n + 2
    ensures forall i :: i in seen <==> 0 <= i < n + 2
    ensures forall i :: i in seen ==> seen[i] == if i < 2 then 0 else LATER
  {
    if n == 0 then
      assert |map[1 := 0][0 := 0]| == 2;
      map[1 := 0][0 := 0]
    else SeenAfter(n - 1)[n + 1 := LATER]
  }

  /** x waits behind the send of y. */
  ghost predicate Behind(cfg: Config, m: Manager) {
    && m.dispatch == Some(Dispatch(cfg.grace, [XItem(cfg)], Some(YItem(cfg)))) && m.receipts == map[]
  }

  lemma FirstIngests(cfg: Config) returns (m: Manager)
    ensures m == Ingest(cfg, Ingest(cfg, EMPTY, X_EVENT, 0), Y_EVENT, 0)
    ensures m.pending == [XItem(cfg), YItem(cfg)] && m.seen == SeenAfter(0) && m.receipts == map[]
    ensures m.dispatch == None && m.inflight == []
  {
    var m1 := Ingest(cfg, EMPTY, X_EVENT, 0);
    assert MarkSeen(map[], 1, 0) == map[1 := 0];
    assert m1.pending == [XItem(cfg)] && m1.seen == map[1 := 0] && m1.tickets == 1;
    assert [XItem(cfg)][1..] == [];
    m := Ingest(cfg, m1, Y_EVENT, 0);
    assert m1.seen[0 := 0] == SeenAfter(0);
    assert Put([XItem(cfg)], YItem(cfg)) == [XItem(cfg), YItem(cfg)];
  }

  lemma SortsTwo(a: Item, b: Item)
    requires !ByDue(a, b)
    ensures Sort([a, b], ByDue) == [b, a]
  {
    assert [a, b][..1] == [a] && [a][..0] == [];
    assert Sort([a], ByDue) == [a];
    assert Insert([a], b, ByDue) == [b, a];
  }

  lemma OpensSend(cfg: Config, m: Manager) returns (m': Manager)
    requires m.pending == [XItem(cfg), YItem(cfg)] && m.receipts == map[] && m.dispatch == None && m.inflight == []
    ensures m' == PickNext(BeginDispatch(cfg, m, cfg.grace)) && Behind(cfg, m') && m'.seen == m.seen
  {
    var x, y := XItem(cfg), YItem(cfg);
    var now: int := cfg.grace;
    assert [x, y][1..] == [y] && [y][1..] == [];
    KeepAll(m.pending, (i: Item) => i.dueAt <= now);
    SortsTwo(x, y);
    assert DueItems(m.pending, now) == [y, x];
    var begun := BeginDispatch(cfg, m, cfg.grace);
    assert begun.dispatch == Some(Dispatch(cfg.grace, [y, x], None)) && begun.receipts == map[];
    assert [y, x][1..] == [x];
    assert Find(m.pending, 0) == Some(y);
    hide BeginDispatch, Find, Without, Put;
    m' := PickNext(begun);
  }

  /** The four first steps, from the start. */
  lemma Opens(cfg: Config) returns (m: Manager)
    ensures m == Run(cfg, EMPTY, Opening(cfg)) && Behind(cfg, m) && m.seen == SeenAfter(0)
  {
    var m2 := FirstIngests(cfg);
    m := OpensSend(cfg, m2);
    FourSteps(cfg, EMPTY, DoIngest(X_EVENT, 0), DoIngest(Y_EVENT, 0), DoBegin(cfg.grace), DoPick);
  }

  lemma FourSteps(cfg: Config, m: Manager, a: Action, b: Action, c: Action, d: Action)
    ensures Run(cfg, m, [a, b, c, d]) == Act(cfg, Act(cfg, Act(cfg, Act(cfg, m, a), b), c), d)
  {
    hide Act;
    assert [a, b, c, d][..3] == [a, b, c] && [a, b, c][..2] == [a, b] && [a, b][..1] == [a] && [a][..0] == [];
    assert Run(cfg, m, [a]) == Act(cfg, m, a);
    assert Run(cfg, m, [a, b]) == Act(cfg, Act(cfg, m, a), b);
    assert Run(cfg, m, [a, b, c]) == Act(cfg, Act(cfg, Act(cfg, m, a), b), c);
  }

  /** A tool use of another session is only remembered. */
  lemma Fills(cfg: Config, m: Manager, n: nat)
    requires Behind(cfg, m) && n + 2 !in m.seen
    ensures var m' := Act(cfg, m, Filler(n));
            Behind(cfg, m') && m'.seen == MarkSeen(m.seen, n + 2, LATER)
  {
    hide MarkSeen, Keep;
  }

  lemma SeenGrows(n: nat)
    requires n + 3 <= SEEN_LIMIT
    ensures MarkSeen(SeenAfter(n), n + 2, LATER) == SeenAfter(n + 1)
  {
    assert SeenAfter(n)[n + 2 := LATER] == SeenAfter(n + 1);
  }

  /** With one more than the limit, the ids of the day before are forgotten. */
  lemma SeenForgets(n: nat)
    requires n + 3 == SEEN_LIMIT + 1
    ensures 1 !in MarkSeen(SeenAfter(n), n + 2, LATER)
  {
    assert SeenAfter(n)[n + 2 := LATER] == SeenAfter(n + 1);
  }

  lemma {:induction false} Fill(cfg: Config, m: Manager, n: nat)
    requires Behind(cfg, m) && m.seen == SeenAfter(0) && n + 2 <= SEEN_LIMIT
    ensures var m' := Run(cfg, m, Fillers(n));
            Behind(cfg, m') && m'.seen == SeenAfter(n)
  {
    hide Act, Behind, MarkSeen, Run;
    if n == 0 {
      RunNone(cfg, m);
    } else {
      Fill(cfg, m, n - 1);
      var mid := Run(cfg, m, Fillers(n - 1));
      Fills(cfg, mid, n - 1);
      SeenGrows(n - 1);
      LastFiller(cfg, m, n);
    }
  }

  lemma LastFiller(cfg: Config, m: Manager, n: nat)
    requires n >= 1
    ensures Run(cfg, m, Fillers(n)) == Act(cfg, Run(cfg, m, Fillers(n - 1)), Filler(n - 1))
  {
    hide Act, Filler;
    RunOne(cfg, Run(cfg, m, Fillers(n - 1)), Filler(n - 1));
    RunConcat(cfg, m, Fillers(n - 1), [Filler(n - 1)]);
  }

  /** From the start: a candidate of session A waits behind a send that takes more than a day, and more
      events arrive than the memory holds. All that was harmless and spared everyone. But then an event of
      session B may come with the candidate's id. */
  lemma ForgottenId(cfg: Config) returns (before: seq<Action>, reuse: HookEvent)
    ensures HarmlessAll(cfg, EMPTY, before) && SparesAll(cfg, EMPTY, before)
    ensures var m := Run(cfg, EMPTY, before);
            !Harmless(cfg, m, DoIngest(reuse, LATER)) && !Spares(cfg, m, DoIngest(reuse, LATER))
  {
    var n := SEEN_LIMIT - 1;
    reuse := HookEvent(1, PermissionRequest, "B", None, "", "", false);
    hide Run, Arrivals, Fillers, Opening, Behind, Filler, MarkSeen, SeenAfter, Harmless, Spares, DistinctEvents;
    var m := Opens(cfg);
    Fill(cfg, m, n - 1);
    var mid := Run(cfg, m, Fillers(n - 1));
    SeenForgets(n - 1);
    assert n + 1 !in SeenAfter(n - 1);
    Fills(cfg, mid, n - 1);
    before := Opening(cfg) + Fillers(n);
    LastFiller(cfg, m, n);
    RunConcat(cfg, EMPTY, Opening(cfg), Fillers(n));
    DistinctBefore(cfg, n);
    UniqueIdsAreFresh(cfg, before);
    Reuses(cfg, Run(cfg, EMPTY, before), reuse);
  }

  lemma DistinctBefore(cfg: Config, n: nat)
    ensures DistinctEvents(Arrivals(Opening(cfg) + Fillers(n)))
  {
    ArrivalsConcat(Opening(cfg), Fillers(n));
    OpeningArrivals(cfg);
    FillersArrive(n);
    hide Arrivals, Fillers, Opening;
  }

  lemma OpeningArrivals(cfg: Config)
    ensures Arrivals(Opening(cfg)) == [Event(X_EVENT, 0), Event(Y_EVENT, 0)]
  {
    var a, b, c, d := DoIngest(X_EVENT, 0), DoIngest(Y_EVENT, 0), DoBegin(cfg.grace), DoPick;
    assert [a, b, c, d][..3] == [a, b, c] && [a, b, c][..2] == [a, b] && [a, b][..1] == [a] && [a][..0] == [];
    assert Arrivals([a]) == [Event(X_EVENT, 0)];
    assert Arrivals([a, b]) == [Event(X_EVENT, 0), Event(Y_EVENT, 0)];
    assert Arrivals([a, b, c]) == Arrivals([a, b]);
  }

  lemma {:induction false} FillersArrive(n: nat)
    ensures |Arrivals(Fillers(n))| == n
    ensures forall i :: 0 <= i < n ==> Arrivals(Fillers(n))[i].Event? && Arrivals(Fillers(n))[i].event.id == i + 2
  {
    if n > 0 {
      FillersArrive(n - 1);
      assert Fillers(n)[..|Fillers(n)| - 1] == Fillers(n - 1);
    }
  }

  /** The candidate of A can be cancelled and still be sent. */
  lemma ForgottenIdWakesTheDead(cfg: Config) returns (before: seq<Action>, reuse: HookEvent, more: seq<Action>)
    ensures HarmlessAll(cfg, EMPTY, before) && !Harmless(cfg, Run(cfg, EMPTY, before), DoIngest(reuse, LATER))
    ensures HarmlessAll(cfg, Ingest(cfg, Run(cfg, EMPTY, before), reuse, LATER), more)
    ensures !LogQuiet(Run(cfg, Ingest(cfg, Run(cfg, EMPTY, before), reuse, LATER), more).log)
  {
    before, reuse := ForgottenId(cfg);
    StartSound();
    RunSound(cfg, EMPTY, before);
    more := HarmfulReuseRevives(cfg, Run(cfg, EMPTY, before), reuse, LATER);
  }

  /** And the candidate of B can be lost. */
  lemma ForgottenIdLosesOne(cfg: Config) returns (before: seq<Action>, reuse: HookEvent, more: seq<Action>)
    ensures SparesAll(cfg, EMPTY, before) && !Spares(cfg, Run(cfg, EMPTY, before), DoIngest(reuse, LATER))
    ensures SparesAll(cfg, Ingest(cfg, Run(cfg, EMPTY, before), reuse, LATER), more)
    ensures !NoneLost(Run(cfg, Ingest(cfg, Run(cfg, EMPTY, before), reuse, LATER), more))
  {
    before, reuse := ForgottenId(cfg);
    StartKept(cfg);
    NothingLost(cfg, EMPTY, before);
    more := ReuseLoses(cfg, Run(cfg, EMPTY, before), reuse, LATER);
  }

  lemma Reuses(cfg: Config, m: Manager, reuse: HookEvent)
    requires Behind(cfg, m) && 1 !in m.seen && reuse == HookEvent(1, PermissionRequest, "B", None, "", "", false)
    ensures !Harmless(cfg, m, DoIngest(reuse, LATER)) && !Spares(cfg, m, DoIngest(reuse, LATER))
  {
    assert XItem(cfg) in m.dispatch.value.due;
  }
}
