/** What an event silences, which events are ignored as repeated, and what a dispatch begins with. Said of the
    candidates and the tables before and after, without the functions that compute them. */
module HookTells {
  import opened Basics
  import opened Ordering
  import opened CodexHooks
  import opened HookSafety
  import opened HookStops

  // ---- What an event silences ----

  /** A prompt or the end of a session silences the session. A tool that was used silences the requests for
      approval of its turn, or without a turn those of its session; and so does the stop of a turn, unless it is
      continued. */
  predicate Silences(e: HookEvent, x: Item) {
    e.session == x.session &&
    match e.name
    case UserPromptSubmit => true
    case SessionEnd => true
    case PostToolUse => x.category == ApprovalRequired && (e.turn == None || e.turn == Some(x.turn))
    case Stop => !e.continued && x.category == ApprovalRequired && e.turn == Some(x.turn) && x.turn != ""
    case PermissionRequest => false
  }

  lemma {:induction false} PutOthers(items: seq<Item>, item: Item, x: Item)
    requires x.id != item.id
    ensures x in Put(items, item) <==> x in items
  {
    if items != [] && items[0].id != item.id { PutOthers(items[1..], item, x); }
  }

  lemma CancelTakes(m: Manager, session: string, turn: Option<string>, category: Option<Category>, x: Item)
    ensures var m' := Cancel(m, session, turn, category);
            && (x in m'.pending <==> x in m.pending && !Hits(x, session, turn, category))
            && (x in m'.inflight <==> x in m.inflight && !Hits(x, session, turn, category))
  {
    var p := (y: Item) => !Hits(y, session, turn, category);
    KeepMember(m.pending, p, x);
    KeepMember(m.inflight, p, x);
  }

  /** The others stay: whatever an event queues, it replaces only a candidate with its own id. */
  lemma QueueLeaves(cfg: Config, m: Manager, e: HookEvent, category: Category, now: int, task: string, result: string, x: Item)
    requires x.id != e.id
    ensures var m' := Queue(cfg, m, e, category, now, task, result);
            (x in m'.pending <==> x in m.pending) && m'.inflight == m.inflight
  {
    var m' := Queue(cfg, m, e, category, now, task, result);
    PutOthers(m.pending, m'.log[|m.log|].item, x);
  }

  lemma StopTakes(cfg: Config, m: Manager, e: HookEvent, now: int, x: Item)
    requires x.id != e.id
    ensures var m' := OnStop(cfg, m, e, now);
            var hit := e.turn.Some? && e.turn.value != "" && Hits(x, e.session, e.turn, Some(ApprovalRequired));
            (x in m'.pending <==> x in m.pending && !hit) && (x in m'.inflight <==> x in m.inflight && !hit)
  {
    CancelTakes(m, e.session, e.turn, Some(ApprovalRequired), x);
    var cut := if Named(e.turn) then Cancel(m, e.session, e.turn, Some(ApprovalRequired)) else m;
    var key := (e.session, if e.turn.Some? then e.turn.value else "");
    var mid := cut.(turns := cut.turns - {key});
    hide Cancel, Hits, Queue, StopCategory;
    forall category, task, result
      ensures var m' := Queue(cfg, mid, e, category, now, task, result);
              (x in m'.pending <==> x in mid.pending) && m'.inflight == mid.inflight
    {
      QueueLeaves(cfg, mid, e, category, now, task, result, x);
    }
  }

  /** A new event takes away exactly the candidates that it silences, those that wait and those in flight. */
  lemma EventSilencesIff(cfg: Config, m: Manager, e: HookEvent, now: int, x: Item)
    requires e.id !in m.seen && x.id != e.id
    ensures var m' := Ingest(cfg, m, e, now);
            && (x in m'.pending <==> x in m.pending && !Silences(e, x))
            && (x in m'.inflight <==> x in m.inflight && !Silences(e, x))
  {
    var m1 := m.(seen := MarkSeen(m.seen, e.id, now));
    CancelTakes(m1, e.session, None, None, x);
    CancelTakes(m1, e.session, e.turn, Some(ApprovalRequired), x);
    StopTakes(cfg, m1, e, now, x);
    QueueLeaves(cfg, m1, e, ApprovalRequired, now, TaskSummary(m1, e), Or(e.resultSummary, "Codex is waiting for approval."), x);
    hide MarkSeen, Cancel, Queue, OnStop, TaskSummary, Or;
  }

  // ---- Repeated events ----

  /** An event with a known id changes nothing. Any other id is known from then on; and a known one is forgotten
      only when there are more than 2000, and only if it was last seen more than a day ago. */
  lemma SeenOrForgotten(cfg: Config, m: Manager, e: HookEvent, now: int, id: Id)
    ensures var m' := Ingest(cfg, m, e, now);
            if e.id in m.seen then m' == m
            else
              && e.id in m'.seen && m'.seen[e.id] == now
              && (id != e.id ==>
                   (id in m'.seen <==> id in m.seen && (|m.seen| < 2000 || m.seen[id] >= now - 86400))
                   && (id in m'.seen ==> m'.seen[id] == m.seen[id]))
  {
    if e.id !in m.seen {
      var m1 := m.(seen := MarkSeen(m.seen, e.id, now));
      assert m.seen[e.id := now].Keys == m.seen.Keys + {e.id};
      assert |m.seen[e.id := now]| == |m.seen| + 1;
      NewKeepsSeen(cfg, m1, e, now);
    }
  }

  lemma NewKeepsSeen(cfg: Config, m: Manager, e: HookEvent, now: int)
    ensures IngestNew(cfg, m, e, now).seen == m.seen
  {
    hide Keep, Put, StopCategory, TaskSummary, Or;
  }

  // ---- What a dispatch begins with ----

  lemma ByDueTotal()
    ensures TotalPreorder(ByDue)
  {}

  /** A dispatch takes exactly the waiting candidates whose time has come, the earliest first and equally early
      ones by their ids; and if there are any, it forgets exactly the receipts that are older than the days of
      retention. */
  lemma DispatchBegins(cfg: Config, m: Manager, now: int)
    requires m.dispatch.None?
    ensures var m' := BeginDispatch(cfg, m, now);
            if forall x :: x in m.pending ==> x.dueAt > now then m' == m
            else
              && m'.dispatch.Some?
              && var due := m'.dispatch.value.due;
              && (forall x :: x in due <==> x in m.pending && x.dueAt <= now)
              && (forall i, j :: 0 <= i < j < |due| ==>
                   due[i].dueAt < due[j].dueAt || (due[i].dueAt == due[j].dueAt && due[i].id <= due[j].id))
              && (forall k :: k in m'.receipts <==> k in m.receipts && now - m.receipts[k] <= cfg.retentionDays * 86400)
              && (forall k :: k in m'.receipts ==> m'.receipts[k] == m.receipts[k])
              && m' == m.(receipts := m'.receipts, dispatch := m'.dispatch)
  {
    var ready := (x: Item) => x.dueAt <= now;
    var kept := Keep(m.pending, ready);
    forall x ensures x in DueItems(m.pending, now) <==> x in m.pending && x.dueAt <= now {
      KeepMember(m.pending, ready, x);
      SortMember(kept, ByDue, x);
    }
    ByDueTotal();
    SortSorted(kept, ByDue);
    var due := DueItems(m.pending, now);
    assert forall i, j :: 0 <= i < j < |due| ==> ByDue(due[i], due[j]);
    hide DueItems, Keep, Sort;
    if due != [] { assert due[0] in due; }
  }

  // ---- Sending ----

  ghost predicate HasId(items: seq<Item>, id: Id) {
    exists k :: 0 <= k < |items| && items[k].id == id
  }

  lemma {:induction false} FindIff(items: seq<Item>, id: Id)
    ensures Find(items, id).Some? <==> HasId(items, id)
  {
    if items != [] {
      FindIff(items[1..], id);
      if k :| 0 <= k < |items[1..]| && items[1..][k].id == id { assert items[k + 1].id == id; }
      if k :| 0 <= k < |items| && items[k].id == id { if k > 0 { assert items[1..][k - 1] == items[k]; } }
    }
  }

  /** The next due candidate starts its send if and only if a candidate with its id still waits and no receipt of its
      id and category is there. Either way what waited under its id is taken off, and nothing else. */
  lemma SendStartsIff(m: Manager, y: Item)
    requires m.dispatch.Some? && m.dispatch.value.sending.None? && m.dispatch.value.due != []
    ensures var d, m' := m.dispatch.value, PickNext(m);
            var x := d.due[0];
            var starts := HasId(m.pending, x.id) && (x.id, x.category) !in m.receipts;
            && m'.dispatch == Some(Dispatch(d.now, d.due[1..], if starts then Some(x) else None))
            && (y in m'.pending <==> y in m.pending && y.id != x.id)
            && (starts ==> x in m'.inflight && (y.id != x.id ==> (y in m'.inflight <==> y in m.inflight)))
            && m'.receipts == m.receipts
  {
    var x := m.dispatch.value.due[0];
    var others := (z: Item) => z.id != x.id;
    FindIff(m.pending, x.id);
    KeepMember(m.pending, others, y);
    PutIn(m.inflight, x);
    if y.id != x.id { PutOthers(m.inflight, x, y); }
    if !HasId(m.pending, x.id) && y in m.pending { assert y.id != x.id; }
    hide Find, Put, HasId;
  }

  /** When the send returns, the candidate waits again if and only if nobody heard it, it had fewer than two sends
      before, and it was not cancelled meanwhile; and it is due 10 seconds, the second time 20, after the dispatch
      began. Nothing is in flight under its id any more, and no other candidate comes or goes. */
  lemma RetriedIff(m: Manager, delivered: nat, y: Item)
    requires m.dispatch.Some? && m.dispatch.value.sending.Some?
    ensures var d, m' := m.dispatch.value, FinishSend(m, delivered);
            var x := d.sending.value;
            var again := x.(attempts := x.attempts + 1, dueAt := d.now + if x.attempts == 0 then 10 else 20);
            && (if delivered == 0 && x.attempts < 2 && HasId(m.inflight, x.id)
                then again in m'.pending && (y.id != x.id ==> (y in m'.pending <==> y in m.pending))
                else m'.pending == m.pending)
            && (y in m'.inflight <==> y in m.inflight && y.id != x.id)
            && m'.dispatch == Some(d.(sending := None))
  {
    var x := m.dispatch.value.sending.value;
    var others := (z: Item) => z.id != x.id;
    FindIff(m.inflight, x.id);
    KeepMember(m.inflight, others, y);
    assert Pow2(0) == 1 && Pow2(1) == 2 && Pow2(2) == 4;
    var again := x.(attempts := x.attempts + 1, dueAt := m.dispatch.value.now + if x.attempts == 0 then 10 else 20);
    PutIn(m.pending, again);
    if y.id != x.id { PutOthers(m.pending, again, y); }
    assert x.attempts < 2 ==> Backoff(x.attempts + 1) == if x.attempts == 0 then 10 else 20;
    hide Find, Put, HasId, Backoff, Pow2;
  }

  // ---- What a send leaves ----

  /** A delivered candidate leaves the receipt of its id and category, dated by the beginning of the dispatch
      unless it is there already; a failed one leaves none. */
  lemma ReceiptsRecorded(m: Manager, delivered: nat, key: (Id, Category))
    requires m.dispatch.Some? && m.dispatch.value.sending.Some?
    ensures var x, m' := m.dispatch.value.sending.value, FinishSend(m, delivered);
            && (key in m'.receipts <==> key in m.receipts || (delivered >= 1 && key == (x.id, x.category)))
            && (key in m'.receipts ==>
                 m'.receipts[key] == if key in m.receipts then m.receipts[key] else m.dispatch.value.now)
  {
    hide Find, Without, Put, Backoff;
  }
}
