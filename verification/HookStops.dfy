/** Which events queue a notification, and of what kind: after a prompt began a turn, what the end of the turn
    makes of it. Said of runs, without the functions that compute it. */
module HookStops {
  import opened Basics
  import opened Ordering
  import opened CodexHooks
  import opened HookSafety
  import opened HookProgress

  /** What the stop says, or that the turn has ended. */
  function Words(e: HookEvent): string { if e.resultSummary == "" then "The Codex turn has ended." else e.resultSummary }

  /** A message calls for a notification: it is no rejection, and it asks for input, reports a failure, or ends
      a turn that took long. */
  predicate Calls(cfg: Config, message: string, long: bool) {
    !cfg.rejected(message) && (cfg.needsInput(message) || cfg.failed(message) || long)
  }

  /** The first kind that applies. */
  function KindOf(cfg: Config, message: string): Category {
    if cfg.needsInput(message) then InputRequired else if cfg.failed(message) then ExecutionFailed else LongTurnComplete
  }

  /** The candidate that an event queues. */
  ghost predicate Candidate(cfg: Config, e: HookEvent, now: int, category: Category, task: string, result: string, ticket: nat,
                            x: Item)
  {
    && x.id == e.id && x.session == e.session && x.turn == (if e.turn.Some? && e.turn.value != "" then e.turn.value else "session")
    && x.category == category && x.taskSummary == task && x.resultSummary == result
    && x.queuedAt == now && x.dueAt == now + cfg.grace && x.attempts == 0 && x.ticket == ticket
  }

  /** The event queues this candidate and no other. */
  ghost predicate QueuesOne(cfg: Config, m: Manager, m': Manager, e: HookEvent, now: int, category: Category, task: string,
                            result: string) {
    && m'.tickets == m.tickets + 1
    && (exists x :: x in m'.pending && Candidate(cfg, e, now, category, task, result, m.tickets, x))
    && (forall x :: x in m'.pending ==> x in m.pending || Candidate(cfg, e, now, category, task, result, m.tickets, x))
  }

  ghost predicate QueuesNone(m: Manager, m': Manager) {
    m'.tickets == m.tickets && forall x :: x in m'.pending ==> x in m.pending
  }

  // ---- One event ----

  lemma {:induction false} PutIn(items: seq<Item>, item: Item)
    ensures item in Put(items, item)
    ensures forall x :: x in Put(items, item) ==> x == item || x in items
  {
    if items != [] { PutIn(items[1..], item); }
  }

  lemma QueueOne(cfg: Config, m: Manager, mid: Manager, e: HookEvent, category: Category, now: int, task: string, result: string)
    requires mid.tickets == m.tickets && forall x :: x in mid.pending ==> x in m.pending
    ensures QueuesOne(cfg, m, Queue(cfg, mid, e, category, now, task, result), e, now, category, task, result)
  {
    var m' := Queue(cfg, mid, e, category, now, task, result);
    var x := m'.log[|mid.log|].item;
    PutIn(mid.pending, x);
    assert Candidate(cfg, e, now, category, task, result, m.tickets, x);
  }

  lemma CancelNone(m: Manager, session: string, turn: Option<string>, category: Option<Category>)
    ensures QueuesNone(m, Cancel(m, session, turn, category))
  {
    var p := (x: Item) => !Hits(x, session, turn, category);
    forall x | x in Keep(m.pending, p) ensures x in m.pending { KeepMember(m.pending, p, x); }
  }

  /** The task a stop tells of: that of its turn, or its own words for it, or none. */
  function StopTask(m: Manager, e: HookEvent): string {
    var key := (e.session, if e.turn.Some? then e.turn.value else "");
    if key in m.turns then m.turns[key].taskSummary else if e.taskSummary != "" then e.taskSummary else "Codex task"
  }

  /** A stop whose turn began at `began`, or is not known: what it queues depends on its words and on how long
      the turn took, and on nothing else. */
  lemma StopQueues(cfg: Config, m: Manager, e: HookEvent, now: int)
    requires e.id !in m.seen && e.name.Stop?
    ensures var m', words := Ingest(cfg, m, e, now), Words(e);
            var key := (e.session, if e.turn.Some? then e.turn.value else "");
            var long := key in m.turns && now - m.turns[key].startedAt >= cfg.longTurn;
            var task := StopTask(m, e);
            if !e.continued && Calls(cfg, words, long) then QueuesOne(cfg, m, m', e, now, KindOf(cfg, words), task, words)
            else QueuesNone(m, m')
  {
    var m1 := m.(seen := MarkSeen(m.seen, e.id, now));
    hide MarkSeen, Cancel, Queue, QueuesOne, QueuesNone;
    assert QueuesNone(m, m1) by { SeenNone(m, m1); }
    if !e.continued {
      StopTurns(cfg, m, m1, e, now);
      assert Ingest(cfg, m, e, now) == OnStop(cfg, m1, e, now);
    } else {
      assert Ingest(cfg, m, e, now) == m1;
    }
    hide Ingest, OnStop, Calls, KindOf, Words;
  }

  lemma SeenNone(m: Manager, m': Manager)
    requires m' == m.(seen := m'.seen, turns := m'.turns)
    ensures QueuesNone(m, m')
  {}

  lemma NoneThen(m: Manager, mid: Manager, m': Manager)
    requires QueuesNone(m, mid) && QueuesNone(mid, m')
    ensures QueuesNone(m, m')
  {}

  lemma CategoryMeans(cfg: Config, words: string, elapsed: Option<int>)
    ensures StopCategory(cfg, words, elapsed) ==
      if Calls(cfg, words, elapsed.Some? && elapsed.value >= cfg.longTurn) then Some(KindOf(cfg, words)) else None
  {}

  /** A stop cancels the approvals of its turn, forgets the turn, and then queues or not. */
  lemma StopCases(cfg: Config, m: Manager, e: HookEvent, now: int) returns (mid: Manager, task: string)
    ensures QueuesNone(m, mid)
    ensures var key := (e.session, if e.turn.Some? then e.turn.value else "");
            var elapsed := if key in m.turns then Some(now - m.turns[key].startedAt) else None;
            && task == StopTask(m, e)
            && OnStop(cfg, m, e, now) ==
                 match StopCategory(cfg, Words(e), elapsed)
                 case None => mid
                 case Some(category) => Queue(cfg, mid, e, category, now, task, Words(e))
  {
    var cut := if Named(e.turn) then Cancel(m, e.session, e.turn, Some(ApprovalRequired)) else m;
    CancelNone(m, e.session, e.turn, Some(ApprovalRequired));
    assert cut.turns == m.turns;
    hide Cancel, Queue, StopCategory, TaskSummary;
    var key := (e.session, if e.turn.Some? then e.turn.value else "");
    mid := cut.(turns := cut.turns - {key});
    task := if key in m.turns then m.turns[key].taskSummary else TaskSummary(mid, e);
    assert Or(e.resultSummary, "The Codex turn has ended.") == Words(e);
  }

  lemma StopTurns(cfg: Config, m: Manager, m1: Manager, e: HookEvent, now: int)
    requires m1 == m.(seen := m1.seen) && QueuesNone(m, m1)
    ensures var m', words := OnStop(cfg, m1, e, now), Words(e);
            var key := (e.session, if e.turn.Some? then e.turn.value else "");
            var long := key in m.turns && now - m.turns[key].startedAt >= cfg.longTurn;
            var task := StopTask(m, e);
            if Calls(cfg, words, long) then QueuesOne(cfg, m, m', e, now, KindOf(cfg, words), task, words)
            else QueuesNone(m, m')
  {
    var mid, task := StopCases(cfg, m1, e, now);
    NoneThen(m, m1, mid);
    hide OnStop, Queue, QueuesOne, StopCategory, Calls, KindOf, Words;
    var key := (e.session, if e.turn.Some? then e.turn.value else "");
    var elapsed := if key in m.turns then Some(now - m.turns[key].startedAt) else None;
    CategoryMeans(cfg, Words(e), elapsed);
    if StopCategory(cfg, Words(e), elapsed).Some? { QueueOne(cfg, m, mid, e, KindOf(cfg, Words(e)), now, task, Words(e)); }
  }

  /** The task an event belongs to: its own words for it, those of the prompt of its turn, or none. */
  function TaskOf(m: Manager, e: HookEvent): string {
    if e.taskSummary != "" then e.taskSummary
    else if e.turn.Some? && e.turn.value != "" && (e.session, e.turn.value) in m.turns then
      m.turns[(e.session, e.turn.value)].taskSummary
    else "Codex task"
  }

  /** A request for permission always queues one, the other events never do. */
  lemma OthersQueue(cfg: Config, m: Manager, e: HookEvent, now: int)
    requires e.id !in m.seen && !e.name.Stop?
    ensures var m' := Ingest(cfg, m, e, now);
            if e.name.PermissionRequest? then
              QueuesOne(cfg, m, m', e, now, ApprovalRequired, TaskOf(m, e),
                        if e.resultSummary != "" then e.resultSummary else "Codex is waiting for approval.")
            else QueuesNone(m, m')
  {
    var m1 := m.(seen := MarkSeen(m.seen, e.id, now));
    assert TaskSummary(m1, e) == TaskOf(m, e);
    hide MarkSeen, Cancel, Queue, TaskSummary, TaskOf;
    CancelNone(m1, e.session, None, None);
    CancelNone(m1, e.session, e.turn, Some(ApprovalRequired));
    if e.name.PermissionRequest? {
      QueueOne(cfg, m, m1, e, ApprovalRequired, now, TaskSummary(m1, e), Or(e.resultSummary, "Codex is waiting for approval."));
    }
  }

  // ---- A turn, from its prompt to its stop ----

  /** An event that ends or restarts this turn. */
  predicate EndsTurn(a: Action, session: string, turn: string) {
    a.DoIngest? && a.event.session == session &&
      match a.event.name
      case UserPromptSubmit => a.event.turn == Some(turn)
      case Stop => !a.event.continued && a.event.turn == Some(turn)
      case SessionEnd => true
      case _ => false
  }

  /** A new event begins the turn of a prompt and ends the turn of a stop that is not continued, and the end of a
      session ends all of its turns. No other turn comes, goes or changes. */
  lemma KnownTurns(cfg: Config, m: Manager, e: HookEvent, now: int, key: (string, string))
    requires e.id !in m.seen
    ensures var turns := Ingest(cfg, m, e, now).turns;
            var own := key.0 == e.session && key.1 == if e.turn.Some? then e.turn.value else "";
            if e.name.UserPromptSubmit? && own && key.1 != "" then
              key in turns && turns[key] == TurnState(now, if e.taskSummary == "" then "Codex task" else e.taskSummary)
            else if (e.name.Stop? && !e.continued && own) || (e.name.SessionEnd? && key.0 == e.session) then key !in turns
            else (key in turns <==> key in m.turns) && (key in turns ==> turns[key] == m.turns[key])
  {
    var m1 := m.(seen := MarkSeen(m.seen, e.id, now));
    hide MarkSeen, Put, Keep, TaskSummary, StopCategory, OnStop;
    if e.name.Stop? && !e.continued { StopEndsTurn(cfg, m1, e, now); }
  }

  lemma StopEndsTurn(cfg: Config, m: Manager, e: HookEvent, now: int)
    ensures OnStop(cfg, m, e, now).turns == m.turns - {(e.session, if e.turn.Some? then e.turn.value else "")}
  {
    hide Put, Keep, TaskSummary, Or, StopCategory;
  }

  lemma ActKeepsTurn(cfg: Config, m: Manager, a: Action, session: string, turn: string)
    requires turn != "" && (session, turn) in m.turns && !EndsTurn(a, session, turn)
    ensures (session, turn) in Act(cfg, m, a).turns && Act(cfg, m, a).turns[(session, turn)] == m.turns[(session, turn)]
  {
    if a.DoIngest? {
      IngestKeepsTurn(cfg, m, a.event, a.now, session, turn);
    } else {
      hide DueItems, PruneReceipts, Find, Without, Put, Backoff, Ingest;
    }
  }

  lemma IngestKeepsTurn(cfg: Config, m: Manager, e: HookEvent, now: int, session: string, turn: string)
    requires turn != "" && (session, turn) in m.turns && !EndsTurn(DoIngest(e, now), session, turn)
    ensures (session, turn) in Ingest(cfg, m, e, now).turns
    ensures Ingest(cfg, m, e, now).turns[(session, turn)] == m.turns[(session, turn)]
  {
    hide MarkSeen, Put, Keep, TaskSummary, Or, OnStop;
    if e.name.Stop? && !e.continued { StopKeepsTurn(cfg, m.(seen := MarkSeen(m.seen, e.id, now)), e, now, session, turn); }
  }

  lemma StopKeepsTurn(cfg: Config, m: Manager, e: HookEvent, now: int, session: string, turn: string)
    requires turn != "" && (session, turn) in m.turns && (e.session != session || e.turn != Some(turn))
    ensures (session, turn) in OnStop(cfg, m, e, now).turns
    ensures OnStop(cfg, m, e, now).turns[(session, turn)] == m.turns[(session, turn)]
  {
    hide Put, Keep, TaskSummary, Or, StopCategory;
  }

  lemma {:induction false} RunKeepsTurn(cfg: Config, m: Manager, more: seq<Action>, session: string, turn: string)
    requires turn != "" && (session, turn) in m.turns
    requires forall k :: 0 <= k < |more| ==> !EndsTurn(more[k], session, turn)
    ensures (session, turn) in Run(cfg, m, more).turns && Run(cfg, m, more).turns[(session, turn)] == m.turns[(session, turn)]
  {
    hide Act, EndsTurn;
    if more != [] {
      var n := |more| - 1;
      RunKeepsTurn(cfg, m, more[..n], session, turn);
      ActKeepsTurn(cfg, Run(cfg, m, more[..n]), more[n], session, turn);
    }
  }

  /** After a prompt began a turn at t0, and nothing ended it, its stop at t1 queues a notification if and only
      if it is not continued, its words are no rejection, and they ask for input, report a failure, or
      t1 - t0 reaches the limit for long turns; of the first kind that applies, with the task of the prompt,
      due after the grace period. */
  lemma TurnNotifiesIff(cfg: Config, m: Manager, prompt: HookEvent, t0: int, more: seq<Action>, stop: HookEvent, t1: int)
    requires prompt.name.UserPromptSubmit? && prompt.id !in m.seen && prompt.turn.Some? && prompt.turn.value != ""
    requires stop.name.Stop? && stop.session == prompt.session && stop.turn == prompt.turn
    requires forall k :: 0 <= k < |more| ==> !EndsTurn(more[k], prompt.session, prompt.turn.value)
    requires stop.id !in Run(cfg, Ingest(cfg, m, prompt, t0), more).seen
    ensures var before := Run(cfg, Ingest(cfg, m, prompt, t0), more);
            var after, words := Ingest(cfg, before, stop, t1), Words(stop);
            var task := if prompt.taskSummary == "" then "Codex task" else prompt.taskSummary;
            if !stop.continued && Calls(cfg, words, t1 - t0 >= cfg.longTurn)
            then QueuesOne(cfg, before, after, stop, t1, KindOf(cfg, words), task, words)
            else QueuesNone(before, after)
  {
    var begun := Ingest(cfg, m, prompt, t0);
    var key := (prompt.session, prompt.turn.value);
    PromptBegins(cfg, m, prompt, t0);
    hide Ingest, Run, QueuesOne, QueuesNone;
    RunKeepsTurn(cfg, begun, more, prompt.session, prompt.turn.value);
    StopQueues(cfg, Run(cfg, begun, more), stop, t1);
  }

  lemma PromptBegins(cfg: Config, m: Manager, prompt: HookEvent, t0: int)
    requires prompt.name.UserPromptSubmit? && prompt.id !in m.seen && prompt.turn.Some? && prompt.turn.value != ""
    ensures var m', key := Ingest(cfg, m, prompt, t0), (prompt.session, prompt.turn.value);
            key in m'.turns
            && m'.turns[key] == TurnState(t0, if prompt.taskSummary == "" then "Codex task" else prompt.taskSummary)
  {
    hide MarkSeen, Cancel;
  }

  /** A stop of a turn that nobody began never reports a long turn. */
  lemma UnknownTurnIsNotLong(cfg: Config, m: Manager, stop: HookEvent, now: int, x: Item)
    requires stop.id !in m.seen && stop.name.Stop?
    requires (stop.session, if stop.turn.Some? then stop.turn.value else "") !in m.turns
    requires x in Ingest(cfg, m, stop, now).pending && x !in m.pending
    ensures x.category == InputRequired || x.category == ExecutionFailed
  {
    StopQueues(cfg, m, stop, now);
    hide Ingest;
  }
}
