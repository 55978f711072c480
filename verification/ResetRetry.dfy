/** How soon a message can really be retried, and the dispatch loop as a run of the machine. */
module ResetRetry {
  import opened Basics
  import opened Ordering
  import opened Confirmation
  import opened ResetStore
  import opened ResetMonitor
  import opened ResetSafety
  import opened ResetQueue
  import opened ResetResults
  import opened ResetOverlap

  // ---- The bound on the wait is attained ----

  ghost predicate Alone(s: System, phase: Phase, row: Delivery, clock: int) {
    && PhaseOf(s, "a") == phase && s.tables.deliveries == [row] && s.clock == clock
    && s.tables.lease.Some? && s.tables.lease.value.owner == "a"
  }

  lemma OneDue(row: Delivery, now: int)
    requires row.status == Waiting && row.nextAttempt <= now
    ensures DueDeliveries([row], now) == [row]
  {
    assert [row][..0] == [];
    assert Due([row], now) == [row];
    assert Sort([row], ByNextAttempt) == [row];
  }

  /** A collecting instance reads its one message and starts to send it. */
  lemma StartsSend(cfg: Config, s: System, row: Delivery, now: int, until: int) returns (trace: seq<Action>, s': System)
    requires Alone(s, Collecting(now, until), row, now) && row.status == Waiting && row.nextAttempt <= now
    ensures Calm(cfg, s, trace) && s' == Run(cfg, s, trace)
    ensures Alone(s', Dispatching(now, until, [row], true), row, now)
    ensures s'.log == s.log + [Attempt(row.id, row.stage, now, now)]
  {
    OneDue(row, now);
    hide DueDeliveries;
    trace := [Load("a", now), Send("a", now)];
    CalmTwo(cfg, s, trace[0], trace[1]);
    s' := Run(cfg, s, trace);
  }

  /** It hears at h that the message reached nobody, and ends its tick. */
  lemma HearsFailure(cfg: Config, s: System, row: Delivery, now: int, until: int, h: int)
    returns (trace: seq<Action>, s': System)
    requires Alone(s, Dispatching(now, until, [row], true), row, now) && now <= h
    ensures Calm(cfg, s, trace) && s' == Run(cfg, s, trace)
    ensures Alone(s', Off, Failed(cfg, row, row.attempts, now), h)
    ensures s'.log == s.log + [Result(row.id, row.stage, now, h, false)]
  {
    assert [row][1..] == [];
    trace := [Hear("a", h, 0), End("a", h)];
    CalmTwo(cfg, s, trace[0], trace[1]);
    s' := Run(cfg, s, trace);
    assert MarkRow([row], row.id, row.stage, (x: Delivery) => Failed(cfg, x, row.attempts, now))
        == [Failed(cfg, row, row.attempts, now)];
  }

  lemma TicksAgain(cfg: Config, s: System, row: Delivery, clock: int, at: int) returns (s': System)
    requires Alone(s, Off, row, clock) && clock <= at
    ensures Calm(cfg, s, [Tick("a", at)]) && s' == Run(cfg, s, [Tick("a", at)])
    ensures Alone(s', Collecting(at, at + cfg.ttl), row, at) && s'.log == s.log + [Acquired("a", at, at + cfg.ttl)]
  {
    CalmOne(cfg, s, Tick("a", at));
    s' := Act(cfg, s, Tick("a", at));
  }

  lemma FirstMessage(cfg: Config) returns (trace: seq<Action>, s': System)
    ensures Calm(cfg, EMPTY, trace) && s' == Run(cfg, EMPTY, trace)
    ensures Alone(s', Collecting(0, cfg.ttl), Delivery("x", Hint, Waiting, 0, 0), 0)
    ensures Attempts(s'.log, "x", Hint) == 0
  {
    var tick := Tick("a", 0);
    CalmOne(cfg, EMPTY, tick);
    var s := Act(cfg, EMPTY, tick);
    Announces(cfg, s, "a", "x");
    trace := [tick] + Announcing("a", 0, "x", 0);
    CalmConcat(cfg, EMPTY, [tick], Announcing("a", 0, "x", 0));
    s' := Run(cfg, EMPTY, trace);
    assert [] + [Delivery("x", Hint, Waiting, 0, 0)] == [Delivery("x", Hint, Waiting, 0, 0)];
    NoneAttempted(s.log, s'.log, Acquired("a", 0, cfg.ttl));
    hide Attempts, Act, Run, Calm, HintAt, Announcing;
  }

  lemma NoneAttempted(log: seq<Obs>, log': seq<Obs>, o: Obs)
    requires log == [o] && o.Acquired? && log' == log + [Staged("x", Hint), Enqueued("x", Hint)]
    ensures Attempts(log', "x", Hint) == 0
  {
    CountAppend([], o, "x", Hint);
    CountAppend([o], Staged("x", Hint), "x", Hint);
    CountAppend([o] + [Staged("x", Hint)], Enqueued("x", Hint), "x", Hint);
    assert [] + [o] == log && log' == [o] + [Staged("x", Hint)] + [Enqueued("x", Hint)];
  }

  function Message(n: nat, now: int): Delivery { Delivery("x", Hint, Waiting, n, now) }

  lemma MessageFails(cfg: Config, n: nat, now: int)
    requires n + 1 < cfg.maxAttempts
    ensures Failed(cfg, Message(n, now), n, now) == Message(n + 1, now + RetryDelay(cfg, n + 1))
  {}

  /** An attempt fails, which is heard at h, and the instance ticks again when the message is due. */
  lemma FailsOnce(cfg: Config, s: System, n: nat, now: int, h: int) returns (trace: seq<Action>, s': System)
    requires n + 1 < cfg.maxAttempts && now <= h <= now + RetryDelay(cfg, n + 1)
    requires Alone(s, Collecting(now, now + cfg.ttl), Message(n, now), now)
    ensures Calm(cfg, s, trace) && s' == Run(cfg, s, trace)
    ensures var next := now + RetryDelay(cfg, n + 1);
            && Alone(s', Collecting(next, next + cfg.ttl), Message(n + 1, next), next)
            && Attempts(s'.log, "x", Hint) == Attempts(s.log, "x", Hint) + 1
            && LastFailure(s'.log, "x", Hint) == Some(Result("x", Hint, now, h, false))
  {
    hide Act, Run, Calm, Alone, RetryDelay, Failed, Attempts, LastFailure, Pow2;
    var row := Message(n, now);
    var next := now + RetryDelay(cfg, n + 1);
    MessageFails(cfg, n, now);
    var t1, s1 := StartsSend(cfg, s, row, now, now + cfg.ttl);
    var t2, s2 := HearsFailure(cfg, s1, row, now, now + cfg.ttl, h);
    s' := TicksAgain(cfg, s2, Message(n + 1, next), h, next);
    CalmConcat(cfg, s, t1, t2);
    CalmConcat(cfg, s, t1 + t2, [Tick("a", next)]);
    trace := t1 + t2 + [Tick("a", next)];
    FailureBooked(s.log, s'.log, Attempt("x", Hint, now, now), Result("x", Hint, now, h, false),
                  Acquired("a", next, next + cfg.ttl));
  }

  lemma FailureBooked(log: seq<Obs>, log': seq<Obs>, a: Obs, r: Obs, o: Obs)
    requires a.Attempt? && About(a, "x", Hint) && r.Result? && About(r, "x", Hint) && !r.ok && o.Acquired?
    requires log' == log + [a] + [r] + [o]
    ensures Attempts(log', "x", Hint) == Attempts(log, "x", Hint) + 1 && LastFailure(log', "x", Hint) == Some(r)
  {
    hide Attempts, LastFailure;
    CountAppend(log, a, "x", Hint);
    CountAppend(log + [a], r, "x", Hint);
    CountAppend(log + [a] + [r], o, "x", Hint);
  }

  /** After n failures, each heard at once, the message is due and its instance has begun a tick. */
  lemma {:induction false} FailsOften(cfg: Config, n: nat) returns (trace: seq<Action>, s': System, now: int)
    requires n < cfg.maxAttempts
    ensures Calm(cfg, EMPTY, trace) && s' == Run(cfg, EMPTY, trace)
    ensures Alone(s', Collecting(now, now + cfg.ttl), Message(n, now), now) && Attempts(s'.log, "x", Hint) == n
  {
    hide Act, Run, Calm, Alone, RetryDelay;
    if n == 0 {
      trace, s' := FirstMessage(cfg);
      now := 0;
    } else {
      var before, s, last := FailsOften(cfg, n - 1);
      var more: seq<Action>;
      more, s' := FailsOnce(cfg, s, n - 1, last, last);
      CalmConcat(cfg, EMPTY, before, more);
      trace, now := before + more, last + RetryDelay(cfg, n);
    }
  }

  lemma WaitAttained(cfg: Config, n: nat, wait: nat) returns (trace: seq<Action>, k: nat)
    requires 1 <= n < cfg.maxAttempts && wait <= RetryDelay(cfg, n)
    ensures Calm(cfg, EMPTY, trace)
    ensures var log := Run(cfg, EMPTY, trace).log;
            && k < |log| && log[k].Attempt? && Attempts(log[..k], log[k].id, log[k].stage) == n
            && LastFailure(log[..k], log[k].id, log[k].stage).Some?
            && var f := LastFailure(log[..k], log[k].id, log[k].stage).value;
            && log[k].began == f.began + RetryDelay(cfg, n)
            && log[k].at == f.at + wait == f.at + RetryDelay(cfg, n) - (f.at - f.began)
  {
    hide Act, Run, Calm, Alone, RetryDelay;
    var t1, s1, now := FailsOften(cfg, n - 1);
    var t2, s2 := FailsOnce(cfg, s1, n - 1, now, now + RetryDelay(cfg, n) - wait);
    var next := now + RetryDelay(cfg, n);
    var t3, s3 := StartsSend(cfg, s2, Message(n, next), next, next + cfg.ttl);
    CalmConcat(cfg, EMPTY, t1, t2);
    CalmConcat(cfg, EMPTY, t1 + t2, t3);
    trace, k := t1 + t2 + t3, |s2.log|;
    assert s3.log[..k] == s2.log;
  }

  /** For every retry, the wait since the failure was heard can be as short as the retry delay less the time
      it took to hear it, down to nothing: the source counts the delay from the beginning of the tick. */
  lemma WaitIsExact(cfg: Config, n: nat, wait: nat) returns (trace: seq<Action>, k: nat)
    requires 1 <= n < cfg.maxAttempts && wait <= Doubling(cfg.retryBase, cfg.retryMax, n)
    ensures Calm(cfg, EMPTY, trace)
    ensures var log := Run(cfg, EMPTY, trace).log;
            var delay := Doubling(cfg.retryBase, cfg.retryMax, n);
            && k < |log| && log[k].Attempt? && Attempts(log[..k], log[k].id, log[k].stage) == n
            && LastFailure(log[..k], log[k].id, log[k].stage).Some?
            && var f := LastFailure(log[..k], log[k].id, log[k].stage).value;
            && log[k].began == f.began + delay
            && log[k].at == f.at + wait == f.at + delay - (f.at - f.began)
  {
    DelayDoubles(cfg, n);
    hide *;
    trace, k := WaitAttained(cfg, n, wait);
  }

  // ---- The dispatch loop is a run ----

  /** Load, one send and one result for each due delivery, and the end of the tick. */
  function Sends(owner: string, at: int, n: nat, outcomes: nat -> nat): seq<Action> {
    if n == 0 then [] else Sends(owner, at, n - 1, outcomes) + [Send(owner, at), Hear(owner, at, outcomes(n - 1))]
  }

  lemma {:induction false} SendsAll(cfg: Config, s: System, owner: string, due: seq<Delivery>, n: nat, outcomes: nat -> nat)
    requires PhaseOf(s, owner).Dispatching? && !PhaseOf(s, owner).sending && PhaseOf(s, owner).due == due && n <= |due|
    ensures var phase := PhaseOf(s, owner);
            var s' := Run(cfg, s, Sends(owner, s.clock, n, outcomes));
            && s'.tables == Dispatched(cfg, s.tables, due[..n], phase.now, outcomes)
            && PhaseOf(s', owner) == phase.(due := due[n..]) && s'.clock == s.clock
            && Calm(cfg, s, Sends(owner, s.clock, n, outcomes))
  {
    hide Act, Run, Calm, BookOutcome;
    if n == 0 {
      CalmNone(cfg, s);
    } else {
      SendsAll(cfg, s, owner, due, n - 1, outcomes);
      var mid := Run(cfg, s, Sends(owner, s.clock, n - 1, outcomes));
      var send, hear := Send(owner, s.clock), Hear(owner, s.clock, outcomes(n - 1));
      SendsNext(cfg, mid, owner, due, n, outcomes(n - 1));
      CalmConcat(cfg, s, Sends(owner, s.clock, n - 1, outcomes), [send, hear]);
      assert due[..n][..n - 1] == due[..n - 1];
    }
  }

  lemma SendsNext(cfg: Config, s: System, owner: string, due: seq<Delivery>, n: nat, delivered: nat)
    requires 1 <= n <= |due|
    requires PhaseOf(s, owner).Dispatching? && !PhaseOf(s, owner).sending && PhaseOf(s, owner).due == due[n - 1..]
    ensures var phase := PhaseOf(s, owner);
            var trace := [Send(owner, s.clock), Hear(owner, s.clock, delivered)];
            var s' := Run(cfg, s, trace);
            && s'.tables == BookOutcome(cfg, s.tables, due[n - 1], phase.now, delivered)
            && PhaseOf(s', owner) == phase.(due := due[n..]) && s'.clock == s.clock && Calm(cfg, s, trace)
  {
    hide BookOutcome;
    assert due[n - 1..][1..] == due[n..];
    CalmTwo(cfg, s, Send(owner, s.clock), Hear(owner, s.clock, delivered));
  }

  lemma Loads(cfg: Config, s: System, owner: string) returns (s': System)
    requires PhaseOf(s, owner).Collecting?
    ensures Calm(cfg, s, [Load(owner, s.clock)]) && s' == Run(cfg, s, [Load(owner, s.clock)])
    ensures s'.tables == s.tables && s'.clock == s.clock
    ensures PhaseOf(s', owner) == Dispatching(PhaseOf(s, owner).now, PhaseOf(s, owner).until,
                                              DueDeliveries(s.tables.deliveries, PhaseOf(s, owner).now), false)
  {
    hide DueDeliveries;
    CalmOne(cfg, s, Load(owner, s.clock));
    s' := Act(cfg, s, Load(owner, s.clock));
  }

  lemma Ends(cfg: Config, s: System, owner: string)
    requires PhaseOf(s, owner).Dispatching? && !PhaseOf(s, owner).sending && PhaseOf(s, owner).due == []
    ensures Calm(cfg, s, [End(owner, s.clock)])
    ensures Run(cfg, s, [End(owner, s.clock)]).tables == s.tables && PhaseOf(Run(cfg, s, [End(owner, s.clock)]), owner) == Off
  {
    CalmOne(cfg, s, End(owner, s.clock));
  }

  /** The loop that the source writes is a run of the machine, so what is known of runs holds of it. */
  lemma DispatchedIsRun(cfg: Config, s: System, owner: string, outcomes: nat -> nat) returns (trace: seq<Action>)
    requires PhaseOf(s, owner).Collecting?
    ensures var due := DueDeliveries(s.tables.deliveries, PhaseOf(s, owner).now);
            && trace == [Load(owner, s.clock)] + Sends(owner, s.clock, |due|, outcomes) + [End(owner, s.clock)]
            && Calm(cfg, s, trace)
            && Run(cfg, s, trace).tables == Dispatched(cfg, s.tables, due, PhaseOf(s, owner).now, outcomes)
            && PhaseOf(Run(cfg, s, trace), owner) == Off
  {
    hide Act, Run, Calm, Sends, DueDeliveries, Dispatched;
    var due := DueDeliveries(s.tables.deliveries, PhaseOf(s, owner).now);
    var load, end, sends := Load(owner, s.clock), End(owner, s.clock), Sends(owner, s.clock, |due|, outcomes);
    var s1 := Loads(cfg, s, owner);
    SendsAll(cfg, s1, owner, due, |due|, outcomes);
    var s2 := Run(cfg, s1, sends);
    assert due[..|due|] == due && due[|due|..] == [];
    Ends(cfg, s2, owner);
    CalmConcat(cfg, s, [load], sends);
    CalmConcat(cfg, s, [load] + sends, [end]);
    trace := [load] + sends + [end];
  }
}
