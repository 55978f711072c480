/** Several instances of the reset monitor share one store. A tick holds the lease; stages advance,
    queued messages are broadcast and retried, and nothing is sent twice. */
module ResetMonitor {
  import opened Basics
  import opened Confirmation
  import opened ResetStore
  import opened Ordering

  /** Where an instance is in its tick; `now` is when the tick began, `until` when its lease ends. */
  datatype Phase =
    | Off
    | Collecting(now: int, until: int)
    | Judging(now: int, until: int, id: string, evidence: seq<Evidence>, read: Option<ResetEvent>)
    | Dispatching(now: int, until: int, due: seq<Delivery>, sending: bool)

  /** Attempts and results carry the time their tick began, which is the time the source books, and the
      time at which they happen. */
  datatype Obs =
    | Acquired(owner: string, at: int, until: int)
    | Released(owner: string)
    | Staged(id: string, stage: Stage)
    | Enqueued(id: string, stage: Stage)
    | Attempt(id: string, stage: Stage, began: int, at: int)
    | Result(id: string, stage: Stage, began: int, at: int, ok: bool)

  datatype System = System(tables: Tables, phases: map<string, Phase>, clock: int, log: seq<Obs>)

  /** What an instance does next, and the time of the shared clock. */
  datatype Action =
    | Tick(owner: string, at: int)
    | Gather(owner: string, at: int, id: string, evidence: Evidence)  // one piece of evidence, routed to an event
    | Judge(owner: string, at: int, id: string)                       // read that event and its evidence
    | Decide(owner: string, at: int)                                  // and write its new stage
    | Delay(owner: string, at: int, id: string)                       // mark it delayed if it is overdue
    | Load(owner: string, at: int)                                    // read the due deliveries
    | Send(owner: string, at: int)                                    // start the next broadcast
    | Hear(owner: string, at: int, delivered: nat)                    // its await returns
    | End(owner: string, at: int)
    | Close(owner: string, at: int)

  function PhaseOf(s: System, owner: string): Phase {
    if owner in s.phases then s.phases[owner] else Off
  }

  /** Books a change to one event: its stage, if it moved, and the message it queued. */
  function Touch(s: System, id: string, t: Tables): System {
    var moved := id in t.events && (id !in s.tables.events || s.tables.events[id].stage != t.events[id].stage);
    var staged := if moved then [Staged(id, t.events[id].stage)] else [];
    var queued := if |t.deliveries| > |s.tables.deliveries|
                  then [Enqueued(id, t.deliveries[|t.deliveries| - 1].stage)] else [];
    s.(tables := t, log := s.log + staged + queued)
  }

  function Act(cfg: Config, s0: System, a: Action): System {
    var s := s0.(clock := a.at);
    var phase := PhaseOf(s, a.owner);
    match a
    case Tick(owner, at) =>
      if phase.Off? && LeaseFree(s.tables.lease, owner, at) then
        s.(tables := Acquire(s.tables, owner, at, cfg.ttl), phases := s.phases[owner := Collecting(at, at + cfg.ttl)],
           log := s.log + [Acquired(owner, at, at + cfg.ttl)])
      else s
    case Gather(_, _, id, e) =>
      if phase.Collecting? then s.(tables := s.tables.(evidence := PutEvidence(s.tables.evidence, id, e))) else s
    case Judge(owner, _, id) =>
      var evidence := EvidenceFor(s.tables.evidence, id);
      if phase.Collecting? && Classify(evidence, cfg.canonical).Some? then
        s.(phases := s.phases[owner := Judging(phase.now, phase.until, id, evidence, EventOf(s.tables, id))])
      else s
    case Decide(owner, _) =>
      if !phase.Judging? then s
      else if phase.read.Some? != (phase.id in s.tables.events) then s.(phases := s.phases[owner := Off])  // the insert fails
      else
        Touch(s, phase.id, AdvanceFrom(cfg, s.tables, phase.id, phase.evidence, phase.read, phase.now))
          .(phases := s.phases[owner := Collecting(phase.now, phase.until)])
    case Delay(_, _, id) => if phase.Collecting? then Touch(s, id, DelayEvent(cfg, s.tables, id, phase.now)) else s
    case Load(owner, _) =>
      if phase.Collecting? then
        s.(phases := s.phases[owner :=
          Dispatching(phase.now, phase.until, DueDeliveries(s.tables.deliveries, phase.now), false)])
      else s
    case Send(owner, at) =>
      if phase.Dispatching? && !phase.sending && phase.due != [] then
        s.(phases := s.phases[owner := phase.(sending := true)],
           log := s.log + [Attempt(phase.due[0].id, phase.due[0].stage, phase.now, at)])
      else s
    case Hear(owner, at, delivered) =>
      if phase.Dispatching? && phase.sending && phase.due != [] then
        var d := phase.due[0];
        s.(tables := BookOutcome(cfg, s.tables, d, phase.now, delivered),
           phases := s.phases[owner := phase.(due := phase.due[1..], sending := false)],
           log := s.log + [Result(d.id, d.stage, phase.now, at, delivered >= 1)])
      else s
    case End(owner, _) =>
      if phase.Dispatching? && !phase.sending && phase.due == [] then s.(phases := s.phases[owner := Off]) else s
    case Close(owner, _) =>
      if phase.Off? then s.(tables := Release(s.tables, owner), log := s.log + [Released(owner)]) else s
  }

  function Run(cfg: Config, s: System, trace: seq<Action>): System {
    if trace == [] then s else Act(cfg, Run(cfg, s, trace[..|trace| - 1]), trace[|trace| - 1])
  }

  const EMPTY := System(Tables([], map[], [], None), map[], 0, [])

  /** The shared clock does not run backwards. */
  ghost predicate Clocked(s: System, a: Action) { a.at >= s.clock }

  /** Still to judge. */
  predicate Judges(phase: Phase) { phase.Collecting? || phase.Judging? }

  /** Still to judge or to send: a tick that has only to end is not. */
  predicate Busy(phase: Phase) {
    Judges(phase) || (phase.Dispatching? && phase.due != [])
  }

  ghost predicate TakesLease(s: System, a: Action) {
    a.Tick? && PhaseOf(s, a.owner).Off? && LeaseFree(s.tables.lease, a.owner, a.at)
  }

  ghost predicate Renews(s: System, a: Action) {
    s.tables.lease.Some? && s.tables.lease.value.owner == a.owner
  }

  /** The lease does not pass to an instance while another one is still busy with it. */
  ghost predicate NoTakeover(s: System, a: Action) {
    TakesLease(s, a) && !Renews(s, a) ==> (forall o: string :: !Busy(PhaseOf(s, o)))
  }

  /** The lease does not pass to an instance while another one is still to judge. */
  ghost predicate NoRival(s: System, a: Action) {
    TakesLease(s, a) && !Renews(s, a) ==> (forall o: string :: !Judges(PhaseOf(s, o)))
  }

  /** No instance is busy when the lease of its tick is over. */
  ghost predicate InTime(s: System, a: Action) {
    forall owner: string :: Busy(PhaseOf(s, owner)) ==> a.at < PhaseOf(s, owner).until
  }

  // ---- The lease ----

  ghost predicate Open(log: seq<Obs>, i: nat)
    requires i < |log| && log[i].Acquired?
  {
    forall j :: i < j < |log| ==> log[j] != Released(log[i].owner)
  }

  /** A lease that was not released is either over or still in the table. */
  ghost predicate LeaseInv(cfg: Config, s: System) {
    && (s.tables.lease.Some? ==> s.tables.lease.value.expires <= s.clock + cfg.ttl)
    && forall i :: 0 <= i < |s.log| && s.log[i].Acquired? && Open(s.log, i) ==>
         || s.log[i].until <= s.clock
         || (s.tables.lease.Some? && s.tables.lease.value.owner == s.log[i].owner
             && s.tables.lease.value.expires >= s.log[i].until)
  }

  /** Leases of different owners do not overlap: between two of them the first ran out or was
      released by its owner. */
  ghost predicate LeasesApart(log: seq<Obs>) {
    forall i, k ::
      (0 <= i < k < |log| && log[i].Acquired? && log[k].Acquired? && log[i].owner != log[k].owner
       && (forall j :: i < j < k ==> log[j] != Released(log[i].owner)))
      ==> log[i].until <= log[k].at
  }

  lemma OpenAppend(log: seq<Obs>, more: seq<Obs>, i: nat)
    requires i < |log| && log[i].Acquired? && Open(log + more, i)
    ensures Open(log, i)
    ensures forall j :: 0 <= j < |more| ==> more[j] != Released(log[i].owner)
  {
    forall j | i < j < |log| ensures log[j] != Released(log[i].owner) { assert (log + more)[j] == log[j]; }
    forall j | 0 <= j < |more| ensures more[j] != Released(log[i].owner) { assert (log + more)[|log| + j] == more[j]; }
  }

  /** Entries other than acquisitions and releases keep the lease history, if the lease is kept. */
  lemma LeaseQuiet(cfg: Config, s: System, s': System, more: seq<Obs>)
    requires LeaseInv(cfg, s) && LeasesApart(s.log)
    requires s'.tables.lease == s.tables.lease && s'.clock >= s.clock && s'.log == s.log + more
    requires forall j :: 0 <= j < |more| ==> !more[j].Acquired?
    ensures LeaseInv(cfg, s') && LeasesApart(s'.log)
  {
    forall i | 0 <= i < |s'.log| && s'.log[i].Acquired? && Open(s'.log, i)
      ensures s'.log[i].until <= s'.clock
           || (s'.tables.lease.Some? && s'.tables.lease.value.owner == s'.log[i].owner
               && s'.tables.lease.value.expires >= s'.log[i].until)
    {
      OpenAppend(s.log, more, i);
    }
    forall i, k | 0 <= i < k < |s'.log| && s'.log[i].Acquired? && s'.log[k].Acquired? && s'.log[i].owner != s'.log[k].owner
      && (forall j :: i < j < k ==> s'.log[j] != Released(s'.log[i].owner))
      ensures s'.log[i].until <= s'.log[k].at
    {
      assert forall j :: i < j < k ==> s.log[j] == s'.log[j];
    }
  }

  lemma TickLease(cfg: Config, s: System, owner: string, at: int)
    requires LeaseInv(cfg, s) && LeasesApart(s.log) && at >= s.clock && LeaseFree(s.tables.lease, owner, at)
    ensures var until := at + cfg.ttl;
            var s' := s.(clock := at, tables := Acquire(s.tables, owner, at, cfg.ttl), log := s.log + [Acquired(owner, at, until)]);
            LeaseInv(cfg, s') && LeasesApart(s'.log)
  {
    var o := Acquired(owner, at, at + cfg.ttl);
    var log' := s.log + [o];
    forall i | 0 <= i < |s.log| && s.log[i].Acquired? && Open(log', i)
      ensures s.log[i].until <= at || (s.log[i].owner == owner && s.log[i].until <= at + cfg.ttl)
    {
      OpenAppend(s.log, [o], i);
    }
    forall i, k | 0 <= i < k < |log'| && log'[i].Acquired? && log'[k].Acquired? && log'[i].owner != log'[k].owner
      && (forall j :: i < j < k ==> log'[j] != Released(log'[i].owner))
      ensures log'[i].until <= log'[k].at
    {
      if k == |s.log| {
        assert forall j :: i < j < k ==> s.log[j] == log'[j];
        assert Open(s.log, i);
      } else {
        assert forall j :: i < j < k ==> s.log[j] == log'[j];
      }
    }
  }

  lemma CloseLease(cfg: Config, s: System, owner: string, at: int)
    requires LeaseInv(cfg, s) && LeasesApart(s.log) && at >= s.clock
    ensures var s' := s.(clock := at, tables := Release(s.tables, owner), log := s.log + [Released(owner)]);
            LeaseInv(cfg, s') && LeasesApart(s'.log)
  {
    var mid := s.(clock := at, log := s.log + [Released(owner)]);
    LeaseQuiet(cfg, s, mid, [Released(owner)]);
    forall i | 0 <= i < |mid.log| && mid.log[i].Acquired? && Open(mid.log, i) ensures mid.log[i].owner != owner {
      if i < |s.log| {
        OpenAppend(s.log, [Released(owner)], i);
        assert [Released(owner)][0] == Released(owner);
      }
    }
  }

  lemma TouchLog(s: System, id: string, t: Tables) returns (more: seq<Obs>)
    ensures Touch(s, id, t).log == s.log + more
    ensures forall j :: 0 <= j < |more| ==> more[j].Staged? || more[j].Enqueued?
  {
    var moved := id in t.events && (id !in s.tables.events || s.tables.events[id].stage != t.events[id].stage);
    var staged := if moved then [Staged(id, t.events[id].stage)] else [];
    var queued := if |t.deliveries| > |s.tables.deliveries|
                  then [Enqueued(id, t.deliveries[|t.deliveries| - 1].stage)] else [];
    more := staged + queued;
    assert s.log + staged + queued == s.log + (staged + queued);
  }

  lemma ActLease(cfg: Config, s: System, a: Action)
    requires LeaseInv(cfg, s) && LeasesApart(s.log) && Clocked(s, a)
    ensures LeaseInv(cfg, Act(cfg, s, a)) && LeasesApart(Act(cfg, s, a).log)
  {
    var s' := Act(cfg, s, a);
    var c := s.(clock := a.at);
    var phase := PhaseOf(c, a.owner);
    if a.Tick? && phase.Off? && LeaseFree(s.tables.lease, a.owner, a.at) {
      TickLease(cfg, s, a.owner, a.at);
    } else if a.Close? && phase.Off? {
      CloseLease(cfg, s, a.owner, a.at);
    } else {
      var more: seq<Obs> := [];
      if a.Decide? && phase.Judging? {
        more := TouchLog(c, phase.id, AdvanceFrom(cfg, c.tables, phase.id, phase.evidence, phase.read, phase.now));
        if s'.log == s.log { more := []; }
      }
      else if a.Delay? && phase.Collecting? { more := TouchLog(c, a.id, DelayEvent(cfg, c.tables, a.id, phase.now)); }
      else if s'.log != s.log { more := [s'.log[|s.log|]]; }
      assert s'.log == s.log + more;
      LeaseQuiet(cfg, s, s', more);
    }
  }

  /** With a shared clock that does not run backwards, lease intervals of different owners never
      overlap unless released, whatever the instances do in between. */
  lemma {:induction false} LeasesNeverOverlap(cfg: Config, s: System, trace: seq<Action>)
    requires LeaseInv(cfg, s) && LeasesApart(s.log)
    requires forall k :: 0 <= k < |trace| ==> Clocked(Run(cfg, s, trace[..k]), trace[k])
    ensures LeaseInv(cfg, Run(cfg, s, trace)) && LeasesApart(Run(cfg, s, trace).log)
  {
    if trace != [] {
      var n := |trace| - 1;
      forall k | 0 <= k < n ensures Clocked(Run(cfg, s, trace[..n][..k]), trace[..n][k]) {
        assert trace[..n][..k] == trace[..k];
      }
      LeasesNeverOverlap(cfg, s, trace[..n]);
      ActLease(cfg, Run(cfg, s, trace[..n]), trace[n]);
    }
  }
}
