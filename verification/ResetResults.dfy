/** The guarantees of the reset monitor in the words of its users. */
module ResetResults {
  import opened Basics
  import opened Ordering
  import opened Confirmation
  import opened ResetStore
  import opened ResetMonitor
  import opened ResetSafety
  import opened ResetQueue

  /** The lease never passes to an instance while another one is busy. */
  ghost predicate Undisturbed(cfg: Config, s: System, trace: seq<Action>) {
    forall k :: 0 <= k < |trace| ==> NoTakeover(Run(cfg, s, trace[..k]), trace[k])
  }

  /** So it is if every tick is over, or has only to end, before its lease is. */
  lemma {:induction false} InTimeIsUndisturbed(cfg: Config, s: System, trace: seq<Action>)
    requires Inv(cfg, s) && cfg.maxAttempts >= 1
    requires forall k :: 0 <= k < |trace| ==> InTime(Run(cfg, s, trace[..k]), trace[k])
    ensures Undisturbed(cfg, s, trace)
  {
    hide Act, Inv;
    if trace != [] {
      var n := |trace| - 1;
      forall k | 0 <= k < n
        ensures trace[..n][..k] == trace[..k]
        ensures InTime(Run(cfg, s, trace[..n][..k]), trace[..n][k])
      {
        assert trace[..n][..k] == trace[..k];
      }
      InTimeIsUndisturbed(cfg, s, trace[..n]);
      EveryRun(cfg, s, trace[..n]);
      InTimeNoTakeover(cfg, Run(cfg, s, trace[..n]), trace[n]);
      forall k | 0 <= k < |trace| ensures NoTakeover(Run(cfg, s, trace[..k]), trace[k]) {
        if k < n { assert NoTakeover(Run(cfg, s, trace[..n][..k]), trace[..n][k]); }
      }
    }
  }

  lemma InTimeNoTakeover(cfg: Config, s: System, a: Action)
    requires Inv(cfg, s) && InTime(s, a)
    ensures NoTakeover(s, a)
  {
    forall o: string | TakesLease(s, a) && Busy(PhaseOf(s, o)) ensures Renews(s, a) { HolderSends(s, o); }
  }

  /** One instance at a time is busy, over every such run. */
  lemma OneBusyAtATime(cfg: Config, trace: seq<Action>, a: string, b: string)
    requires Undisturbed(cfg, EMPTY, trace) && cfg.maxAttempts >= 1
    requires Busy(PhaseOf(Run(cfg, EMPTY, trace), a)) && Busy(PhaseOf(Run(cfg, EMPTY, trace), b))
    ensures a == b && Run(cfg, EMPTY, trace).tables.lease == Some(Lease(a, PhaseOf(Run(cfg, EMPTY, trace), a).until))
  {
    EveryRun(cfg, EMPTY, trace);
    OneTickAtATime(Run(cfg, EMPTY, trace), a, b);
  }

  // ---- Deliveries ----

  lemma {:induction false} LogBounds(cfg: Config, log: seq<Obs>, id: string, stage: Stage)
    requires LogOk(cfg, log)
    ensures Attempts(log, id, stage) <= cfg.maxAttempts && Results(log, id, stage, true) <= 1
  {
    if log != [] {
      var n := |log| - 1;
      forall k | 0 <= k < n ensures Proper(cfg, log[..n][..k], log[..n][k]) { assert log[..n][..k] == log[..k]; }
      LogBounds(cfg, log[..n], id, stage);
      assert Proper(cfg, log[..n], log[n]);
    }
  }

  /** Each stage of each event is broadcast successfully at most once and attempted at most the
      configured number of times, over any run of any instances. */
  lemma SentAtMostOnce(cfg: Config, trace: seq<Action>, id: string, stage: Stage)
    requires Undisturbed(cfg, EMPTY, trace) && cfg.maxAttempts >= 1
    ensures var log := Run(cfg, EMPTY, trace).log;
            Results(log, id, stage, true) <= 1 && Attempts(log, id, stage) <= cfg.maxAttempts
  {
    EveryRun(cfg, EMPTY, trace);
    LogBounds(cfg, Run(cfg, EMPTY, trace).log, id, stage);
  }

  /** Every tick began before now, and whatever it sent or heard came after its beginning. */
  ghost predicate Timely(s: System) {
    && (forall o: string :: !PhaseOf(s, o).Off? ==> PhaseOf(s, o).now <= s.clock)
    && (forall k :: 0 <= k < |s.log| && (s.log[k].Attempt? || s.log[k].Result?) ==> s.log[k].began <= s.log[k].at <= s.clock)
  }

  lemma ActTimely(cfg: Config, s: System, a: Action)
    requires Timely(s) && Clocked(s, a)
    ensures Timely(Act(cfg, s, a))
  {
    hide AdvanceFrom, EvidenceFor, Classify, DelayEvent, DueDeliveries, BookOutcome, PutEvidence, Acquire, Release;
    var s' := Act(cfg, s, a);
    assert PhaseOf(s.(clock := a.at), a.owner) == PhaseOf(s, a.owner);
    forall o: string | !PhaseOf(s', o).Off? ensures PhaseOf(s', o).now <= s'.clock {
      if o != a.owner { assert PhaseOf(s', o) == PhaseOf(s, o); }
    }
  }

  ghost predicate Clockwise(cfg: Config, s: System, trace: seq<Action>) {
    forall k :: 0 <= k < |trace| ==> Clocked(Run(cfg, s, trace[..k]), trace[k])
  }

  lemma {:induction false} RunTimely(cfg: Config, s: System, trace: seq<Action>)
    requires Timely(s) && Clockwise(cfg, s, trace)
    ensures Timely(Run(cfg, s, trace))
  {
    hide Act, Timely;
    if trace != [] {
      var n := |trace| - 1;
      forall k | 0 <= k < n ensures Clocked(Run(cfg, s, trace[..n][..k]), trace[..n][k]) {
        assert trace[..n][..k] == trace[..k];
      }
      RunTimely(cfg, s, trace[..n]);
      ActTimely(cfg, Run(cfg, s, trace[..n]), trace[n]);
    }
  }

  lemma AttemptWaits(cfg: Config, s: System, k: nat)
    requires Inv(cfg, s) && k < |s.log| && s.log[k].Attempt?
    ensures var before, o := s.log[..k], s.log[k];
            var n := Attempts(before, o.id, o.stage);
            && Results(before, o.id, o.stage, true) == 0
            && (n >= 1 ==>
                 && LastFailure(before, o.id, o.stage).Some?
                 && var f := LastFailure(before, o.id, o.stage).value;
                 && var delay := Doubling(cfg.retryBase, cfg.retryMax, n);
                 && o.began - f.began >= delay
                 && (Timely(s) ==> o.at - f.at >= delay - (f.at - f.began)))
  {
    LogProper(cfg, s, k);
    var n := Attempts(s.log[..k], s.log[k].id, s.log[k].stage);
    if n >= 1 { DelayDoubles(cfg, n); }
    hide Inv, Attempts, Results, LastFailure, RetryDelay, Doubling;
  }

  /** An attempt that follows n earlier ones of the same message belongs to a tick that began no sooner
      than the n-th delay after the tick of the last failure did: the base delay, doubled with every failure
      up to the limit. So the wait since the failure was heard is at least that delay less the time the
      failing tick took to hear it. None follows a success. */
  lemma RetriesWait(cfg: Config, trace: seq<Action>, k: nat)
    requires Undisturbed(cfg, EMPTY, trace) && cfg.maxAttempts >= 1
    requires k < |Run(cfg, EMPTY, trace).log| && Run(cfg, EMPTY, trace).log[k].Attempt?
    ensures var log := Run(cfg, EMPTY, trace).log;
            var before, o := log[..k], log[k];
            var n := Attempts(before, o.id, o.stage);
            && Results(before, o.id, o.stage, true) == 0
            && (n >= 1 ==>
                 && LastFailure(before, o.id, o.stage).Some?
                 && var f := LastFailure(before, o.id, o.stage).value;
                 && var delay := Doubling(cfg.retryBase, cfg.retryMax, n);
                 && o.began - f.began >= delay
                 && (Clockwise(cfg, EMPTY, trace) ==> o.at - f.at >= delay - (f.at - f.began)))
  {
    EveryRun(cfg, EMPTY, trace);
    if Clockwise(cfg, EMPTY, trace) { RunTimely(cfg, EMPTY, trace); }
    hide *;
    AttemptWaits(cfg, Run(cfg, EMPTY, trace), k);
  }

  lemma LogProper(cfg: Config, s: System, k: nat)
    requires Inv(cfg, s) && k < |s.log|
    ensures Proper(cfg, s.log[..k], s.log[k])
  {
    hide Proper;
  }

  /** The stages queued for one event strictly rise. */
  lemma QueuedStagesRise(cfg: Config, trace: seq<Action>, i: nat, k: nat)
    requires Undisturbed(cfg, EMPTY, trace) && cfg.maxAttempts >= 1
    requires var log := Run(cfg, EMPTY, trace).log;
             i < k < |log| && log[i].Enqueued? && log[k].Enqueued? && log[i].id == log[k].id
    ensures Rank(Run(cfg, EMPTY, trace).log[i].stage) < Rank(Run(cfg, EMPTY, trace).log[k].stage)
  {
    EveryRun(cfg, EMPTY, trace);
    hide Run, Inv;
    var log := Run(cfg, EMPTY, trace).log;
    LogProper(cfg, Run(cfg, EMPTY, trace), k);
    assert log[..k][i] == log[i];
  }

  // ---- Stages ----

  /** After an event is judged, its stage is at least what its evidence calls for. */
  lemma JudgedStageReached(cfg: Config, t: Tables, id: string, now: int)
    requires Classify(EvidenceFor(t.evidence, id), cfg.canonical).Some?
    ensures var t' := AdvanceEvent(cfg, t, id, now);
            id in t'.events && Rank(t'.events[id].stage) >= Rank(Classify(EvidenceFor(t.evidence, id), cfg.canonical).value)
  {}

  // ---- The verdict and more evidence ----

  /** More evidence never takes a verdict away, and it lowers one in exactly one way: a confirmation goes
      back to an announcement when there is an official announcement of a banked reset and no arrived
      banked balance. Only the stored stage is monotone. */
  lemma VerdictFallsIff(evidence: seq<Evidence>, more: seq<Evidence>, canonical: Canonical)
    requires Contains(more, evidence) && Classify(evidence, canonical).Some?
    ensures Classify(more, canonical).Some?
    ensures Rank(Classify(more, canonical).value) < Rank(Classify(evidence, canonical).value)
        <==> Classify(evidence, canonical) == Some(Confirmed)
             && AnyOf(more, BankedAnnouncement) && !AnyOf(more, BankedArrived)
  {
    FullIfBanked(evidence);
    FullIfBanked(more);
    if AnyOf(evidence, BankedArrived) { SomeGrows(evidence, more, BankedArrived); }
    if AnyOf(evidence, BankedAnnouncement) { SomeGrows(evidence, more, BankedAnnouncement); }
    if AnyOf(evidence, FullAnnouncement) { SomeGrows(evidence, more, FullAnnouncement); }
    if AnyOf(evidence, OfficialHint) { SomeGrows(evidence, more, OfficialHint); }
    if ConfirmationBasis(evidence, canonical) != NoBasis { BasisGrows(evidence, more, canonical); }
  }

  lemma FullIfBanked(evidence: seq<Evidence>)
    ensures AnyOf(evidence, BankedAnnouncement) ==> AnyOf(evidence, FullAnnouncement)
  {
    if i :| 0 <= i < |evidence| && BankedAnnouncement(evidence[i]) { assert FullAnnouncement(evidence[i]); }
  }

  /** It does happen: an announcement of a banked reset takes back a public confirmation. */
  lemma MoreEvidenceCanLowerTheVerdict(canonical: Canonical) returns (evidence: seq<Evidence>, more: seq<Evidence>)
    ensures Contains(more, evidence)
    ensures Classify(evidence, canonical) == Some(Confirmed) && Classify(more, canonical) == Some(Announced)
  {
    var live := Evidence("reset_feed", "feed", "1", Confirmed, "Live radar feed", "u", 1, Some(Direct), None, None, true, true, false);
    var banked := Evidence("reset_feed", "feed", "2", Announced, "t", "u", 2, Some(Banked), None, Some(3), true, false, false);
    evidence, more := [live], [live, banked];
    assert Authoritative(evidence[0]) && Authoritative(more[0]) && BankedAnnouncement(more[1]);
    assert !AnyOf(evidence, BankedArrived) && !AnyOf(more, BankedArrived);
    assert !AnyOf(evidence, BankedLocal) && !AnyOf(more, BankedLocal);
    assert !AnyOf(evidence, BankedAnnouncement);
  }

}
