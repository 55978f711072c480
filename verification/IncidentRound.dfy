/** One round by itself: the loops of the engine, and what they leave in the tables. */
module IncidentRound {
  import opened Basics
  import opened Ordering
  import opened Incidents
  import opened IncidentSnapshot
  import opened IncidentNews

  // ---- The loop over the findings ----

  lemma {:induction false} MaxCooldownOther(events: seq<Event>, rows: seq<Event>, key: Key)
    requires forall i :: 0 <= i < |rows| ==> EventKey(rows[i]) != key
    ensures MaxCooldown(events + rows, key) == MaxCooldown(events, key)
  {
    if rows == [] {
      assert events + rows == events;
    } else {
      var n := |rows| - 1;
      assert (events + rows)[..|events| + n] == events + rows[..n];
      MaxCooldownOther(events, rows[..n], key);
    }
  }

  lemma {:induction false} NewRowsShape(r: Round, events: seq<Event>, n: nat)
    requires n <= |r.findings|
    ensures |NewRows(r, events, n)| <= n
    ensures forall i :: 0 <= i < |NewRows(r, events, n)| ==>
      && NewRows(r, events, n)[i].id == |events| + i + 1
      && EventKey(NewRows(r, events, n)[i]) in Firing(r, n)
  {
    if n > 0 { NewRowsShape(r, events, n - 1); }
  }

  ghost predicate AtFindingState(r: Round, start: Db, i: nat, job: Job, db: Db) {
    var events := start.events;
    && i <= |r.findings|
    && job == Running(r, OpenByKey(events, r.scope), Firing(r, i), AdmittedBefore(r, events, i), AtFinding(i))
    && db.events == events + NewRows(r, events, i)
    && db.digest == NewsDeferred(r, events, start.digest, i)
    && db.log == start.log + AlertsSent(r, events, i)
  }

  /** Two steps at most lead from one loop iteration to the next. */
  ghost predicate Moves(job: Job, db: Db, job': Job, db': Db)
    requires Sane(job)
  {
    var (job1, db1) := Advance(job, db);
    (job', db') == (job1, db1) || (job', db') == Advance(job1, db1)
  }

  lemma MovesFinish(job: Job, db: Db, job': Job, db': Db)
    requires Sane(job) && Moves(job, db, job', db')
    ensures Sane(job') && Finish(job, db) == Finish(job', db')
  {
    var (job1, db1) := Advance(job, db);
    assert Finish(job, db) == Finish(job1, db1);
    if (job', db') == Advance(job1, db1) {
      assert Finish(job1, db1) == Finish(job', db');
    }
  }

  /** What the loop tests before it sends or defers. */
  ghost predicate Takes(r: Round, f: Finding, open: seq<Event>, firing: set<Key>, admitted: nat, events: seq<Event>) {
    && KeyOf(f) !in firing
    && !HasKey(open, KeyOf(f))
    && CooldownUntil(events, KeyOf(f)) <= r.now
    && (r.cap.Some? ==> admitted < r.cap.value)
  }

  ghost predicate Reaches(r: Round, f: Finding) { Immediate(r, f) ==> r.out.alert(KeyOf(f)) >= 1 }

  /** Looking at one finding, and sending its alert if it has one. */
  lemma FindingMove(r: Round, open: seq<Event>, firing: set<Key>, admitted: nat, i: nat, db: Db) returns (db': Db)
    requires i < |r.findings|
    ensures var f := r.findings[i];
            var news := Takes(r, f, open, firing, admitted, db.events);
            var opens := news && Reaches(r, f);
            && Moves(Running(r, open, firing, admitted, AtFinding(i)), db,
                     Running(r, open, firing + {KeyOf(f)}, if opens then admitted + 1 else admitted, AtFinding(i + 1)), db')
            && db'.events == db.events + (if opens then [NewRow(r, f, |db.events| + 1)] else [])
            && db'.digest == (if news && !Immediate(r, f) then Enqueue(db.digest, f, r.now, Observed) else db.digest)
            && db'.log == db.log + if news && Immediate(r, f) then [Alert(KeyOf(f), r.now, f.point, r.out.alert(KeyOf(f)))] else []
  {
    hide CooldownUntil, Enqueue, NewRow, Immediate, HasKey;
    var f := r.findings[i];
    var step := Advance(Running(r, open, firing, admitted, AtFinding(i)), db);
    db' := step.1;
    if KeyOf(f) in firing { assert firing + {KeyOf(f)} == firing; }
    if step.0.pc.AwaitAlert? { db' := Advance(step.0, step.1).1; }
    assert db.events + [] == db.events && db.log + [] == db.log;
  }

  lemma TakesWhatAsks(r: Round, start: Db, i: nat, job: Job, db: Db)
    requires OneOpen(start.events) && InScope(r)
    requires AtFindingState(r, start, i, job, db) && i < |r.findings|
    ensures Takes(r, r.findings[i], job.open, job.firing, job.admitted, db.events) <==> Asks(r, start.events, i)
  {
    hide NewRow, MaxCooldown, OpenByKey, HasKey, IsOpen, Immediate, NewsDeferred, AlertsSent;
    var key := KeyOf(r.findings[i]);
    HasKeyIsOpen(start.events, r.scope, key);
    NewRowsShape(r, start.events, i);
    if key !in Firing(r, i) {
      MaxCooldownOther(start.events, NewRows(r, start.events, i), key);
    }
  }

  lemma FindingStep(r: Round, start: Db, i: nat, job: Job, db: Db) returns (job': Job, db': Db)
    requires OneOpen(start.events) && InScope(r)
    requires AtFindingState(r, start, i, job, db) && i < |r.findings|
    ensures AtFindingState(r, start, i + 1, job', db')
    ensures Moves(job, db, job', db')
  {
    hide Moves, NewRow, OpenByKey, Takes, Asks, OneOpen, InScope, Enqueue, Immediate;
    var events, f := start.events, r.findings[i];
    assert Firing(r, i + 1) == Firing(r, i) + {KeyOf(f)};
    TakesWhatAsks(r, start, i, job, db);
    NewRowsShape(r, events, i);
    db' := FindingMove(r, job.open, job.firing, job.admitted, i, db);
    job' := Running(r, job.open, Firing(r, i + 1), AdmittedBefore(r, events, i + 1), AtFinding(i + 1));
    var rows := NewRows(r, events, i);
    if Admits(r, events, i) {
      var row := NewRow(r, f, |events| + |rows| + 1);
      assert db'.events == db.events + [row] == events + (rows + [row]);
    } else {
      assert db.events + [] == db.events;
    }
    var sent := AlertsSent(r, events, i);
    if Asks(r, events, i) && Immediate(r, f) {
      var alert := Alert(KeyOf(f), r.now, f.point, r.out.alert(KeyOf(f)));
      assert db'.log == db.log + [alert] == start.log + (sent + [alert]);
    } else {
      assert db.log + [] == db.log && sent + [] == sent;
    }
  }

  lemma {:induction false} FindingsDone(r: Round, start: Db, i: nat, job: Job, db: Db) returns (job': Job, db': Db)
    requires OneOpen(start.events) && InScope(r)
    requires i <= |r.findings| && AtFindingState(r, start, i, job, db)
    ensures AtFindingState(r, start, |r.findings|, job', db')
    ensures Finish(job, db) == Finish(job', db')
    decreases |r.findings| - i
  {
    hide Finish, AtFindingState;
    if i == |r.findings| {
      job', db' := job, db;
    } else {
      job', db' := FindingStep(r, start, i, job, db);
      MovesFinish(job, db, job', db');
      job', db' := FindingsDone(r, start, i + 1, job', db');
    }
  }

  // ---- The loop over the open events ----

  ghost predicate Among(open: seq<Event>, j: nat, id: nat)
    requires j <= |open|
  {
    exists k :: 0 <= k < j && open[k].id == id
  }

  ghost predicate AtOpenState(r: Round, start: Db, open: seq<Event>, j: nat, job: Job, db: Db) {
    var events := start.events;
    && j <= |open|
    && db.digest == RecoveriesDeferred(r, open, NewsDeferred(r, events, start.digest, |r.findings|), j)
    && db.log == start.log + AlertsSent(r, events, |r.findings|) + RecoveriesSent(r, open, j)
    && job == Running(r, open, Firing(r, |r.findings|), AdmittedBefore(r, events, |r.findings|), AtOpen(j))
    && |db.events| == |events + NewRows(r, events, |r.findings|)|
    && (forall i :: 0 <= i < |events| ==>
         db.events[i] ==
           if Recovers(r, events[i]) && Among(open, j, events[i].id) then ResolvedRow(events[i], r.now)
           else events[i])
    && db.events[|events|..] == NewRows(r, events, |r.findings|)
  }

  lemma ResolveOne(events: seq<Event>, rows: seq<Event>, table: seq<Event>, id: nat, now: int)
    requires Numbered(events) && 1 <= id <= |events|
    requires |table| == |events| + |rows| && table[|events|..] == rows
    requires forall i :: 0 <= i < |events| ==> table[i].id == events[i].id
    requires forall i :: 0 <= i < |rows| ==> rows[i].id == |events| + i + 1
    ensures ResolveById(table, id, now) == table[id - 1 := ResolvedRow(table[id - 1], now)]
  {
    forall i | 0 <= i < |table|
      ensures ResolveById(table, id, now)[i] == table[id - 1 := ResolvedRow(table[id - 1], now)][i]
    {
      if i >= |events| { assert table[i] == rows[i - |events|]; }
    }
  }

  /** Looking at one open event: it is resolved exactly when it recovers. */
  lemma OpenMove(r: Round, open: seq<Event>, admitted: nat, j: nat, db: Db) returns (db': Db)
    requires j < |open| && open[j].status == Open && open[j].rule in r.scope
    ensures Moves(Running(r, open, Firing(r, |r.findings|), admitted, AtOpen(j)), db,
                  Running(r, open, Firing(r, |r.findings|), admitted, AtOpen(j + 1)), db')
    ensures db'.events == if Recovers(r, open[j]) then ResolveById(db.events, open[j].id, r.now) else db.events
    ensures db'.digest == if Quiet(r, open[j]) && !open[j].notified
                          then Enqueue(db.digest, RecoveredFinding(open[j]), r.now, Recovered) else db.digest
    ensures db'.log == db.log + if Quiet(r, open[j]) && open[j].notified
                                then [Recovery(EventKey(open[j]), open[j].id, r.now, r.out.recovery(EventKey(open[j])))] else []
  {
    hide Enqueue, ResolveById, Firing, RecoveredFinding;
    assert db.log + [] == db.log;
    var step := Advance(Running(r, open, Firing(r, |r.findings|), admitted, AtOpen(j)), db);
    db' := step.1;
    if step.0.pc.AwaitRecovery? {
      var sent := Advance(step.0, step.1);
      db' := sent.1;
    }
  }

  lemma AmongNext(events: seq<Event>, open: seq<Event>, j: nat, m: nat)
    requires Numbered(events) && j < |open| && m < |events| && open[j] == events[m]
    ensures forall i :: 0 <= i < |events| ==>
      (Among(open, j + 1, events[i].id) <==> Among(open, j, events[i].id) || i == m)
  {
    assert open[j].id == events[m].id;
  }

  lemma OpenStep(r: Round, start: Db, open: seq<Event>, j: nat, job: Job, db: Db)
    returns (job': Job, db': Db)
    requires Numbered(start.events) && OneOpen(start.events) && open == OpenByKey(start.events, r.scope)
    requires AtOpenState(r, start, open, j, job, db) && j < |open|
    ensures AtOpenState(r, start, open, j + 1, job', db')
    ensures Moves(job, db, job', db')
  {
    hide Moves, NewRows, Recovers, Quiet, OpenByKey, NewsDeferred, AlertsSent, Enqueue;
    var events, e := start.events, open[j];
    assert e in events && e.status == Open && e.rule in r.scope by {
      OpenByKeyMember(events, r.scope, e);
    }
    var m :| 0 <= m < |events| && events[m] == e;
    NewRowsShape(r, events, |r.findings|);
    ResolveOne(events, NewRows(r, events, |r.findings|), db.events, e.id, r.now);
    job' := job.(pc := AtOpen(j + 1));
    db' := OpenMove(r, open, job.admitted, j, db);
    AmongNext(events, open, j, m);
    RecoveryBooked(r, start, open, j, db, db');
    hide Among, ResolveById;
  }

  lemma RecoveryBooked(r: Round, start: Db, open: seq<Event>, j: nat, db: Db, db': Db)
    requires j < |open|
    requires db.log == start.log + AlertsSent(r, start.events, |r.findings|) + RecoveriesSent(r, open, j)
    requires db'.log == db.log + if Quiet(r, open[j]) && open[j].notified
                                 then [Recovery(EventKey(open[j]), open[j].id, r.now, r.out.recovery(EventKey(open[j])))] else []
    ensures db'.log == start.log + AlertsSent(r, start.events, |r.findings|) + RecoveriesSent(r, open, j + 1)
  {
    hide AlertsSent, Quiet;
  }

  lemma {:induction false} OpensDone(r: Round, start: Db, open: seq<Event>, j: nat, job: Job, db: Db)
    requires Numbered(start.events) && OneOpen(start.events) && open == OpenByKey(start.events, r.scope)
    requires AtOpenState(r, start, open, j, job, db)
    ensures Finish(job, db) == TablesMeaning(r, start)
    decreases |open| - j
  {
    if j == |open| {
      var events := start.events;
      forall i | 0 <= i < |events| && Recovers(r, events[i])
        ensures Among(open, j, events[i].id)
      {
        OpenByKeyMember(events, r.scope, events[i]);
      }
      hide NewRows, Recovers, OpenByKey, NewsDeferred, AlertsSent, RecoveriesSent, RecoveriesDeferred;
      var step := Advance(job, db);
      assert Finish(step.0, step.1) == db;
      assert db.events == db.events[..|events|] + db.events[|events|..];
      assert db.events[..|events|] == OldRows(r, events);
    } else {
      var job', db' := OpenStep(r, start, open, j, job, db);
      MovesFinish(job, db, job', db');
      OpensDone(r, start, open, j + 1, job', db');
    }
  }

  /** The two loops of a round refine its declarative meaning: events, digest and broadcasts. */
  lemma RoundMeaning(r: Round, db: Db)
    requires Numbered(db.events) && OneOpen(db.events) && InScope(r)
    ensures Finish(Start(r, db.events), db) == TablesMeaning(r, db) && Tells(r, db, TablesMeaning(r, db))
  {
    RoundTells(r, db);
    hide Tells, AlertsSent, NewRows, NewsDeferred, RecoveriesSent, RecoveriesDeferred, OldRows;
    MeaningReached(r, db);
  }

  lemma MeaningReached(r: Round, db: Db)
    requires Numbered(db.events) && OneOpen(db.events) && InScope(r)
    ensures Finish(Start(r, db.events), db) == TablesMeaning(r, db)
  {
    var events := db.events;
    var open := OpenByKey(events, r.scope);
    assert events + NewRows(r, events, 0) == events && db.log + AlertsSent(r, events, 0) == db.log;
    assert Firing(r, 0) == {};
    var job, db' := FindingsDone(r, db, 0, Start(r, events), db);
    var step := Advance(job, db');
    assert Finish(job, db') == Finish(step.0, step.1);
    assert db'.log + RecoveriesSent(r, open, 0) == db'.log;
    OpensDone(r, db, open, 0, step.0, step.1);
  }

  // ---- Each message at most once ----

  lemma {:induction false} AlertsNew(r: Round, events: seq<Event>, n: nat)
    requires n <= |r.findings|
    ensures forall i :: 0 <= i < |AlertsSent(r, events, n)| ==>
      AlertsSent(r, events, n)[i].Alert? && AlertsSent(r, events, n)[i].key in Firing(r, n)
    ensures forall i, j :: 0 <= i < j < |AlertsSent(r, events, n)| ==>
      AlertsSent(r, events, n)[i].key != AlertsSent(r, events, n)[j].key
  {
    if n > 0 {
      AlertsNew(r, events, n - 1);
      assert Firing(r, n) == Firing(r, n - 1) + {KeyOf(r.findings[n - 1])};
    }
  }

  lemma {:induction false} RecoveriesNew(r: Round, open: seq<Event>, j: nat)
    requires j <= |open| && Apart(open, SameKey)
    ensures forall i :: 0 <= i < |RecoveriesSent(r, open, j)| ==>
      var o := RecoveriesSent(r, open, j)[i];
      o.Recovery? && o.key !in Firing(r, |r.findings|) && exists k :: 0 <= k < j && EventKey(open[k]) == o.key
    ensures forall i, k :: 0 <= i < k < |RecoveriesSent(r, open, j)| ==>
      RecoveriesSent(r, open, j)[i].key != RecoveriesSent(r, open, j)[k].key
  {
    if j > 0 { RecoveriesNew(r, open, j - 1); }
  }

  /** A round sends at most one message about a key: alerts and recoveries are about different keys, and
      each key has at most one. */
  lemma OneMessagePerKey(r: Round, events: seq<Event>, i: nat, k: nat)
    requires OneOpen(events)
    requires var open := OpenByKey(events, r.scope);
             i < k < |AlertsSent(r, events, |r.findings|) + RecoveriesSent(r, open, |open|)|
    ensures var open := OpenByKey(events, r.scope);
            var sent := AlertsSent(r, events, |r.findings|) + RecoveriesSent(r, open, |open|);
            sent[i].key != sent[k].key
  {
    SelectOpenApart(events, r.scope);
    SortApart(SelectOpen(events, r.scope), ByTs, SameKey);
    DictApart(Sort(SelectOpen(events, r.scope), ByTs));
    AlertsNew(r, events, |r.findings|);
    RecoveriesNew(r, OpenByKey(events, r.scope), |OpenByKey(events, r.scope)|);
  }

  // ---- Open keys, before and after ----

  ghost function OpenKeys(events: seq<Event>): set<Key> {
    set i | 0 <= i < |events| && events[i].status == Open :: EventKey(events[i])
  }

  /** The keys a round opens. */
  ghost function OpenedKeys(r: Round, events: seq<Event>, n: nat): set<Key>
    requires n <= |r.findings|
  {
    set i | 0 <= i < n && Admits(r, events, i) && !r.findings[i].point :: KeyOf(r.findings[i])
  }

  /** The keys a round leaves open: out of scope, firing, held, or with an undelivered recovery. */
  ghost predicate Stays(r: Round, e: Event) {
    || e.rule !in r.scope
    || EventKey(e) in Firing(r, |r.findings|)
    || EventKey(e) in r.hold
    || (e.notified && r.out.recovery(EventKey(e)) < 1)
  }

  lemma {:induction false} NewRowsOpenKeys(r: Round, events: seq<Event>, n: nat)
    requires n <= |r.findings|
    ensures OpenKeys(NewRows(r, events, n)) == OpenedKeys(r, events, n)
  {
    if n > 0 {
      NewRowsOpenKeys(r, events, n - 1);
      var rest, rows := NewRows(r, events, n - 1), NewRows(r, events, n);
      var f := r.findings[n - 1];
      if Admits(r, events, n - 1) {
        var row := rows[|rest|];
        assert rows == rest + [row];
        assert OpenKeys(rows) == OpenKeys(rest) + if f.point then {} else {KeyOf(f)} by {
          forall k | k in OpenKeys(rest) ensures k in OpenKeys(rows) {
            var i :| 0 <= i < |rest| && rest[i].status == Open && EventKey(rest[i]) == k;
            assert rows[i] == rest[i];
          }
        }
      }
      assert OpenedKeys(r, events, n) == OpenedKeys(r, events, n - 1)
        + if Admits(r, events, n - 1) && !f.point then {KeyOf(f)} else {};
    }
  }

  lemma OpenKeysConcat(a: seq<Event>, b: seq<Event>)
    ensures OpenKeys(a + b) == OpenKeys(a) + OpenKeys(b)
  {
    forall k | k in OpenKeys(a) ensures k in OpenKeys(a + b) {
      var i :| 0 <= i < |a| && a[i].status == Open && EventKey(a[i]) == k;
      assert (a + b)[i] == a[i];
    }
    forall k | k in OpenKeys(b) ensures k in OpenKeys(a + b) {
      var i :| 0 <= i < |b| && b[i].status == Open && EventKey(b[i]) == k;
      assert (a + b)[|a| + i] == b[i];
    }
  }

  /** The keys that a round leaves open among the rows it found. */
  ghost function StayingKeys(r: Round, events: seq<Event>): set<Key> {
    set i | 0 <= i < |events| && events[i].status == Open && Stays(r, events[i]) :: EventKey(events[i])
  }

  lemma OldRowsOpenKeys(r: Round, events: seq<Event>)
    ensures OpenKeys(OldRows(r, events)) == StayingKeys(r, events)
  {
    var rows := OldRows(r, events);
    forall i | 0 <= i < |events|
      ensures rows[i].status == Open <==> events[i].status == Open && Stays(r, events[i])
      ensures EventKey(rows[i]) == EventKey(events[i])
    {}
  }

  /** The set specification of a round: what stays open, plus what it opens. */
  lemma OpenKeysAfterRound(r: Round, db: Db)
    requires Numbered(db.events) && OneOpen(db.events) && InScope(r)
    ensures OpenKeys(Finish(Start(r, db.events), db).events)
         == StayingKeys(r, db.events) + OpenedKeys(r, db.events, |r.findings|)
  {
    RoundMeaning(r, db);
    OpenKeysConcat(OldRows(r, db.events), NewRows(r, db.events, |r.findings|));
    NewRowsOpenKeys(r, db.events, |r.findings|);
    OldRowsOpenKeys(r, db.events);
  }

  // ---- The engine as the source writes it ----

  /** The broadcaster seen from the engine: it reports how many channels a message reached. */
  class Broadcaster {
    const out: Outcomes
    var log: seq<Broadcast>

    constructor (out: Outcomes)
      ensures this.out == out && log == []
    {
      this.out := out;
      log := [];
    }

    method SendAlert(key: Key, ts: int, point: bool) returns (delivered: nat)
      modifies this
      ensures delivered == out.alert(key)
      ensures log == old(log) + [Alert(key, ts, point, delivered)]
    {
      delivered := out.alert(key);
      log := log + [Alert(key, ts, point, delivered)];
    }

    method SendRecovery(key: Key, id: nat, ts: int) returns (delivered: nat)
      modifies this
      ensures delivered == out.recovery(key)
      ensures log == old(log) + [Recovery(key, id, ts, delivered)]
    {
      delivered := out.recovery(key);
      log := log + [Recovery(key, id, ts, delivered)];
    }
  }

  /** The events and digest tables of the store. */
  class Store {
    var events: seq<Event>
    var digest: seq<DigestItem>

    constructor ()
      ensures events == [] && digest == []
    {
      events, digest := [], [];
    }

    method InsertEvent(r: Round, f: Finding) returns (id: nat)
      modifies this`events
      ensures id == |old(events)| + 1
      ensures events == old(events) + [NewRow(r, f, id)]
    {
      id := |events| + 1;
      events := events + [NewRow(r, f, id)];
    }

    method ResolveEvent(id: nat, now: int)
      modifies this`events
      ensures events == ResolveById(old(events), id, now) && |events| == |old(events)|
      ensures forall i :: 0 <= i < |events| ==>
        events[i] == if old(events)[i].id == id then old(events)[i].(status := Resolved, resolvedTs := Some(now))
                     else old(events)[i]
    {
      events := ResolveById(events, id, now);
    }

    method EnqueueDigest(f: Finding, now: int, state: DigestState)
      modifies this`digest
      ensures digest == Enqueue(old(digest), f, now, state)
    {
      digest := Enqueue(digest, f, now, state);
    }
  }

  ghost function Tables(store: Store, broadcaster: Broadcaster): Db
    reads store, broadcaster
  {
    Db(store.events, store.digest, broadcaster.log)
  }

  /** The loop over the findings. */
  method RaiseAlerts(r: Round, open: seq<Event>, store: Store, broadcaster: Broadcaster, ghost start: Job)
    returns (firing: set<Key>, admitted: nat)
    requires broadcaster.out == r.out
    requires start == Running(r, open, {}, 0, AtFinding(0))
    modifies store, broadcaster
    ensures Finish(start, old(Tables(store, broadcaster)))
         == Finish(Running(r, open, firing, admitted, AtFinding(|r.findings|)), Tables(store, broadcaster))
  {
    hide Finish, Enqueue, NewRow;
    firing, admitted := {}, 0;
    for i := 0 to |r.findings|
      invariant Finish(start, old(Tables(store, broadcaster)))
             == Finish(Running(r, open, firing, admitted, AtFinding(i)), Tables(store, broadcaster))
    {
      ghost var job, db := Running(r, open, firing, admitted, AtFinding(i)), Tables(store, broadcaster);
      var f := r.findings[i];
      var key := KeyOf(f);
      if key !in firing {
        firing := firing + {key};
        if !HasKey(open, key) && CooldownUntil(store.events, key) <= r.now
           && !(r.cap.Some? && admitted >= r.cap.value)
        {
          var delivered := 1;
          if Immediate(r, f) {
            delivered := broadcaster.SendAlert(key, r.now, f.point);
          } else {
            store.EnqueueDigest(f, r.now, Observed);
          }
          if delivered >= 1 {
            admitted := admitted + 1;
            var id := store.InsertEvent(r, f);
          }
        }
      }
      MovesFinish(job, db, Running(r, open, firing, admitted, AtFinding(i + 1)), Tables(store, broadcaster));
    }
  }

  /** The loop over the events that were open. */
  method SendRecoveries(r: Round, open: seq<Event>, firing: set<Key>, store: Store, broadcaster: Broadcaster,
                        ghost admitted: nat)
    requires broadcaster.out == r.out
    modifies store, broadcaster
    ensures Finish(Running(r, open, firing, admitted, AtOpen(0)), old(Tables(store, broadcaster)))
         == Tables(store, broadcaster)
  {
    hide Enqueue, ResolveById;
    ghost var start := Running(r, open, firing, admitted, AtOpen(0));
    for j := 0 to |open|
      invariant Finish(start, old(Tables(store, broadcaster)))
             == Finish(start.(pc := AtOpen(j)), Tables(store, broadcaster))
    {
      ghost var db := Tables(store, broadcaster);
      var e := open[j];
      if EventKey(e) !in firing && EventKey(e) !in r.hold {
        var delivered := 1;
        if e.notified {
          delivered := broadcaster.SendRecovery(EventKey(e), e.id, r.now);
        } else {
          store.EnqueueDigest(RecoveredFinding(e), r.now, Recovered);
        }
        if delivered >= 1 {
          store.ResolveEvent(e.id, r.now);
        }
      }
      MovesFinish(start.(pc := AtOpen(j)), db, start.(pc := AtOpen(j + 1)), Tables(store, broadcaster));
    }
    MovesFinish(start.(pc := AtOpen(|open|)), Tables(store, broadcaster), Idle, Tables(store, broadcaster));
  }

  method ApplyFindings(r: Round, store: Store, broadcaster: Broadcaster)
    requires broadcaster.out == r.out
    modifies store, broadcaster
    ensures Tables(store, broadcaster) == Finish(Start(r, old(store.events)), old(Tables(store, broadcaster)))
    ensures Numbered(old(store.events)) && OneOpen(old(store.events)) && InScope(r)
      ==> Tables(store, broadcaster) == TablesMeaning(r, old(Tables(store, broadcaster)))
          && Tells(r, old(Tables(store, broadcaster)), Tables(store, broadcaster))
  {
    ghost var db := Tables(store, broadcaster);
    var open := OpenByKey(store.events, r.scope);
    var firing, admitted := RaiseAlerts(r, open, store, broadcaster, Start(r, store.events));
    ghost var turned := Running(r, open, firing, admitted, AtFinding(|r.findings|));
    MovesFinish(turned, Tables(store, broadcaster), turned.(pc := AtOpen(0)), Tables(store, broadcaster));
    SendRecoveries(r, open, firing, store, broadcaster, admitted);
    if Numbered(db.events) && OneOpen(db.events) && InScope(r) {
      RoundMeaning(r, db);
      RoundTells(r, db);
    }
    hide Tells, TablesMeaning;
  }
}
