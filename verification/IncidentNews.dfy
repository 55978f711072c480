/** What a round must tell, and where: which findings are alerted at once, which wait for the digest, what the
    new rows say, and which recoveries are announced. Said of the tables before and after, without the
    functions that compute them. */
module IncidentNews {
  import opened Basics
  import opened Ordering
  import opened Incidents
  import opened IncidentSnapshot

  // ---- The policy ----

  /** The hard alarms: a service, a data source, a container or the memory is failing now. */
  predicate Outage(f: Finding) {
    || f.rule == ServiceDown || f.rule == MiddlewareDown || f.rule == DiskUsage || f.rule == LogErrorSpike
    || f.rule == ScanFailedPrometheus || f.rule == ScanFailedLoki || f.rule == ScanFailedDocker
    || f.rule == ContainerDown || f.rule == ContainerUnhealthy || f.rule == ContainerOom || f.rule == ContainerCrashloop
    || (f.rule == ContainerRestart && (f.subject == "host" || ("kind" in f.payload && f.payload["kind"] == "OOM")))
    || (f.rule == MemPressure && f.severity == "critical")
  }

  /** Told at once: always, unless news that is not urgent is deferred; then only outages. */
  predicate AtOnce(r: Round, f: Finding) { r.deferNonurgent ==> Outage(f) }

  // ---- News ----

  ghost predicate First(r: Round, i: nat)
    requires i < |r.findings|
  {
    forall j :: 0 <= j < i ==> KeyOf(r.findings[j]) != KeyOf(r.findings[i])
  }

  /** No event of the key is open, and none still cools down; a key without events has the cooldown 0. */
  ghost predicate Unheard(events: seq<Event>, key: Key, now: int) {
    && (forall k :: 0 <= k < |events| && EventKey(events[k]) == key ==> events[k].status != Open && events[k].cooldownUntil <= now)
    && (now >= 0 || exists k :: 0 <= k < |events| && EventKey(events[k]) == key)
  }

  function EarlierKeys(r: Round, i: nat): Event -> bool
    requires i <= |r.findings|
  {
    e => EventKey(e) in Firing(r, i)
  }

  /** Finding i is news: the first with its key, unheard of, and with fewer rows added for earlier findings
      than the cap. */
  ghost predicate News(r: Round, db: Db, t: Db, i: nat)
    requires i < |r.findings| && |db.events| <= |t.events|
  {
    && First(r, i)
    && Unheard(db.events, KeyOf(r.findings[i]), r.now)
    && (r.cap.Some? ==> CountIf(t.events[|db.events|..], EarlierKeys(r, i)) < r.cap.value)
  }

  function AlertOf(r: Round, f: Finding): Broadcast { Alert(KeyOf(f), r.now, f.point, r.out.alert(KeyOf(f))) }

  /** The row that a finding adds: open, or resolved at once for a point event; diagnosed only if it was
      alerted and asks for it; cooling down from now. */
  ghost predicate RowOf(r: Round, f: Finding, id: nat, e: Event) {
    && e.id == id && EventKey(e) == KeyOf(f) && e.ts == r.now && e.cooldownUntil == r.now + r.cooldown
    && e.severity == f.severity && e.detail == f.detail && e.payload == f.payload
    && (if f.point then e.status == Resolved && e.resolvedTs == Some(r.now) else e.status == Open && e.resolvedTs == None)
    && (e.notified <==> AtOnce(r, f))
    && e.diagnosis == if f.needsDiagnosis && e.notified then Pending else Skipped
  }

  /** An unsent digest row that says this, as of now. */
  predicate Says(d: DigestItem, f: Finding, now: int, state: DigestState) {
    && d.sentTs.None? && (d.rule, d.subject) == KeyOf(f) && d.state == state && d.lastTs == now
    && d.severity == f.severity && d.detail == f.detail && d.payload == f.payload
  }

  ghost predicate InDigest(digest: seq<DigestItem>, f: Finding, now: int, state: DigestState) {
    exists k :: 0 <= k < |digest| && Says(digest[k], f, now, state)
  }

  // ---- Recoveries ----

  /** Its rule was evaluated, it did not fire, and it is not held. */
  ghost predicate Over(r: Round, e: Event) {
    && e.status == Open && e.rule in r.scope && EventKey(e) !in r.hold
    && forall i :: 0 <= i < |r.findings| ==> KeyOf(r.findings[i]) != EventKey(e)
  }

  function RecoveryOf(r: Round, e: Event): Broadcast { Recovery(EventKey(e), e.id, r.now, r.out.recovery(EventKey(e))) }

  function Note(e: Event): Finding {
    Finding(e.rule, e.subject, e.severity, "recovered; first seen as: " + e.detail, e.payload, false, false)
  }

  // ---- What a round tells ----

  ghost predicate TellsAlerts(r: Round, db: Db, t: Db)
    requires |db.events| <= |t.events| && |db.log| <= |t.log|
  {
    && (forall i :: 0 <= i < |r.findings| && News(r, db, t, i) && AtOnce(r, r.findings[i]) ==>
         AlertOf(r, r.findings[i]) in t.log[|db.log|..])
    && (forall b :: b in t.log[|db.log|..] && b.Alert? ==>
         exists i :: 0 <= i < |r.findings| && News(r, db, t, i) && AtOnce(r, r.findings[i]) && b == AlertOf(r, r.findings[i]))
  }

  /** Finding i opens an event: it is news and, if it is told at once, somebody heard it. */
  ghost predicate Opens(r: Round, db: Db, t: Db, i: nat)
    requires i < |r.findings| && |db.events| <= |t.events|
  {
    News(r, db, t, i) && (AtOnce(r, r.findings[i]) ==> r.out.alert(KeyOf(r.findings[i])) >= 1)
  }

  /** This finding opens this row. */
  ghost predicate OpensRow(r: Round, db: Db, t: Db, i: nat, k: nat)
    requires i < |r.findings| && |db.events| <= k < |t.events|
  {
    Opens(r, db, t, i) && RowOf(r, r.findings[i], k + 1, t.events[k])
  }

  ghost predicate HasRow(r: Round, db: Db, t: Db, i: nat)
    requires i < |r.findings| && |db.events| <= |t.events|
  {
    exists k :: |db.events| <= k < |t.events| && OpensRow(r, db, t, i, k)
  }

  ghost predicate HasFinding(r: Round, db: Db, t: Db, k: nat)
    requires |db.events| <= k < |t.events|
  {
    exists i :: 0 <= i < |r.findings| && OpensRow(r, db, t, i, k)
  }

  ghost predicate TellsNewRows(r: Round, db: Db, t: Db)
    requires |db.events| <= |t.events|
  {
    && (forall i :: 0 <= i < |r.findings| && Opens(r, db, t, i) ==> HasRow(r, db, t, i))
    && (forall k :: |db.events| <= k < |t.events| ==> HasFinding(r, db, t, k))
  }

  ghost predicate TellsOldRows(r: Round, db: Db, t: Db)
    requires |db.events| <= |t.events|
  {
    forall k :: 0 <= k < |db.events| ==>
      var e := db.events[k];
      t.events[k] == if Over(r, e) && (e.notified ==> r.out.recovery(EventKey(e)) >= 1)
                     then e.(status := Resolved, resolvedTs := Some(r.now)) else e
  }

  ghost predicate TellsRecoveries(r: Round, db: Db, t: Db)
    requires |db.log| <= |t.log|
  {
    && (forall e :: e in db.events && Over(r, e) && e.notified ==> RecoveryOf(r, e) in t.log[|db.log|..])
    && (forall b :: b in t.log[|db.log|..] && b.Recovery? ==>
         exists e :: e in db.events && Over(r, e) && e.notified && b == RecoveryOf(r, e))
  }

  ghost predicate TellsDigest(r: Round, db: Db, t: Db)
    requires |db.events| <= |t.events|
  {
    && |db.digest| <= |t.digest|
    && (forall i :: 0 <= i < |r.findings| && News(r, db, t, i) && !AtOnce(r, r.findings[i]) ==>
         InDigest(t.digest, r.findings[i], r.now, Observed))
    && (forall e :: e in db.events && Over(r, e) && !e.notified ==> InDigest(t.digest, Note(e), r.now, Recovered))
    && (forall k :: 0 <= k < |t.digest| ==>
         || (k < |db.digest| && t.digest[k] == db.digest[k])
         || (exists i :: 0 <= i < |r.findings| && News(r, db, t, i) && !AtOnce(r, r.findings[i])
                         && Says(t.digest[k], r.findings[i], r.now, Observed))
         || (exists e :: e in db.events && Over(r, e) && !e.notified && Says(t.digest[k], Note(e), r.now, Recovered)))
  }

  /** Alerts go to exactly the news that is told at once, the digest gets exactly the rest; rows are added for
      exactly the news that was heard or deferred; what is over recovers, with a message exactly if it was
      announced. */
  ghost predicate Tells(r: Round, db: Db, t: Db) {
    && |db.events| <= |t.events| && db.log <= t.log
    && TellsAlerts(r, db, t) && TellsNewRows(r, db, t) && TellsOldRows(r, db, t) && TellsRecoveries(r, db, t)
    && TellsDigest(r, db, t)
  }

  // ---- The tables of a round tell it ----

  lemma ImmediateMeans(r: Round, f: Finding)
    ensures Immediate(r, f) <==> AtOnce(r, f)
  {}

  lemma {:induction false} CooldownMeans(events: seq<Event>, key: Key, now: int)
    ensures MaxCooldown(events, key).None? <==> forall k :: 0 <= k < |events| ==> EventKey(events[k]) != key
    ensures MaxCooldown(events, key).Some? ==>
      (MaxCooldown(events, key).value <= now <==>
        forall k :: 0 <= k < |events| && EventKey(events[k]) == key ==> events[k].cooldownUntil <= now)
  {
    if events != [] { CooldownMeans(events[..|events| - 1], key, now); }
  }

  lemma UnheardMeans(events: seq<Event>, key: Key, now: int)
    ensures Unheard(events, key, now) <==> !IsOpen(events, key) && CooldownUntil(events, key) <= now
  {
    CooldownMeans(events, key, now);
  }

  lemma AdmitsFirst(r: Round, events: seq<Event>, i: nat)
    requires i < |r.findings|
    ensures Admits(r, events, i) ==> Asks(r, events, i)
    ensures Asks(r, events, i) ==> KeyOf(r.findings[i]) !in Firing(r, i)
  {}

  /** The rows of the first i findings come first, and none of the others has one of their keys. */
  lemma {:induction false} RowsByFinding(r: Round, events: seq<Event>, i: nat, n: nat)
    requires i <= n <= |r.findings|
    ensures |NewRows(r, events, i)| == AdmittedBefore(r, events, i) <= |NewRows(r, events, n)|
    ensures NewRows(r, events, n)[..AdmittedBefore(r, events, i)] == NewRows(r, events, i)
    ensures forall k :: 0 <= k < AdmittedBefore(r, events, i) ==> EventKey(NewRows(r, events, n)[k]) in Firing(r, i)
    ensures forall k :: AdmittedBefore(r, events, i) <= k < |NewRows(r, events, n)| ==>
      EventKey(NewRows(r, events, n)[k]) !in Firing(r, i)
    decreases n
  {
    hide CooldownUntil, Immediate;
    if i < n {
      RowsByFinding(r, events, i, n - 1);
      var rest, rows, f := NewRows(r, events, n - 1), NewRows(r, events, n), r.findings[n - 1];
      assert Admits(r, events, n - 1) ==> rows == rest + [NewRow(r, f, |events| + |rest| + 1)];
      AdmitsFirst(r, events, n - 1);
      assert forall k :: k in Firing(r, i) ==> k in Firing(r, n - 1);
    } else if n > 0 {
      RowsByFinding(r, events, n - 1, n - 1);
      assert Firing(r, n) == Firing(r, n - 1) + {KeyOf(r.findings[n - 1])};
    }
  }

  lemma NewsMeans(r: Round, db: Db, t: Db, i: nat)
    requires i < |r.findings| && t.events == OldRows(r, db.events) + NewRows(r, db.events, |r.findings|)
    ensures News(r, db, t, i) <==> Asks(r, db.events, i)
  {
    var rows, key := NewRows(r, db.events, |r.findings|), KeyOf(r.findings[i]);
    assert t.events[|db.events|..] == rows;
    UnheardMeans(db.events, key, r.now);
    RowsByFinding(r, db.events, i, |r.findings|);
    CountBounds(rows, EarlierKeys(r, i), AdmittedBefore(r, db.events, i));
    hide Unheard, CooldownUntil, CountIf, NewRows, AdmittedBefore;
    assert First(r, i) <==> key !in Firing(r, i);
  }

  lemma {:induction false} AlertsMean(r: Round, events: seq<Event>, n: nat, b: Broadcast)
    requires n <= |r.findings|
    ensures b in AlertsSent(r, events, n) <==>
      exists i :: 0 <= i < n && Asks(r, events, i) && Immediate(r, r.findings[i]) && b == AlertOf(r, r.findings[i])
  {
    hide Asks, Immediate;
    if n > 0 { AlertsMean(r, events, n - 1, b); }
  }

  lemma {:induction false} RecoveriesMean(r: Round, open: seq<Event>, j: nat, b: Broadcast)
    requires j <= |open|
    ensures b in RecoveriesSent(r, open, j) <==>
      exists k :: 0 <= k < j && Quiet(r, open[k]) && open[k].notified && b == RecoveryOf(r, open[k])
  {
    hide Quiet;
    if j > 0 { RecoveriesMean(r, open, j - 1, b); }
  }

  lemma OverMeans(r: Round, e: Event)
    ensures Over(r, e) <==> Quiet(r, e)
  {}

  /** The row of an admitted finding. */
  lemma RowAt(r: Round, events: seq<Event>, i: nat, n: nat) returns (k: nat)
    requires i < n <= |r.findings| && Admits(r, events, i)
    ensures k < |NewRows(r, events, n)| && NewRows(r, events, n)[k] == NewRow(r, r.findings[i], |events| + k + 1)
  {
    k := AdmittedBefore(r, events, i);
    RowsByFinding(r, events, i, i);
    RowsByFinding(r, events, i + 1, n);
    var upTo := NewRows(r, events, i + 1);
    assert upTo == NewRows(r, events, i) + [NewRow(r, r.findings[i], |events| + k + 1)];
    hide NewRows, Admits, NewRow;
    assert NewRows(r, events, n)[..k + 1][k] == NewRows(r, events, n)[k];
  }

  /** The admitted finding of a row. */
  lemma {:induction false} RowFrom(r: Round, events: seq<Event>, n: nat, k: nat) returns (i: nat)
    requires n <= |r.findings| && k < |NewRows(r, events, n)|
    ensures i < n && Admits(r, events, i) && NewRows(r, events, n)[k] == NewRow(r, r.findings[i], |events| + k + 1)
  {
    hide NewRow, Asks, Immediate;
    if k < |NewRows(r, events, n - 1)| { i := RowFrom(r, events, n - 1, k); } else { i := n - 1; }
  }

  lemma RowMeans(r: Round, f: Finding, id: nat)
    ensures RowOf(r, f, id, NewRow(r, f, id))
  {}

  // ---- The digest ----

  /** Enqueueing says what the finding says, in the unsent row of its key or a new one, and leaves the rest. */
  lemma EnqueueSays(digest: seq<DigestItem>, f: Finding, now: int, state: DigestState) returns (k: nat)
    ensures var digest' := Enqueue(digest, f, now, state);
            && k < |digest'| && Says(digest'[k], f, now, state) && |digest| <= |digest'| <= |digest| + 1
            && (k < |digest| ==> (digest[k].rule, digest[k].subject) == KeyOf(f) && |digest'| == |digest|)
            && (k >= |digest| ==> k == |digest| && |digest'| == |digest| + 1)
            && (forall j :: 0 <= j < |digest| && j != k ==> digest'[j] == digest[j])
  {
    var i := UnsentIndex(digest, KeyOf(f));
    k := if i >= 0 then i else |digest|;
  }

  lemma EnqueueKeeps(digest: seq<DigestItem>, f: Finding, now: int, state: DigestState, g: Finding, at: int, other: DigestState)
    requires InDigest(digest, g, at, other) && KeyOf(g) != KeyOf(f)
    ensures InDigest(Enqueue(digest, f, now, state), g, at, other)
  {
    var k := EnqueueSays(digest, f, now, state);
    var j :| 0 <= j < |digest| && Says(digest[j], g, at, other);
    assert Says(Enqueue(digest, f, now, state)[j], g, at, other);
  }

  /** One of the first n findings is deferred news, and this row says so. */
  ghost predicate Deferred(r: Round, events: seq<Event>, n: nat, d: DigestItem)
    requires n <= |r.findings|
  {
    exists i :: 0 <= i < n && Asks(r, events, i) && !Immediate(r, r.findings[i]) && Says(d, r.findings[i], r.now, Observed)
  }

  lemma {:induction false} DeferredMean(r: Round, events: seq<Event>, digest: seq<DigestItem>, n: nat)
    requires n <= |r.findings|
    ensures var digest' := NewsDeferred(r, events, digest, n);
            && |digest| <= |digest'|
            && (forall i :: 0 <= i < n && Asks(r, events, i) && !Immediate(r, r.findings[i]) ==>
                 InDigest(digest', r.findings[i], r.now, Observed))
            && (forall k :: 0 <= k < |digest'| ==> (k < |digest| && digest'[k] == digest[k]) || Deferred(r, events, n, digest'[k]))
  {
    if n > 0 {
      DeferredMean(r, events, digest, n - 1);
      var before, after, f := NewsDeferred(r, events, digest, n - 1), NewsDeferred(r, events, digest, n), r.findings[n - 1];
      assert Asks(r, events, n - 1) ==> KeyOf(f) !in Firing(r, n - 1);
      hide Asks, Immediate, Enqueue, Says;
      if Asks(r, events, n - 1) && !Immediate(r, f) {
        var at := EnqueueSays(before, f, r.now, Observed);
        forall i | 0 <= i < n && Asks(r, events, i) && !Immediate(r, r.findings[i])
          ensures InDigest(after, r.findings[i], r.now, Observed)
        {
          if i < n - 1 { EnqueueKeeps(before, f, r.now, Observed, r.findings[i], r.now, Observed); }
        }
        assert Deferred(r, events, n, after[at]);
        forall k | 0 <= k < |after| && k != at
          ensures (k < |digest| && after[k] == digest[k]) || Deferred(r, events, n, after[k])
        {
          var d := after[k];
          assert d == before[k];
        }
      }
    }
  }

  /** One of the first j open events recovered unannounced, and this row says so. */
  ghost predicate Noted(r: Round, open: seq<Event>, j: nat, d: DigestItem)
    requires j <= |open|
  {
    exists k :: 0 <= k < j && Quiet(r, open[k]) && !open[k].notified && Says(d, Note(open[k]), r.now, Recovered)
  }

  /** Noting one more recovery keeps what the digest says of the others and of the findings. */
  lemma NoteKeeps(r: Round, open: seq<Event>, digest: seq<DigestItem>, j: nat) returns (at: nat)
    requires j < |open| && Apart(open, SameKey) && Quiet(r, open[j])
    ensures var after := Enqueue(digest, Note(open[j]), r.now, Recovered);
            && at < |after| && Says(after[at], Note(open[j]), r.now, Recovered) && InDigest(after, Note(open[j]), r.now, Recovered)
            && |digest| <= |after| && (forall k :: 0 <= k < |after| && k != at ==> k < |digest| && after[k] == digest[k])
            && (forall k :: 0 <= k < j && InDigest(digest, Note(open[k]), r.now, Recovered) ==>
                 InDigest(after, Note(open[k]), r.now, Recovered))
            && (forall i :: 0 <= i < |r.findings| && InDigest(digest, r.findings[i], r.now, Observed) ==>
                 InDigest(after, r.findings[i], r.now, Observed))
  {
    var f := Note(open[j]);
    assert forall i :: 0 <= i < |r.findings| ==> KeyOf(r.findings[i]) != KeyOf(f);
    assert forall k :: 0 <= k < j ==> KeyOf(Note(open[k])) != KeyOf(f);
    hide Quiet, Enqueue, Says, Note, Apart;
    at := EnqueueSays(digest, f, r.now, Recovered);
    forall k | 0 <= k < j && InDigest(digest, Note(open[k]), r.now, Recovered)
      ensures InDigest(Enqueue(digest, f, r.now, Recovered), Note(open[k]), r.now, Recovered)
    {
      EnqueueKeeps(digest, f, r.now, Recovered, Note(open[k]), r.now, Recovered);
    }
    forall i | 0 <= i < |r.findings| && InDigest(digest, r.findings[i], r.now, Observed)
      ensures InDigest(Enqueue(digest, f, r.now, Recovered), r.findings[i], r.now, Observed)
    {
      EnqueueKeeps(digest, f, r.now, Recovered, r.findings[i], r.now, Observed);
    }
  }

  lemma NoteOf(e: Event)
    ensures RecoveredFinding(e) == Note(e)
  {}

  lemma {:induction false} NotedMean(r: Round, open: seq<Event>, digest: seq<DigestItem>, j: nat)
    requires j <= |open| && Apart(open, SameKey)
    ensures var digest' := RecoveriesDeferred(r, open, digest, j);
            && |digest| <= |digest'|
            && (forall k :: 0 <= k < j && Quiet(r, open[k]) && !open[k].notified ==>
                 InDigest(digest', Note(open[k]), r.now, Recovered))
            && (forall i :: 0 <= i < |r.findings| && InDigest(digest, r.findings[i], r.now, Observed) ==>
                 InDigest(digest', r.findings[i], r.now, Observed))
            && (forall k :: 0 <= k < |digest'| ==> (k < |digest| && digest'[k] == digest[k]) || Noted(r, open, j, digest'[k]))
  {
    hide Enqueue, Says, InDigest, Quiet, RecoveredFinding, Note;
    if j > 0 {
      NotedMean(r, open, digest, j - 1);
      var before, after, e := RecoveriesDeferred(r, open, digest, j - 1), RecoveriesDeferred(r, open, digest, j), open[j - 1];
      NoteOf(e);
      if Quiet(r, e) && !e.notified {
        assert after == Enqueue(before, Note(e), r.now, Recovered);
        var at := NoteKeeps(r, open, before, j - 1);
        assert Noted(r, open, j, after[at]);
        forall k | 0 <= k < |after| && k != at
          ensures (k < |digest| && after[k] == digest[k]) || Noted(r, open, j, after[k])
        {
          var d := after[k];
          assert d == before[k];
        }
      }
    }
  }

  // ---- Put together ----

  /** News told at once is what the loop alerts. */
  lemma AlertedMeans(r: Round, db: Db, t: Db)
    requires t.events == OldRows(r, db.events) + NewRows(r, db.events, |r.findings|)
    ensures forall i :: 0 <= i < |r.findings| ==>
      (News(r, db, t, i) && AtOnce(r, r.findings[i]) <==> Asks(r, db.events, i) && Immediate(r, r.findings[i]))
    ensures forall i :: 0 <= i < |r.findings| ==>
      (News(r, db, t, i) && !AtOnce(r, r.findings[i]) <==> Asks(r, db.events, i) && !Immediate(r, r.findings[i]))
  {
    hide OldRows, NewRows;
    forall i | 0 <= i < |r.findings|
      ensures News(r, db, t, i) <==> Asks(r, db.events, i)
      ensures AtOnce(r, r.findings[i]) <==> Immediate(r, r.findings[i])
    {
      NewsMeans(r, db, t, i);
      ImmediateMeans(r, r.findings[i]);
    }
    hide News, Asks, AtOnce, Immediate;
  }

  /** The events that are over are those of the snapshot that look recovered. */
  lemma OverOpen(r: Round, events: seq<Event>)
    requires OneOpen(events)
    ensures forall e :: e in events && Over(r, e) <==> e in OpenByKey(events, r.scope) && Quiet(r, e)
  {
    forall e ensures e in events && Over(r, e) <==> e in OpenByKey(events, r.scope) && Quiet(r, e) {
      OverMeans(r, e);
      OpenByKeyMember(events, r.scope, e);
    }
  }

  lemma TellsOfAlerts(r: Round, db: Db, t: Db)
    requires t.events == OldRows(r, db.events) + NewRows(r, db.events, |r.findings|)
    requires var open := OpenByKey(db.events, r.scope);
             t.log == db.log + AlertsSent(r, db.events, |r.findings|) + RecoveriesSent(r, open, |open|)
    ensures TellsAlerts(r, db, t)
  {
    var n, open := |r.findings|, OpenByKey(db.events, r.scope);
    var alerts, recoveries := AlertsSent(r, db.events, n), RecoveriesSent(r, open, |open|);
    assert t.log[|db.log|..] == alerts + recoveries;
    AlertedMeans(r, db, t);
    hide News, Asks, Immediate, AtOnce, AlertsSent, RecoveriesSent, OpenByKey, OldRows, NewRows;
    forall b ensures b in t.log[|db.log|..] && b.Alert? <==> b in alerts {
      AlertsMean(r, db.events, n, b);
      RecoveriesMean(r, open, |open|, b);
    }
    forall b { AlertsMean(r, db.events, n, b); }
  }

  lemma TellsOfRecoveries(r: Round, db: Db, t: Db)
    requires OneOpen(db.events)
    requires var open := OpenByKey(db.events, r.scope);
             t.log == db.log + AlertsSent(r, db.events, |r.findings|) + RecoveriesSent(r, open, |open|)
    ensures TellsRecoveries(r, db, t)
  {
    var n, open := |r.findings|, OpenByKey(db.events, r.scope);
    var alerts, recoveries := AlertsSent(r, db.events, n), RecoveriesSent(r, open, |open|);
    assert t.log[|db.log|..] == alerts + recoveries;
    OverOpen(r, db.events);
    hide Asks, Immediate, AlertsSent, RecoveriesSent, OpenByKey, Over, Quiet;
    forall b ensures b in t.log[|db.log|..] && b.Recovery? <==> b in recoveries {
      AlertsMean(r, db.events, n, b);
      RecoveriesMean(r, open, |open|, b);
    }
    forall b { RecoveriesMean(r, open, |open|, b); }
  }

  lemma OpensMeans(r: Round, db: Db, t: Db, i: nat)
    requires i < |r.findings| && t.events == OldRows(r, db.events) + NewRows(r, db.events, |r.findings|)
    ensures Opens(r, db, t, i) <==> Admits(r, db.events, i)
  {
    NewsMeans(r, db, t, i);
    ImmediateMeans(r, r.findings[i]);
    hide News, Asks, Immediate, AtOnce;
  }

  lemma OldRowMeans(r: Round, events: seq<Event>, k: nat)
    requires k < |events|
    ensures OldRows(r, events)[k] ==
      if Over(r, events[k]) && (events[k].notified ==> r.out.recovery(EventKey(events[k])) >= 1)
      then events[k].(status := Resolved, resolvedTs := Some(r.now)) else events[k]
  {
    OverMeans(r, events[k]);
    hide Over, Quiet;
  }

  lemma TellsOfOldRows(r: Round, db: Db, t: Db)
    requires t.events == OldRows(r, db.events) + NewRows(r, db.events, |r.findings|)
    ensures TellsOldRows(r, db, t)
  {
    hide OldRows, NewRows, Over;
    forall k | 0 <= k < |db.events|
      ensures var e := db.events[k];
              t.events[k] == if Over(r, e) && (e.notified ==> r.out.recovery(EventKey(e)) >= 1)
                             then e.(status := Resolved, resolvedTs := Some(r.now)) else e
    {
      OldRowMeans(r, db.events, k);
    }
  }

  /** Each opening finding has its row. */
  lemma OpeningHasRow(r: Round, db: Db, t: Db, i: nat) returns (k: nat)
    requires t.events == OldRows(r, db.events) + NewRows(r, db.events, |r.findings|)
    requires i < |r.findings| && Opens(r, db, t, i)
    ensures |db.events| <= k < |t.events| && OpensRow(r, db, t, i, k)
  {
    OpensMeans(r, db, t, i);
    hide OldRows, NewRows, Admits, Opens, NewRow, RowOf;
    k := RowAt(r, db.events, i, |r.findings|);
    RowMeans(r, r.findings[i], |db.events| + k + 1);
    k := |db.events| + k;
  }

  /** Each new row has its opening finding. */
  lemma RowHasOpening(r: Round, db: Db, t: Db, k: nat) returns (i: nat)
    requires t.events == OldRows(r, db.events) + NewRows(r, db.events, |r.findings|)
    requires |db.events| <= k < |t.events|
    ensures i < |r.findings| && OpensRow(r, db, t, i, k)
  {
    hide OldRows, NewRows, Admits, Opens, NewRow, RowOf;
    i := RowFrom(r, db.events, |r.findings|, k - |db.events|);
    OpensMeans(r, db, t, i);
    RowMeans(r, r.findings[i], k + 1);
  }

  lemma TellsOfNewRows(r: Round, db: Db, t: Db)
    requires t.events == OldRows(r, db.events) + NewRows(r, db.events, |r.findings|)
    ensures TellsNewRows(r, db, t)
  {
    hide OldRows, NewRows, OpensRow, Opens;
    forall i | 0 <= i < |r.findings| && Opens(r, db, t, i) ensures HasRow(r, db, t, i) {
      var k := OpeningHasRow(r, db, t, i);
    }
    forall k | |db.events| <= k < |t.events| ensures HasFinding(r, db, t, k) {
      var i := RowHasOpening(r, db, t, k);
    }
  }

  lemma TellsOfDigest(r: Round, db: Db, t: Db)
    requires OneOpen(db.events) && t.events == OldRows(r, db.events) + NewRows(r, db.events, |r.findings|)
    requires var open := OpenByKey(db.events, r.scope);
             t.digest == RecoveriesDeferred(r, open, NewsDeferred(r, db.events, db.digest, |r.findings|), |open|)
    ensures TellsDigest(r, db, t)
  {
    var n, open := |r.findings|, OpenByKey(db.events, r.scope);
    var news := NewsDeferred(r, db.events, db.digest, n);
    AlertedMeans(r, db, t);
    OverOpen(r, db.events);
    OpenApart(db.events, r.scope);
    DeferredMean(r, db.events, db.digest, n);
    NotedMean(r, open, news, |open|);
    hide News, Asks, Immediate, AtOnce, OpenByKey, Over, Quiet, Says, InDigest, NewsDeferred, RecoveriesDeferred, Apart;
    hide OldRows, NewRows, OneOpen;
    forall e | e in db.events && Over(r, e) && !e.notified ensures InDigest(t.digest, Note(e), r.now, Recovered) {
      var k :| 0 <= k < |open| && open[k] == e;
    }
    forall k | 0 <= k < |t.digest|
      ensures || (k < |db.digest| && t.digest[k] == db.digest[k])
              || (exists i :: 0 <= i < n && News(r, db, t, i) && !AtOnce(r, r.findings[i])
                              && Says(t.digest[k], r.findings[i], r.now, Observed))
              || (exists e :: e in db.events && Over(r, e) && !e.notified && Says(t.digest[k], Note(e), r.now, Recovered))
    {
      if Noted(r, open, |open|, t.digest[k]) { NotedOver(r, db.events, t.digest[k]); }
    }
  }

  lemma NotedOver(r: Round, events: seq<Event>, d: DigestItem)
    requires OneOpen(events) && var open := OpenByKey(events, r.scope); Noted(r, open, |open|, d)
    ensures exists e :: e in events && Over(r, e) && !e.notified && Says(d, Note(e), r.now, Recovered)
  {
    OverOpen(r, events);
    hide OpenByKey, Over, Quiet, Says;
    var open := OpenByKey(events, r.scope);
    var j :| 0 <= j < |open| && Quiet(r, open[j]) && !open[j].notified && Says(d, Note(open[j]), r.now, Recovered);
    assert open[j] in open;
  }

  /** So the meaning of a round tells what must be told, and nothing else. */
  lemma RoundTells(r: Round, db: Db)
    requires OneOpen(db.events)
    ensures Tells(r, db, TablesMeaning(r, db))
  {
    var t := TablesMeaning(r, db);
    hide OldRows, NewRows, AlertsSent, RecoveriesSent, NewsDeferred, RecoveriesDeferred, OpenByKey;
    hide TellsAlerts, TellsNewRows, TellsOldRows, TellsRecoveries, TellsDigest;
    TellsOfAlerts(r, db, t);
    TellsOfNewRows(r, db, t);
    TellsOfOldRows(r, db, t);
    TellsOfRecoveries(r, db, t);
    TellsOfDigest(r, db, t);
    assert |db.events| <= |t.events|;
    assert db.log <= t.log;
    assert TellsAlerts(r, db, t);
  }
}
