/** The digest table between its writers and its two senders. Observations of the same problem merge
    into one unsent row; the daily report and the evening digest read the unsent rows, send them, and
    mark them sent when the send returns. Observations keep arriving while a send is awaited. */
module DigestQueue {
  import opened Basics
  import opened Ordering
  import opened Runs
  import opened Incidents

  datatype Sender = DailyReport | EveningDigest

  datatype Observation = Observation(finding: Finding, at: int, state: DigestState)

  /** The table, what each sender has read and is sending, every item a delivered message told, and the
      number of observations so far. */
  datatype Queue = Queue(rows: seq<DigestItem>, sending: map<Sender, seq<DigestItem>>, told: seq<DigestItem>, observed: nat)

  datatype Action =
    | Observe(o: Observation)
    | Read(sender: Sender)
    | Finish(sender: Sender, delivered: nat, at: int)

  const LIMIT := 200

  function ItemKey(x: DigestItem): Key { (x.rule, x.subject) }

  function SeverityRank(x: DigestItem): nat { if x.severity == "critical" then 0 else 1 }

  predicate Before(a: DigestItem, b: DigestItem) {
    SeverityRank(a) < SeverityRank(b) || (SeverityRank(a) == SeverityRank(b) && a.lastTs >= b.lastTs)
  }

  function Unsent(rows: seq<DigestItem>): seq<DigestItem> {
    if rows == [] then []
    else
      var n := |rows| - 1;
      Unsent(rows[..n]) + if rows[n].sentTs.None? then [rows[n]] else []
  }

  /** `get_pending_digest_items`. */
  function Pending(rows: seq<DigestItem>): seq<DigestItem> {
    var all := Sort(Unsent(rows), Before);
    if |all| <= LIMIT then all else all[..LIMIT]
  }

  predicate Names(items: seq<DigestItem>, id: nat) {
    exists k :: 0 <= k < |items| && items[k].id == id
  }

  /** `mark_digest_items_sent`. */
  function MarkSent(rows: seq<DigestItem>, items: seq<DigestItem>, at: int): (r: seq<DigestItem>)
    ensures |r| == |rows|
  {
    seq(|rows|, i requires 0 <= i < |rows| =>
      if Names(items, rows[i].id) then rows[i].(sentTs := Some(at)) else rows[i])
  }

  function Merge(rows: seq<DigestItem>, o: Observation): seq<DigestItem> { Enqueue(rows, o.finding, o.at, o.state) }

  function Act(q: Queue, a: Action): Queue {
    match a
    case Observe(o) => q.(rows := Merge(q.rows, o), observed := q.observed + 1)
    case Read(sender) =>
      if sender in q.sending || (sender == EveningDigest && Pending(q.rows) == []) then q
      else q.(sending := q.sending[sender := Pending(q.rows)])
    case Finish(sender, delivered, at) =>
      if sender !in q.sending then q
      else
        var items := q.sending[sender];
        var q' := q.(sending := q.sending - {sender});
        if delivered < 1 then q' else q'.(rows := MarkSent(q.rows, items, at), told := q.told + items)
  }

  function Run(q: Queue, trace: seq<Action>): Queue {
    if trace == [] then q else Act(Run(q, trace[..|trace| - 1]), trace[|trace| - 1])
  }

  // ---- Invariant ----

  ghost predicate NumberedItems(rows: seq<DigestItem>) {
    forall i :: 0 <= i < |rows| ==> rows[i].id == i + 1
  }

  /** At most one unsent row for a (rule, subject). */
  ghost predicate OneUnsent(rows: seq<DigestItem>) {
    forall i, j :: 0 <= i < j < |rows| && rows[i].sentTs.None? && rows[j].sentTs.None? ==> ItemKey(rows[i]) != ItemKey(rows[j])
  }

  function Total(rows: seq<DigestItem>): nat {
    if rows == [] then 0 else Total(rows[..|rows| - 1]) + rows[|rows| - 1].occurrences
  }

  /** What was read is a past state of a row that is still there. */
  ghost predicate ReadFrom(rows: seq<DigestItem>, x: DigestItem) {
    && 1 <= x.id <= |rows|
    && ItemKey(rows[x.id - 1]) == ItemKey(x)
    && rows[x.id - 1].occurrences >= x.occurrences
  }

  ghost predicate AllFrom(rows: seq<DigestItem>, items: seq<DigestItem>) {
    forall k :: 0 <= k < |items| ==> ReadFrom(rows, items[k])
  }

  ghost predicate Inv(q: Queue) {
    && NumberedItems(q.rows)
    && OneUnsent(q.rows)
    && Total(q.rows) == q.observed
    && (forall sender :: sender in q.sending ==> AllFrom(q.rows, q.sending[sender]))
    && AllFrom(q.rows, q.told)
    && (forall i :: 0 <= i < |q.rows| && q.rows[i].sentTs.Some? ==> Names(q.told, i + 1))
  }

  // ---- Merging ----

  lemma {:induction false} TotalUpdate(rows: seq<DigestItem>, i: nat, x: DigestItem)
    requires i < |rows|
    ensures Total(rows[i := x]) == Total(rows) - rows[i].occurrences + x.occurrences
  {
    var n := |rows| - 1;
    if i < n {
      assert rows[i := x][..n] == rows[..n][i := x];
      TotalUpdate(rows[..n], i, x);
    } else {
      assert rows[i := x][..n] == rows[..n];
    }
  }

  lemma TotalAppend(rows: seq<DigestItem>, x: DigestItem)
    ensures Total(rows + [x]) == Total(rows) + x.occurrences
  {
    assert (rows + [x])[..|rows|] == rows;
  }

  /** The row shows this observation as the last one. */
  predicate Shows(x: DigestItem, o: Observation) {
    && x.lastTs == o.at && x.state == o.state && x.severity == o.finding.severity
    && x.detail == o.finding.detail && x.payload == o.finding.payload
  }

  /** An observation counts once. It goes into the unsent row of its key or, if there is none, into a
      new one, which then shows it; no other row changes. */
  lemma MergeRows(rows: seq<DigestItem>, o: Observation)
    requires NumberedItems(rows) && OneUnsent(rows)
    ensures var rows' := Merge(rows, o);
            && NumberedItems(rows') && OneUnsent(rows') && |rows'| >= |rows|
            && Total(rows') == Total(rows) + 1
            && (forall i :: |rows| <= i < |rows'| ==> rows'[i].sentTs.None?)
            && (forall i :: 0 <= i < |rows| ==>
                 && ItemKey(rows'[i]) == ItemKey(rows[i]) && rows'[i].sentTs == rows[i].sentTs
                 && (if rows[i].sentTs.None? && ItemKey(rows[i]) == KeyOf(o.finding)
                     then && rows'[i].occurrences == rows[i].occurrences + 1 && rows'[i].firstTs == rows[i].firstTs
                          && Shows(rows'[i], o)
                     else rows'[i] == rows[i]))
            && (if exists i :: 0 <= i < |rows| && rows[i].sentTs.None? && ItemKey(rows[i]) == KeyOf(o.finding)
                then |rows'| == |rows|
                else && |rows'| == |rows| + 1 && ItemKey(rows'[|rows|]) == KeyOf(o.finding)
                     && rows'[|rows|].occurrences == 1 && rows'[|rows|].firstTs == o.at && Shows(rows'[|rows|], o))
  {
    hide Total;
    var k := UnsentIndex(rows, KeyOf(o.finding));
    if k >= 0 { TotalUpdate(rows, k, Merge(rows, o)[k]); } else { TotalAppend(rows, Merge(rows, o)[|rows|]); }
  }

  // ---- Reading and marking ----

  lemma {:induction false} UnsentMember(rows: seq<DigestItem>, x: DigestItem)
    ensures x in Unsent(rows) <==> x in rows && x.sentTs.None?
  {
    if rows != [] { UnsentMember(rows[..|rows| - 1], x); }
  }

  lemma PendingMember(rows: seq<DigestItem>, x: DigestItem)
    ensures x in Pending(rows) ==> x in rows && x.sentTs.None?
    ensures |Unsent(rows)| <= 200 ==> (x in Pending(rows) <==> x in rows && x.sentTs.None?)
  {
    SortMember(Unsent(rows), Before, x);
    UnsentMember(rows, x);
    var all := Sort(Unsent(rows), Before);
    if x in Pending(rows) { assert x in all; }
    SortMultiset(Unsent(rows), Before);
    assert |all| == |Unsent(rows)|;
  }

  lemma {:induction false} TotalMarked(rows: seq<DigestItem>, items: seq<DigestItem>, at: int)
    ensures Total(MarkSent(rows, items, at)) == Total(rows)
  {
    if rows != [] {
      var n := |rows| - 1;
      TotalMarked(rows[..n], items, at);
      assert MarkSent(rows, items, at)[..n] == MarkSent(rows[..n], items, at);
    }
  }

  lemma NamesConcat(a: seq<DigestItem>, b: seq<DigestItem>, id: nat)
    ensures Names(a + b, id) <==> Names(a, id) || Names(b, id)
  {
    if k :| 0 <= k < |a| && a[k].id == id { assert (a + b)[k] == a[k]; }
    if k :| 0 <= k < |b| && b[k].id == id { assert (a + b)[|a| + k] == b[k]; }
  }

  lemma ReadKeeps(q: Queue, sender: Sender)
    requires Inv(q)
    ensures Inv(Act(q, Read(sender)))
  {
    var items := Pending(q.rows);
    forall k | 0 <= k < |items| ensures ReadFrom(q.rows, items[k]) {
      PendingMember(q.rows, items[k]);
      var i :| 0 <= i < |q.rows| && q.rows[i] == items[k];
    }
    hide Pending, ReadFrom, Names, Total;
  }

  lemma FinishKeeps(q: Queue, sender: Sender, delivered: nat, at: int)
    requires Inv(q)
    ensures Inv(Act(q, Finish(sender, delivered, at)))
  {
    hide Total, Pending, Enqueue, Unsent, Merge;
    if sender in q.sending && delivered >= 1 {
      var items := q.sending[sender];
      TotalMarked(q.rows, items, at);
      forall id ensures Names(q.told + items, id) <==> Names(q.told, id) || Names(items, id) {
        NamesConcat(q.told, items, id);
      }
    }
  }

  lemma ActKeeps(q: Queue, a: Action)
    requires Inv(q)
    ensures Inv(Act(q, a))
  {
    match a
    case Observe(o) => MergeRows(q.rows, o);
    case Read(sender) => ReadKeeps(q, sender);
    case Finish(sender, delivered, at) => FinishKeeps(q, sender, delivered, at);
  }

  /** Over every run, a (rule, subject) has at most one unsent row, no observation is lost or counted
      twice, and a row is marked sent only if a delivered message told it. */
  lemma {:induction false} QueueSafe(q: Queue, trace: seq<Action>)
    requires Inv(q)
    ensures Inv(Run(q, trace))
  {
    if trace != [] {
      QueueSafe(q, trace[..|trace| - 1]);
      ActKeeps(Run(q, trace[..|trace| - 1]), trace[|trace| - 1]);
    }
  }

  const START := Queue([], map[], [], 0)

  /** So every observation since the empty table is in exactly one row; that row is marked only if it was
      told, and no message told more of it than it holds. */
  lemma NothingForgotten(trace: seq<Action>, i: nat)
    requires i < |Run(START, trace).rows|
    ensures var q := Run(START, trace);
            && Total(q.rows) == q.observed
            && (q.rows[i].sentTs.Some? ==>
                 exists k :: 0 <= k < |q.told| && q.told[k].id == q.rows[i].id && ItemKey(q.told[k]) == ItemKey(q.rows[i]))
            && (forall k :: 0 <= k < |q.told| && q.told[k].id == q.rows[i].id ==> q.told[k].occurrences <= q.rows[i].occurrences)
  {
    QueueSafe(START, trace);
    hide Run;
    ToldRow(Run(START, trace), i);
    hide Inv, Total;
  }

  lemma ToldRow(q: Queue, i: nat)
    requires Inv(q) && i < |q.rows|
    ensures q.rows[i].id == i + 1 && Total(q.rows) == q.observed
    ensures q.rows[i].sentTs.Some? ==> Names(q.told, i + 1)
    ensures forall k :: 0 <= k < |q.told| && q.told[k].id == i + 1 ==>
      ItemKey(q.told[k]) == ItemKey(q.rows[i]) && q.told[k].occurrences <= q.rows[i].occurrences
  {
    hide Total, OneUnsent;
    forall k | 0 <= k < |q.told| && q.told[k].id == i + 1
      ensures ItemKey(q.told[k]) == ItemKey(q.rows[i]) && q.told[k].occurrences <= q.rows[i].occurrences
    {
      assert ReadFrom(q.rows, q.told[k]);
    }
  }

  // ---- Which rows are read next ----

  /** y stands before x in the queue: it is critical and x is not, or both are or neither is and y is more
      recent, or as recent and older in the table. */
  predicate Ahead(y: DigestItem, x: DigestItem) {
    var worse, better := y.severity == "critical", x.severity == "critical";
    (worse && !better) || (worse == better && (y.lastTs > x.lastTs || (y.lastTs == x.lastTs && y.id < x.id)))
  }

  function AheadOf(x: DigestItem): DigestItem -> bool { y => Ahead(y, x) }

  /** How many unsent rows stand before x. */
  function Place(rows: seq<DigestItem>, x: DigestItem): nat { CountIf(Unsent(rows), AheadOf(x)) }

  ghost predicate Rising(items: seq<DigestItem>) {
    forall i, j :: 0 <= i < j < |items| ==> items[i].id < items[j].id
  }

  predicate SameItem(a: DigestItem, b: DigestItem) { a.id == b.id }

  lemma {:induction false} UnsentRises(rows: seq<DigestItem>)
    requires NumberedItems(rows)
    ensures Rising(Unsent(rows))
  {
    if rows != [] {
      var n := |rows| - 1;
      UnsentRises(rows[..n]);
      var rest := Unsent(rows[..n]);
      forall k | 0 <= k < |rest| ensures rest[k].id < rows[n].id { UnsentMember(rows[..n], rest[k]); }
    }
  }

  lemma BeforeTotal()
    ensures TotalPreorder(Before)
  {}

  /** In a table in order of ids, those that stand before a row are those that precede it. */
  lemma PlaceMeans(items: seq<DigestItem>, i: nat)
    requires Rising(items) && i < |items|
    ensures CountIf(items, AheadOf(items[i])) == Preceding(items, i, Before)
  {
    var x := items[i];
    hide Before, Ahead;
    forall k | 0 <= k < i ensures AheadOf(x)(items[k]) == Before(items[k], x) { CasesAgree(items[k], x); }
    forall k | i < k < |items| ensures AheadOf(x)(items[k]) == !Before(x, items[k]) { CasesAgree(items[k], x); }
    CasesAgree(x, x);
    PrecedingMeans(items, i, Before, AheadOf(x));
  }

  lemma CasesAgree(y: DigestItem, x: DigestItem)
    ensures Ahead(y, x) <==> !Before(x, y) || (Before(y, x) && y.id < x.id)
  {}

  /** The next sender reads a row exactly if it is unsent and fewer than 200 unsent rows stand before it. */
  lemma ReadNextIff(rows: seq<DigestItem>, i: nat)
    requires NumberedItems(rows) && i < |rows|
    ensures rows[i] in Pending(rows) <==> rows[i].sentTs.None? && Place(rows, rows[i]) < 200
  {
    var x, unsent, all := rows[i], Unsent(rows), Sort(Unsent(rows), Before);
    UnsentMember(rows, x);
    SortMember(unsent, Before, x);
    UnsentRises(rows);
    SortApart(unsent, Before, SameItem);
    hide Sort, Unsent, Before, Ahead, NumberedItems, Preceding;
    assert x in Pending(rows) ==> x in all;
    if x in unsent {
      var k :| 0 <= k < |unsent| && unsent[k] == x;
      PlaceMeans(unsent, k);
      BeforeTotal();
      SortPosition(unsent, k, Before);
    }
  }

  /** A sender that reads sends what it read, unless it is the evening digest and nothing is unsent. */
  lemma SendsIff(q: Queue, sender: Sender)
    requires sender !in q.sending
    ensures var q' := Act(q, Read(sender));
            && (sender in q'.sending <==> sender == DailyReport || exists i :: 0 <= i < |q.rows| && q.rows[i].sentTs.None?)
            && (sender in q'.sending ==> q'.sending == q.sending[sender := Pending(q.rows)])
            && q'.rows == q.rows && q'.told == q.told
  {
    assert |Pending(q.rows)| == if |Unsent(q.rows)| <= 200 then |Unsent(q.rows)| else 200;
    if Unsent(q.rows) != [] { UnsentMember(q.rows, Unsent(q.rows)[0]); }
    if i :| 0 <= i < |q.rows| && q.rows[i].sentTs.None? { UnsentMember(q.rows, q.rows[i]); }
    hide Pending, Unsent;
  }

  // ---- Updates that arrive during a send ----

  /** The observation goes into the row with this id. */
  predicate Merges(q: Queue, a: Action, id: nat) {
    a.Observe? && 1 <= id <= |q.rows| && q.rows[id - 1].sentTs.None? && ItemKey(q.rows[id - 1]) == KeyOf(a.o.finding)
  }

  /** How many observations of a run go into that row. */
  function MergesIn(q: Queue, trace: seq<Action>, id: nat): nat {
    if trace == [] then 0
    else
      var n := |trace| - 1;
      MergesIn(q, trace[..n], id) + if Merges(Run(q, trace[..n]), trace[n], id) then 1 else 0
  }

  /** A row but for the time it was sent. */
  function Content(x: DigestItem): DigestItem { x.(sentTs := None) }

  lemma ActRow(q: Queue, a: Action, id: nat)
    requires NumberedItems(q.rows) && OneUnsent(q.rows) && 1 <= id <= |q.rows|
    ensures var rows' := Act(q, a).rows;
            && |rows'| >= |q.rows| && ItemKey(rows'[id - 1]) == ItemKey(q.rows[id - 1])
            && rows'[id - 1].occurrences == q.rows[id - 1].occurrences + (if Merges(q, a, id) then 1 else 0)
            && (!Merges(q, a, id) ==> Content(rows'[id - 1]) == Content(q.rows[id - 1]))
  {
    if a.Observe? { MergeRows(q.rows, a.o); }
    hide Pending, Enqueue;
  }

  lemma {:induction false} RunRow(q: Queue, trace: seq<Action>, id: nat)
    requires Inv(q) && 1 <= id <= |q.rows|
    ensures var rows' := Run(q, trace).rows;
            && |rows'| >= |q.rows| && ItemKey(rows'[id - 1]) == ItemKey(q.rows[id - 1])
            && rows'[id - 1].occurrences == q.rows[id - 1].occurrences + MergesIn(q, trace, id)
            && (MergesIn(q, trace, id) == 0 ==> Content(rows'[id - 1]) == Content(q.rows[id - 1]))
  {
    if trace != [] {
      var n := |trace| - 1;
      RunRow(q, trace[..n], id);
      QueueSafe(q, trace[..n]);
      ActRow(Run(q, trace[..n]), trace[n], id);
      hide Act, Merges;
    }
  }

  /** The observation goes into the row with this id, or makes it. */
  ghost predicate Joins(q: Queue, a: Action, id: nat) {
    Merges(q, a, id) || (a.Observe? && id == |q.rows| + 1 && forall k :: 1 <= k <= |q.rows| ==> !Merges(q, a, k))
  }

  /** The observations of a run that go into that row. */
  ghost function Joined(q: Queue, trace: seq<Action>, id: nat): seq<Observation> {
    if trace == [] then []
    else
      var n := |trace| - 1;
      Joined(q, trace[..n], id) + if Joins(Run(q, trace[..n]), trace[n], id) then [trace[n].o] else []
  }

  /** A row counts its observations, is dated by the first and shows the last of them. */
  ghost predicate Sums(rows: seq<DigestItem>, id: nat, joined: seq<Observation>) {
    if 1 <= id <= |rows| then
      var x := rows[id - 1];
      && x.occurrences == |joined| > 0 && x.firstTs == joined[0].at && Shows(x, joined[|joined| - 1])
      && forall k :: 0 <= k < |joined| ==> KeyOf(joined[k].finding) == (x.rule, x.subject)
    else joined == []
  }

  lemma JoinsNew(q: Queue, a: Action)
    requires a.Observe?
    ensures (exists i :: 0 <= i < |q.rows| && q.rows[i].sentTs.None? && ItemKey(q.rows[i]) == KeyOf(a.o.finding))
        <==> exists k :: 1 <= k <= |q.rows| && Merges(q, a, k)
  {
    if i :| 0 <= i < |q.rows| && q.rows[i].sentTs.None? && ItemKey(q.rows[i]) == KeyOf(a.o.finding) {
      assert Merges(q, a, i + 1);
    }
    if k :| 1 <= k <= |q.rows| && Merges(q, a, k) { assert ItemKey(q.rows[k - 1]) == KeyOf(a.o.finding); }
  }

  /** What an observation makes of one row. */
  lemma RowJoined(q: Queue, a: Action, id: nat)
    requires NumberedItems(q.rows) && OneUnsent(q.rows) && id >= 1 && a.Observe?
    ensures var rows' := Act(q, a).rows;
            && |rows'| >= |q.rows| && (id <= |rows'| <==> id <= |q.rows| || Joins(q, a, id))
            && (id <= |q.rows| && !Joins(q, a, id) ==> rows'[id - 1] == q.rows[id - 1])
            && (Joins(q, a, id) ==>
                 && ItemKey(rows'[id - 1]) == KeyOf(a.o.finding) && Shows(rows'[id - 1], a.o)
                 && if id <= |q.rows| then
                      && ItemKey(q.rows[id - 1]) == KeyOf(a.o.finding) && rows'[id - 1].firstTs == q.rows[id - 1].firstTs
                      && rows'[id - 1].occurrences == q.rows[id - 1].occurrences + 1
                    else rows'[id - 1].firstTs == a.o.at && rows'[id - 1].occurrences == 1)
  {
    MergeRows(q.rows, a.o);
    JoinsNew(q, a);
    hide Enqueue, Merge, Shows, NumberedItems, OneUnsent, Total;
  }

  lemma ObserveSums(q: Queue, a: Action, id: nat, joined: seq<Observation>)
    requires NumberedItems(q.rows) && OneUnsent(q.rows) && id >= 1 && Sums(q.rows, id, joined) && a.Observe?
    ensures Sums(Act(q, a).rows, id, joined + if Joins(q, a, id) then [a.o] else [])
  {
    RowJoined(q, a, id);
    hide Act, Joins, Shows, NumberedItems, OneUnsent;
    assert joined + [] == joined;
  }

  lemma ActSums(q: Queue, a: Action, id: nat, joined: seq<Observation>)
    requires NumberedItems(q.rows) && OneUnsent(q.rows) && id >= 1 && Sums(q.rows, id, joined)
    ensures Sums(Act(q, a).rows, id, joined + if Joins(q, a, id) then [a.o] else [])
  {
    if a.Observe? { ObserveSums(q, a, id, joined); }
    hide Pending, Merge, OneUnsent, NumberedItems, Names;
    assert joined + [] == joined;
  }

  /** Over every run, each row tells of exactly the observations that went into it: their number, the time of
      the first, and the time, state, severity, detail and payload of the last. So a recovery that joins a row
      shows, and the next observation replaces it. */
  lemma {:induction false} RowSums(trace: seq<Action>, id: nat)
    requires id >= 1
    ensures Sums(Run(START, trace).rows, id, Joined(START, trace, id))
  {
    if trace != [] {
      var n := |trace| - 1;
      RowSums(trace[..n], id);
      QueueSafe(START, trace[..n]);
      ActSums(Run(START, trace[..n]), trace[n], id, Joined(START, trace[..n], id));
      hide Act, Joins, Sums;
    }
  }

  lemma {:induction false} SendingStays(q: Queue, trace: seq<Action>, sender: Sender)
    requires sender in q.sending && forall k :: 0 <= k < |trace| ==> !(trace[k].Finish? && trace[k].sender == sender)
    ensures sender in Run(q, trace).sending && Run(q, trace).sending[sender] == q.sending[sender]
  {
    hide Pending, MarkSent, Merge;
    if trace != [] { SendingStays(q, trace[..|trace| - 1], sender); }
  }

  lemma ReadItem(q: Queue, sender: Sender, x: DigestItem)
    requires Inv(q) && sender !in q.sending && x in Pending(q.rows)
    ensures 1 <= x.id <= |q.rows| && q.rows[x.id - 1] == x && x.sentTs.None?
    ensures var q' := Act(q, Read(sender)); sender in q'.sending && q'.sending[sender] == Pending(q.rows) && q'.rows == q.rows
  {
    PendingMember(q.rows, x);
    var i :| 0 <= i < |q.rows| && q.rows[i] == x;
    hide Pending;
  }

  /** Over every run of observations and of the other sender between the read and the end of a send: a row
      that was read says, once it is marked, what this message told exactly if no observation went into it
      meanwhile. Otherwise it covers that many updates more, and as it counts as sent nobody reads it
      again. */
  lemma ToldIffUndisturbed(q: Queue, sender: Sender, during: seq<Action>, delivered: nat, at: int, x: DigestItem)
    requires Inv(q) && sender !in q.sending && x in Pending(q.rows) && delivered >= 1
    requires forall k :: 0 <= k < |during| ==> !(during[k].Finish? && during[k].sender == sender)
    ensures var q1 := Act(q, Read(sender));
            var q' := Act(Run(q1, during), Finish(sender, delivered, at));
            var merged := MergesIn(q1, during, x.id);
            && 1 <= x.id <= |q'.rows| && x in q'.told
            && (q'.rows[x.id - 1] == x.(sentTs := Some(at)) <==> merged == 0)
            && q'.rows[x.id - 1].occurrences == x.occurrences + merged
            && q'.rows[x.id - 1] !in Unsent(q'.rows)
  {
    hide Act, Run, MergesIn, Unsent, Pending, Inv, ReadFrom, Names;
    var q1 := Act(q, Read(sender));
    var q2 := Run(q1, during);
    ReadItem(q, sender, x);
    ReadKeeps(q, sender);
    RunRow(q1, during, x.id);
    SendingStays(q1, during, sender);
    QueueSafe(q1, during);
    Numbers(q2);
    Marked(q2, sender, delivered, at, x);
    var q' := Act(q2, Finish(sender, delivered, at));
    UnsentMember(q'.rows, q'.rows[x.id - 1]);
  }

  lemma Numbers(q: Queue)
    requires Inv(q)
    ensures NumberedItems(q.rows)
  {}

  lemma Marked(q: Queue, sender: Sender, delivered: nat, at: int, x: DigestItem)
    requires NumberedItems(q.rows) && sender in q.sending && x in q.sending[sender] && delivered >= 1 && 1 <= x.id <= |q.rows|
    ensures var q' := Act(q, Finish(sender, delivered, at));
            |q'.rows| == |q.rows| && q'.rows[x.id - 1] == q.rows[x.id - 1].(sentTs := Some(at)) && x in q'.told
  {
    var k :| 0 <= k < |q.sending[sender]| && q.sending[sender][k] == x;
    assert Names(q.sending[sender], x.id);
  }

  // ---- The last word on a row ----

  /** Once a row is marked it changes no more, but for the time, and nobody reads it again. */
  lemma MarkedIsFinal(q: Queue, trace: seq<Action>, id: nat)
    requires Inv(q) && 1 <= id <= |q.rows| && q.rows[id - 1].sentTs.Some?
    ensures var rows' := Run(q, trace).rows;
            && |rows'| >= |q.rows| && rows'[id - 1].sentTs.Some? && Content(rows'[id - 1]) == Content(q.rows[id - 1])
            && rows'[id - 1] !in Pending(rows')
  {
    RunRow(q, trace, id);
    NoMerges(q, trace, id);
    PendingMember(Run(q, trace).rows, Run(q, trace).rows[id - 1]);
  }

  lemma {:induction false} NoMerges(q: Queue, trace: seq<Action>, id: nat)
    requires Inv(q) && 1 <= id <= |q.rows| && q.rows[id - 1].sentTs.Some?
    ensures MergesIn(q, trace, id) == 0 && |Run(q, trace).rows| >= |q.rows| && Run(q, trace).rows[id - 1].sentTs.Some?
  {
    if trace != [] {
      var n := |trace| - 1;
      NoMerges(q, trace[..n], id);
      QueueSafe(q, trace[..n]);
      ActMarked(Run(q, trace[..n]), trace[n], id);
      hide Act;
    }
  }

  lemma ActMarked(q: Queue, a: Action, id: nat)
    requires Inv(q) && 1 <= id <= |q.rows| && q.rows[id - 1].sentTs.Some?
    ensures |Act(q, a).rows| >= |q.rows| && Act(q, a).rows[id - 1].sentTs.Some?
  {
    if a.Observe? { MergeRows(q.rows, a.o); }
    hide Pending, Merge;
  }

  /** A sender reads at step r, and its send is delivered at step f. */
  ghost predicate Delivers(trace: seq<Action>, sender: Sender, r: nat, f: nat) {
    && r < f < |trace| && trace[r] == Read(sender) && sender !in Run(START, trace[..r]).sending
    && trace[f].Finish? && trace[f].sender == sender && trace[f].delivered >= 1
    && forall k :: r < k < f ==> !(trace[k].Finish? && trace[k].sender == sender)
  }

  /** What a message of the run told is what some sender read, and whose send was delivered. */
  ghost predicate ToldBy(trace: seq<Action>, x: DigestItem) {
    exists sender, r: nat, f: nat :: Delivers(trace, sender, r, f) && x in Pending(Run(START, trace[..r]).rows)
  }

  /** What a sender is sending is what it read. */
  lemma {:induction false} SendingRead(trace: seq<Action>, sender: Sender) returns (r: nat)
    requires sender in Run(START, trace).sending
    ensures r < |trace| && trace[r] == Read(sender) && sender !in Run(START, trace[..r]).sending
    ensures Run(START, trace).sending[sender] == Pending(Run(START, trace[..r]).rows)
    ensures forall k :: r < k < |trace| ==> !(trace[k].Finish? && trace[k].sender == sender)
  {
    hide Pending, MarkSent, Merge;
    var n := |trace| - 1;
    var before := Run(START, trace[..n]);
    if sender in before.sending && !(trace[n].Finish? && trace[n].sender == sender) {
      r := SendingRead(trace[..n], sender);
      assert trace[..n][..r] == trace[..r];
    } else {
      r := n;
    }
  }

  lemma {:induction false} ToldGrows(q: Queue, trace: seq<Action>)
    ensures q.told <= Run(q, trace).told
  {
    hide Pending, MarkSent, Merge;
    if trace != [] { ToldGrows(q, trace[..|trace| - 1]); }
  }

  lemma {:induction false} ToldWasRead(trace: seq<Action>, x: DigestItem)
    requires x in Run(START, trace).told
    ensures ToldBy(trace, x)
  {
    hide Pending, MarkSent, Merge;
    var n := |trace| - 1;
    var before := Run(START, trace[..n]);
    if x in before.told {
      ToldWasRead(trace[..n], x);
      var sender, r: nat, f: nat :| Delivers(trace[..n], sender, r, f) && x in Pending(Run(START, trace[..n][..r]).rows);
      hide Delivers;
      DeliversLonger(trace, sender, r, f);
    } else {
      var sender := trace[n].sender;
      var r := SendingRead(trace[..n], sender);
      assert trace[..n][..r] == trace[..r];
      DeliversNow(trace, sender, r);
      hide Delivers;
    }
  }

  lemma DeliversLonger(trace: seq<Action>, sender: Sender, r: nat, f: nat)
    requires trace != [] && Delivers(trace[..|trace| - 1], sender, r, f)
    ensures Delivers(trace, sender, r, f) && trace[..|trace| - 1][..r] == trace[..r]
  {
    hide Run;
    assert trace[..|trace| - 1][..r] == trace[..r];
  }

  lemma DeliversNow(trace: seq<Action>, sender: Sender, r: nat)
    requires trace != [] && r < |trace| - 1 && trace[r] == Read(sender) && sender !in Run(START, trace[..r]).sending
    requires var a := trace[|trace| - 1]; a.Finish? && a.sender == sender && a.delivered >= 1
    requires forall k :: r < k < |trace| - 1 ==> !(trace[k].Finish? && trace[k].sender == sender)
    ensures Delivers(trace, sender, r, |trace| - 1)
  {}

  lemma ReadWasTold(trace: seq<Action>, sender: Sender, r: nat, f: nat, x: DigestItem)
    requires Delivers(trace, sender, r, f) && x in Pending(Run(START, trace[..r]).rows)
    ensures x in Run(START, trace).told
  {
    var q := Run(START, trace[..r]);
    var during := trace[r + 1..f];
    var q1 := Act(q, trace[r]);
    ReadSends(q, sender, x);
    assert forall k :: 0 <= k < |during| ==> during[k] == trace[r + 1 + k];
    SendingStays(q1, during, sender);
    var q2 := Run(q1, during);
    FinishTells(q2, trace[f], x);
    var q3 := Act(q2, trace[f]);
    hide Act, Pending, Run;
    RunFrom(trace, r, f);
    ToldGrows(q3, trace[f + 1..]);
  }

  lemma ReadSends(q: Queue, sender: Sender, x: DigestItem)
    requires sender !in q.sending && x in Pending(q.rows)
    ensures sender in Act(q, Read(sender)).sending && x in Act(q, Read(sender)).sending[sender]
  {
    hide Pending;
  }

  lemma FinishTells(q: Queue, a: Action, x: DigestItem)
    requires a.Finish? && a.sender in q.sending && x in q.sending[a.sender] && a.delivered >= 1
    ensures x in Act(q, a).told
  {
    hide MarkSent;
  }

  function Stepper(): (Queue, Action) -> Queue { (q, a) => Act(q, a) }

  lemma {:induction false} RunIsFold(q: Queue, trace: seq<Action>)
    ensures Run(q, trace) == Fold(Stepper(), q, trace)
  {
    hide Act;
    if trace != [] { RunIsFold(q, trace[..|trace| - 1]); }
  }

  lemma RunConcat(q: Queue, a: seq<Action>, b: seq<Action>)
    ensures Run(q, a + b) == Run(Run(q, a), b)
  {
    RunIsFold(q, a + b);
    RunIsFold(q, a);
    RunIsFold(Run(q, a), b);
    FoldConcat(Stepper(), q, a, b);
  }

  lemma RunOne(q: Queue, a: Action)
    ensures Run(q, [a]) == Act(q, a)
  {
    assert [a][..0] == [];
  }

  /** A run, taken apart at two of its steps. */
  lemma RunFrom(trace: seq<Action>, r: nat, f: nat)
    requires r < f < |trace|
    ensures Run(START, trace) ==
      Run(Act(Run(Act(Run(START, trace[..r]), trace[r]), trace[r + 1..f]), trace[f]), trace[f + 1..])
  {
    hide Act, Run;
    assert trace == trace[..r] + [trace[r]] + trace[r + 1..f] + [trace[f]] + trace[f + 1..];
    RunConcat(START, trace[..r], [trace[r]]);
    RunOne(Run(START, trace[..r]), trace[r]);
    RunConcat(START, trace[..r] + [trace[r]], trace[r + 1..f]);
    var mid := trace[..r] + [trace[r]] + trace[r + 1..f];
    RunConcat(START, mid, [trace[f]]);
    RunOne(Run(START, mid), trace[f]);
    RunConcat(START, mid + [trace[f]], trace[f + 1..]);
  }

  /** All observations in the row with this id were told. */
  ghost predicate FullyTold(q: Queue, id: nat) {
    1 <= id <= |q.rows| && exists k :: 0 <= k < |q.told| && q.told[k].id == id && q.told[k].occurrences == q.rows[id - 1].occurrences
  }

  /** Some sender read the row when no observation was to go into it any more, and its send was delivered. */
  ghost predicate LastWordRead(trace: seq<Action>, id: nat, occurrences: nat) {
    exists sender, r: nat, f: nat, x ::
      Delivers(trace, sender, r, f) && x in Pending(Run(START, trace[..r]).rows) && x.id == id && x.occurrences == occurrences
  }

  /** Over every run from the empty table: all observations in a row were told if and only if some sender
      read it after the last of them and its send was delivered. */
  lemma LastWordToldIff(trace: seq<Action>, id: nat)
    requires 1 <= id <= |Run(START, trace).rows|
    ensures FullyTold(Run(START, trace), id) <==> LastWordRead(trace, id, Run(START, trace).rows[id - 1].occurrences)
  {
    hide Run, Pending;
    var q := Run(START, trace);
    if FullyTold(q, id) {
      var k :| 0 <= k < |q.told| && q.told[k].id == id && q.told[k].occurrences == q.rows[id - 1].occurrences;
      ToldWasRead(trace, q.told[k]);
    }
    if LastWordRead(trace, id, q.rows[id - 1].occurrences) {
      var sender, r: nat, f: nat, x :| Delivers(trace, sender, r, f) && x in Pending(Run(START, trace[..r]).rows) && x.id == id
                             && x.occurrences == q.rows[id - 1].occurrences;
      ReadWasTold(trace, sender, r, f, x);
      var k :| 0 <= k < |q.told| && q.told[k] == x;
    }
  }

  // ---- The table as the source writes it ----

  class DigestTable {
    var rows: seq<DigestItem>

    constructor ()
      ensures rows == []
    {
      rows := [];
    }

    method EnqueueDigest(o: Observation) returns (id: nat)
      requires NumberedItems(rows)
      modifies this
      ensures rows == Merge(old(rows), o) && NumberedItems(rows)
      ensures 1 <= id <= |rows| && ItemKey(rows[id - 1]) == KeyOf(o.finding) && rows[id - 1].lastTs == o.at
    {
      var f := o.finding;
      var i := UnsentIndex(rows, KeyOf(f));
      if i >= 0 {
        rows := rows[i := rows[i].(lastTs := o.at, severity := f.severity, state := o.state, detail := f.detail,
                                   payload := f.payload, occurrences := rows[i].occurrences + 1)];
        return rows[i].id;
      }
      id := |rows| + 1;
      rows := rows + [DigestItem(id, o.at, o.at, f.rule, f.subject, f.severity, o.state, f.detail, f.payload, 1, None)];
    }

    method MarkDigestItemsSent(items: seq<DigestItem>, at: int)
      modifies this
      ensures rows == MarkSent(old(rows), items, at) && |rows| == |old(rows)|
      ensures forall i :: 0 <= i < |rows| ==>
        rows[i] == if exists k :: 0 <= k < |items| && items[k].id == old(rows)[i].id
                   then old(rows)[i].(sentTs := Some(at)) else old(rows)[i]
    {
      rows := MarkSent(rows, items, at);
    }
  }
}
