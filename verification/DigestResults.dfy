/** What the groups of a digest are: a partition of its problem records into the fewest groups that
    no longer than ten minutes each, whatever the order in which the records were read. */
module DigestResults {
  import opened Ordering
  import opened DigestSummary

  // ---- Which records are in which group ----

  /** The records of each group, in the order of the pass. */
  function Parts(items: seq<Item>): (parts: seq<seq<Item>>)
    ensures |parts| == |Pass(items).groups|
  {
    if items == [] then []
    else
      var n := |items| - 1;
      var x := items[n];
      var parts := Parts(items[..n]);
      var groups := Pass(items[..n]).groups;
      if !x.kind.Problem? then parts
      else
        var i := LatestOf(groups, x.kind.key);
        if i < 0 || x.lastTs - groups[i].firstTs > WINDOW then parts + [[x]] else parts[i := parts[i] + [x]]
  }

  function Sources(part: seq<Item>): set<string> {
    set x | x in part && x.kind.Problem? :: x.kind.source
  }

  /** A group says of its records: their key, the title of the first, when the first and the last one
      were, their sources and their number; and they lie within ten minutes. */
  ghost predicate Describes(g: Group, part: seq<Item>) {
    && part != []
    && (forall i :: 0 <= i < |part| ==> part[i].kind.Problem? && part[i].kind.key == g.key)
    && g.title == part[0].kind.title
    && g.firstTs == part[0].lastTs
    && (forall i :: 0 <= i < |part| ==> part[i].lastTs <= g.lastTs)
    && (exists i :: 0 <= i < |part| && part[i].lastTs == g.lastTs)
    && g.lastTs - g.firstTs <= 600
    && g.sources == Sources(part)
    && g.records == |part|
  }

  lemma SourcesAppend(part: seq<Item>, x: Item)
    requires x.kind.Problem?
    ensures Sources(part + [x]) == Sources(part) + {x.kind.source}
  {
    assert x in part + [x];
    assert forall y :: y in part + [x] <==> y in part || y == x;
  }

  lemma JoinDescribes(g: Group, part: seq<Item>, x: Item)
    requires Describes(g, part) && x.kind.Problem? && x.kind.key == g.key && x.lastTs - g.firstTs <= WINDOW
    ensures Describes(Join(g, x), part + [x])
  {
    var part' := part + [x];
    SourcesAppend(part, x);
    var i :| 0 <= i < |part| && part[i].lastTs == g.lastTs;
    assert part'[i] == part[i] && part'[|part|] == x;
  }

  lemma {:induction false} GroupsDescribe(items: seq<Item>)
    ensures forall i :: 0 <= i < |Parts(items)| ==> Describes(Pass(items).groups[i], Parts(items)[i])
  {
    if items != [] {
      var n := |items| - 1;
      var x := items[n];
      GroupsDescribe(items[..n]);
      if x.kind.Problem? {
        var groups, parts := Pass(items[..n]).groups, Parts(items[..n]);
        var i := LatestOf(groups, x.kind.key);
        if i < 0 || x.lastTs - groups[i].firstTs > WINDOW {
          assert [x][0] == x;
          assert Sources([x]) == {x.kind.source};
        } else {
          JoinDescribes(groups[i], parts[i], x);
        }
      }
    }
  }

  function Union(parts: seq<seq<Item>>): multiset<Item> {
    if parts == [] then multiset{} else Union(parts[..|parts| - 1]) + multiset(parts[|parts| - 1])
  }

  lemma {:induction false} UnionUpdate(parts: seq<seq<Item>>, i: nat, x: Item)
    requires i < |parts|
    ensures Union(parts[i := parts[i] + [x]]) == Union(parts) + multiset{x}
  {
    var n := |parts| - 1;
    var parts' := parts[i := parts[i] + [x]];
    if i < n {
      assert parts'[..n] == parts[..n][i := parts[i] + [x]];
      UnionUpdate(parts[..n], i, x);
    } else {
      assert parts'[..n] == parts[..n];
    }
  }

  function Problems(items: seq<Item>): multiset<Item> {
    if items == [] then multiset{}
    else
      var n := |items| - 1;
      Problems(items[..n]) + if items[n].kind.Problem? then multiset{items[n]} else multiset{}
  }

  /** Every problem record is in exactly one group, and nothing else is in any. */
  lemma {:induction false} PartsPartition(items: seq<Item>)
    ensures Union(Parts(items)) == Problems(items)
  {
    if items != [] {
      var n := |items| - 1;
      var x := items[n];
      PartsPartition(items[..n]);
      if x.kind.Problem? {
        var groups, parts := Pass(items[..n]).groups, Parts(items[..n]);
        var i := LatestOf(groups, x.kind.key);
        if i < 0 || x.lastTs - groups[i].firstTs > WINDOW {
          assert (parts + [[x]])[..|parts|] == parts;
        } else {
          UnionUpdate(parts, i, x);
        }
      }
    }
  }

  // ---- Conservation ----

  function Records(groups: seq<Group>): nat {
    if groups == [] then 0 else Records(groups[..|groups| - 1]) + groups[|groups| - 1].records
  }

  lemma {:induction false} RecordsUpdate(groups: seq<Group>, i: nat, g: Group)
    requires i < |groups| && g.records == groups[i].records + 1
    ensures Records(groups[i := g]) == Records(groups) + 1
  {
    var n := |groups| - 1;
    if i < n {
      assert groups[i := g][..n] == groups[..n][i := g];
      RecordsUpdate(groups[..n], i, g);
    } else {
      assert groups[i := g][..n] == groups[..n];
    }
  }

  lemma {:induction false} PassCounts(items: seq<Item>)
    ensures var s := Pass(items); Records(s.groups) + s.restarts + s.shutdowns == |items|
  {
    if items != [] {
      var n := |items| - 1;
      var x := items[n];
      PassCounts(items[..n]);
      if x.kind.Problem? {
        var groups := Pass(items[..n]).groups;
        var i := LatestOf(groups, x.kind.key);
        if i < 0 || x.lastTs - groups[i].firstTs > WINDOW {
          var g := Group(x.kind.key, x.kind.title, x.lastTs, x.lastTs, {x.kind.source}, 1);
          assert (groups + [g])[..|groups|] == groups;
        } else {
          RecordsUpdate(groups, i, Join(groups[i], x));
        }
      }
    }
  }

  /** Nothing is dropped and nothing is counted twice. */
  lemma EveryRecordCounted(items: seq<Item>)
    ensures var s := Summarize(items); Records(s.groups) + s.restarts + s.shutdowns == |items|
  {
    PassCounts(Sort(items, ByTime));
  }

  // ---- The fewest groups ----

  /** Groups of one key start more than ten minutes apart. */
  ghost predicate StartsApart(groups: seq<Group>) {
    forall i, j :: 0 <= i < j < |groups| && groups[i].key == groups[j].key ==> groups[j].firstTs - groups[i].firstTs > WINDOW
  }

  lemma {:induction false} PassStartsApart(items: seq<Item>)
    ensures StartsApart(Pass(items).groups)
  {
    if items != [] { PassStartsApart(items[..|items| - 1]); }
  }

  /** The problem records whose key is of interest: of one key, of all keys, or of any others. */
  ghost predicate Counts(x: Item, keys: iset<string>) { x.kind.Problem? && x.kind.key in keys }

  /** Another way to group those records: records with the same number are of the same key and at most
      ten minutes apart. */
  ghost predicate Grouping(items: seq<Item>, number: Item -> int, keys: iset<string>) {
    forall x, y :: x in items && y in items && Counts(x, keys) && Counts(y, keys) && number(x) == number(y)
      ==> x.kind.key == y.kind.key && x.lastTs - y.lastTs <= 600
  }

  /** The groups it makes. */
  ghost function Numbers(items: seq<Item>, number: Item -> int, keys: iset<string>): set<int> {
    set x | x in items && Counts(x, keys) :: number(x)
  }

  /** The groups of the digest for those keys. */
  ghost function GroupsFor(groups: seq<Group>, keys: iset<string>): set<int> {
    set i | 0 <= i < |groups| && groups[i].key in keys
  }

  lemma {:induction false} FirstInItems(items: seq<Item>, i: nat)
    requires i < |Parts(items)|
    ensures Parts(items)[i] != [] && forall k :: 0 <= k < |Parts(items)[i]| ==> Parts(items)[i][k] in items
    decreases |items|
  {
    var n := |items| - 1;
    GroupsDescribe(items);
    if i < |Parts(items[..n])| { FirstInItems(items[..n], i); }
  }

  lemma {:induction false} InjectionFits<T, U>(domain: set<T>, f: T -> U, range: set<U>)
    requires forall i :: i in domain ==> f(i) in range
    requires forall i, j :: i in domain && j in domain && f(i) == f(j) ==> i == j
    ensures |domain| <= |range|
  {
    if domain != {} {
      var i :| i in domain;
      InjectionFits(domain - {i}, f, range - {f(i)});
    }
  }

  function FirstNumber(parts: seq<seq<Item>>, number: Item -> int): int -> int {
    i => if 0 <= i < |parts| && parts[i] != [] then number(parts[i][0]) else 0
  }

  /** No grouping of the same records needs fewer groups. */
  lemma PassFewest(items: seq<Item>, number: Item -> int, keys: iset<string>)
    requires Grouping(items, number, keys)
    ensures |GroupsFor(Pass(items).groups, keys)| <= |Numbers(items, number, keys)|
  {
    var from, f := GroupsFor(Pass(items).groups, keys), FirstNumber(Parts(items), number);
    forall i | i in from ensures f(i) in Numbers(items, number, keys) {
      GroupsDescribe(items);
      FirstInItems(items, i);
      assert Counts(Parts(items)[i][0], keys);
    }
    forall i, j | i in from && j in from && i < j ensures f(i) != f(j) {
      GroupsDescribe(items);
      PassStartsApart(items);
      FirstInItems(items, i);
      FirstInItems(items, j);
      assert Counts(Parts(items)[i][0], keys) && Counts(Parts(items)[j][0], keys);
    }
    InjectionFits(from, f, Numbers(items, number, keys));
  }

  lemma SortedItems(items: seq<Item>)
    ensures multiset(Sort(items, ByTime)) == multiset(items)
    ensures forall x :: x in Sort(items, ByTime) <==> x in items
  {
    SortMultiset(items, ByTime);
    forall x ensures x in Sort(items, ByTime) <==> x in items { SortMember(items, ByTime, x); }
  }

  /** For one key, for all keys, or for any others: the digest makes the fewest groups that keep
      records of different keys, or more than ten minutes apart, separate. */
  lemma FewestGroups(items: seq<Item>, number: Item -> int, keys: iset<string>)
    requires Grouping(items, number, keys)
    ensures |GroupsFor(Summarize(items).groups, keys)| <= |Numbers(items, number, keys)|
  {
    SortedItems(items);
    assert Numbers(Sort(items, ByTime), number, keys) == Numbers(items, number, keys);
    PassFewest(Sort(items, ByTime), number, keys);
  }

  lemma {:induction false} ProblemsOnly(items: seq<Item>, x: Item)
    ensures Problems(items)[x] == if x.kind.Problem? then multiset(items)[x] else 0
  {
    if items != [] {
      var n := |items| - 1;
      ProblemsOnly(items[..n], x);
      assert items == items[..n] + [items[n]];
    }
  }

  /** The groups of a digest and their records: each group describes its part, and the parts hold each
      problem record exactly as often as the digest does. */
  lemma GroupsPartition(items: seq<Item>) returns (parts: seq<seq<Item>>)
    ensures |parts| == |Summarize(items).groups|
    ensures forall i :: 0 <= i < |parts| ==> Describes(Summarize(items).groups[i], parts[i])
    ensures forall x :: Union(parts)[x] == if x.kind.Problem? then multiset(items)[x] else 0
  {
    var sorted := Sort(items, ByTime);
    parts := Parts(sorted);
    GroupsDescribe(sorted);
    PartsPartition(sorted);
    SortMultiset(items, ByTime);
    forall x ensures Union(parts)[x] == if x.kind.Problem? then multiset(items)[x] else 0 { ProblemsOnly(sorted, x); }
  }

  // ---- Order of arrival ----

  predicate SameId(a: Item, b: Item) { a.id == b.id }

  lemma ByTimeTotal()
    ensures TotalPreorder(ByTime)
  {}

  lemma SortStrict(items: seq<Item>)
    requires Apart(items, SameId)
    ensures StrictlySorted(Sort(items, ByTime), ByTime)
  {
    ByTimeTotal();
    SortSorted(items, ByTime);
    SortApart(items, ByTime, SameId);
    var sorted := Sort(items, ByTime);
    forall i, j | 0 <= i < j < |sorted| ensures !ByTime(sorted[j], sorted[i]) {
      assert !SameId(sorted[i], sorted[j]);
    }
  }

  /** The digest does not depend on the order in which its records are read. */
  lemma OrderIrrelevant(a: seq<Item>, b: seq<Item>)
    requires multiset(a) == multiset(b) && Apart(a, SameId)
    ensures Summarize(a) == Summarize(b)
  {
    ByTimeTotal();
    SortMultiset(a, ByTime);
    SortMultiset(b, ByTime);
    SortStrict(a);
    SortSorted(b, ByTime);
    assert |multiset(a)| == |a| && |multiset(b)| == |b|;
    SortedUnique(Sort(a, ByTime), Sort(b, ByTime), ByTime);
  }
}
