/** Grouping the records of a digest: one pass over the records in order of time, one open group per
    kind of problem, no group longer than ten minutes. */
module DigestSummary {
  import opened Ordering

  /** How a record is classified, by the source's text patterns: a routine restart, a routine
      shutdown, or a problem with a grouping key and a title, from some source. */
  datatype Kind = Restart | Shutdown | Problem(key: string, title: string, source: string)

  /** One record; `id` is its row in the digest table. */
  datatype Item = Item(id: int, lastTs: int, kind: Kind)

  datatype Group = Group(key: string, title: string, firstTs: int, lastTs: int, sources: set<string>, records: nat)

  datatype Summary = Summary(groups: seq<Group>, restarts: nat, shutdowns: nat)

  const WINDOW := 600

  predicate ByTime(a: Item, b: Item) { a.lastTs < b.lastTs || (a.lastTs == b.lastTs && a.id <= b.id) }

  // ---- The pass ----

  /** The index of the latest group of a key, or -1. */
  function LatestOf(groups: seq<Group>, key: string): (i: int)
    ensures -1 <= i < |groups|
    ensures i >= 0 ==> groups[i].key == key
    ensures forall k :: i < k < |groups| ==> groups[k].key != key
  {
    if groups == [] then -1
    else
      var n := |groups| - 1;
      if groups[n].key == key then n else LatestOf(groups[..n], key)
  }

  function Max(a: int, b: int): int { if a >= b then a else b }

  function Join(g: Group, x: Item): Group
    requires x.kind.Problem?
  {
    g.(lastTs := Max(g.lastTs, x.lastTs), sources := g.sources + {x.kind.source}, records := g.records + 1)
  }

  function AddProblem(groups: seq<Group>, x: Item): seq<Group>
    requires x.kind.Problem?
  {
    var i := LatestOf(groups, x.kind.key);
    if i < 0 || x.lastTs - groups[i].firstTs > WINDOW then
      groups + [Group(x.kind.key, x.kind.title, x.lastTs, x.lastTs, {x.kind.source}, 1)]
    else
      groups[i := Join(groups[i], x)]
  }

  function Add(s: Summary, x: Item): Summary {
    match x.kind
    case Restart => s.(restarts := s.restarts + 1)
    case Shutdown => s.(shutdowns := s.shutdowns + 1)
    case Problem(_, _, _) => s.(groups := AddProblem(s.groups, x))
  }

  function Pass(items: seq<Item>): Summary {
    if items == [] then Summary([], 0, 0) else Add(Pass(items[..|items| - 1]), items[|items| - 1])
  }

  /** The groups of the digest, in the order in which they are opened. */
  function Summarize(items: seq<Item>): Summary { Pass(Sort(items, ByTime)) }

  // ---- The pass as the source writes it: mutable groups, each known to the list and to `latest` ----

  class OpenGroup {
    const key: string
    const title: string
    const firstTs: int
    var lastTs: int
    var sources: set<string>
    var records: nat

    constructor (key: string, title: string, ts: int)
      ensures this.key == key && this.title == title && firstTs == ts && lastTs == ts && sources == {} && records == 0
    {
      this.key, this.title, this.firstTs := key, title, ts;
      lastTs, sources, records := ts, {}, 0;
    }

    function Value(): Group
      reads this
    {
      Group(key, title, firstTs, lastTs, sources, records)
    }

    method Record(ts: int, source: string)
      modifies this
      ensures lastTs == Max(old(lastTs), ts) && sources == old(sources) + {source} && records == old(records) + 1
    {
      lastTs := Max(lastTs, ts);
      sources := sources + {source};
      records := records + 1;
    }
  }

  ghost predicate Mirrors(groups: seq<OpenGroup>, values: seq<Group>)
    reads groups
  {
    && |groups| == |values|
    && (forall i, j :: 0 <= i < j < |groups| ==> groups[i] != groups[j])
    && (forall i :: 0 <= i < |groups| ==> groups[i].Value() == values[i])
  }

  ghost predicate LatestOk(groups: seq<OpenGroup>, latest: map<string, OpenGroup>, values: seq<Group>) {
    && |groups| == |values|
    && forall key :: if LatestOf(values, key) < 0 then key !in latest
                     else key in latest && latest[key] == groups[LatestOf(values, key)]
  }

  lemma {:induction false} LatestOfAppend(groups: seq<Group>, g: Group, key: string)
    ensures LatestOf(groups + [g], key) == if g.key == key then |groups| else LatestOf(groups, key)
  {
    assert (groups + [g])[..|groups|] == groups;
  }

  lemma {:induction false} LatestOfUpdate(groups: seq<Group>, i: nat, g: Group, key: string)
    requires i < |groups| && g.key == groups[i].key
    ensures LatestOf(groups[i := g], key) == LatestOf(groups, key)
  {
    var n := |groups| - 1;
    if i < n {
      assert groups[i := g][..n] == groups[..n][i := g];
      LatestOfUpdate(groups[..n], i, g, key);
    } else {
      assert groups[i := g][..n] == groups[..n];
    }
  }

  /** A problem record opens a group of its own. */
  method OpenNew(x: Item, groups: seq<OpenGroup>, latest: map<string, OpenGroup>, ghost values: seq<Group>)
    returns (groups': seq<OpenGroup>, latest': map<string, OpenGroup>)
    requires x.kind.Problem? && Mirrors(groups, values) && LatestOk(groups, latest, values)
    requires AddProblem(values, x) == values + [Group(x.kind.key, x.kind.title, x.lastTs, x.lastTs, {x.kind.source}, 1)]
    ensures |groups'| == |groups| + 1 && groups'[..|groups|] == groups && fresh(groups'[|groups|])
    ensures Mirrors(groups', AddProblem(values, x)) && LatestOk(groups', latest', AddProblem(values, x))
  {
    var group := new OpenGroup(x.kind.key, x.kind.title, x.lastTs);
    group.Record(x.lastTs, x.kind.source);
    groups' := groups + [group];
    latest' := latest[x.kind.key := group];
    var value := group.Value();
    forall k ensures LatestOf(values + [value], k) == if x.kind.key == k then |values| else LatestOf(values, k) {
      LatestOfAppend(values, value, k);
    }
  }

  /** A problem record joins the latest group of its key, which the list and the dict share. */
  method JoinLatest(x: Item, groups: seq<OpenGroup>, latest: map<string, OpenGroup>, ghost values: seq<Group>)
    requires x.kind.Problem? && Mirrors(groups, values) && LatestOk(groups, latest, values)
    requires x.kind.key in latest && x.lastTs - latest[x.kind.key].firstTs <= WINDOW
    modifies groups
    ensures Mirrors(groups, AddProblem(values, x)) && LatestOk(groups, latest, AddProblem(values, x))
  {
    ghost var j := LatestOf(values, x.kind.key);
    assert latest[x.kind.key] == groups[j] && groups[j].Value() == values[j];
    latest[x.kind.key].Record(x.lastTs, x.kind.source);
    assert groups[j].Value() == Join(values[j], x);
    forall k ensures LatestOf(values[j := Join(values[j], x)], k) == LatestOf(values, k) {
      LatestOfUpdate(values, j, Join(values[j], x), k);
    }
  }

  lemma OpensNew(x: Item, groups: seq<OpenGroup>, latest: map<string, OpenGroup>, values: seq<Group>)
    requires x.kind.Problem? && Mirrors(groups, values) && LatestOk(groups, latest, values)
    ensures x.kind.key !in latest || x.lastTs - latest[x.kind.key].firstTs > WINDOW ==>
      AddProblem(values, x) == values + [Group(x.kind.key, x.kind.title, x.lastTs, x.lastTs, {x.kind.source}, 1)]
  {
    var key := x.kind.key;
    assert key in latest ==> latest[key].Value() == values[LatestOf(values, key)];
  }

  method AddRecord(x: Item, groups: seq<OpenGroup>, latest: map<string, OpenGroup>, ghost values: seq<Group>)
    returns (groups': seq<OpenGroup>, latest': map<string, OpenGroup>)
    requires x.kind.Problem? && Mirrors(groups, values) && LatestOk(groups, latest, values)
    modifies groups
    ensures |groups'| >= |groups| && groups'[..|groups|] == groups
    ensures forall k :: |groups| <= k < |groups'| ==> fresh(groups'[k])
    ensures Mirrors(groups', AddProblem(values, x)) && LatestOk(groups', latest', AddProblem(values, x))
  {
    var key := x.kind.key;
    var opens := key !in latest || x.lastTs - latest[key].firstTs > WINDOW;
    OpensNew(x, groups, latest, values);
    hide AddProblem, LatestOk, Mirrors;
    if opens {
      groups', latest' := OpenNew(x, groups, latest, values);
    } else {
      groups', latest' := groups, latest;
      JoinLatest(x, groups, latest, values);
    }
  }

  lemma NothingYet()
    ensures Pass([]) == Summary([], 0, 0)
    ensures Mirrors([], []) && LatestOk([], map[], [])
  {}

  lemma PassNext(items: seq<Item>, i: nat)
    requires i < |items|
    ensures Pass(items[..i + 1]) == Add(Pass(items[..i]), items[i])
  {
    assert items[..i + 1][..i] == items[..i];
  }

  // ---- What is counted ----

  predicate IsRestart(x: Item) { x.kind == Restart }

  predicate IsShutdown(x: Item) { x.kind == Shutdown }

  lemma {:induction false} PassCounts(items: seq<Item>)
    ensures Pass(items).restarts == CountIf(items, IsRestart) && Pass(items).shutdowns == CountIf(items, IsShutdown)
  {
    if items != [] { PassCounts(items[..|items| - 1]); }
  }

  /** The routine counts of a digest are those of its records, in whatever order they come. */
  lemma CountsOfKinds(items: seq<Item>)
    ensures Summarize(items).restarts == CountIf(items, IsRestart)
    ensures Summarize(items).shutdowns == CountIf(items, IsShutdown)
  {
    PassCounts(Sort(items, ByTime));
    CountSort(items, ByTime, IsRestart);
    CountSort(items, ByTime, IsShutdown);
  }

  method SummarizeDigest(items: seq<Item>) returns (groups: seq<OpenGroup>, restarts: nat, shutdowns: nat)
    ensures forall k :: 0 <= k < |groups| ==> fresh(groups[k])
    ensures Mirrors(groups, Summarize(items).groups)
    ensures restarts == CountIf(items, IsRestart) && shutdowns == CountIf(items, IsShutdown)
    ensures Summarize(items) == Summary(Summarize(items).groups, restarts, shutdowns)
  {
    hide Mirrors, LatestOk, AddProblem, Pass;
    groups, restarts, shutdowns := [], 0, 0;
    var latest: map<string, OpenGroup> := map[];
    NothingYet();
    var sorted := Sort(items, ByTime);
    assert sorted[..0] == [];
    for i := 0 to |sorted|
      invariant forall k :: 0 <= k < |groups| ==> fresh(groups[k])
      invariant Mirrors(groups, Pass(sorted[..i]).groups)
      invariant LatestOk(groups, latest, Pass(sorted[..i]).groups)
      invariant restarts == Pass(sorted[..i]).restarts && shutdowns == Pass(sorted[..i]).shutdowns
    {
      PassNext(sorted, i);
      match sorted[i].kind {
        case Restart => restarts := restarts + 1;
        case Shutdown => shutdowns := shutdowns + 1;
        case Problem(_, _, _) => groups, latest := AddRecord(sorted[i], groups, latest, Pass(sorted[..i]).groups);
      }
    }
    assert sorted[..|sorted|] == sorted;
    CountsOfKinds(items);
  }
}
