/** The debouncer of the banked-reset balance: a count is believed once it was read often enough in
    a row. */
module BankedBalance {
  import opened Basics

  datatype Reading = Reading(count: int, at: int)

  /** One row of the balance table; the timestamps of initialization and last read are not used. */
  datatype Row = Row(stable: int, candidate: Option<int>, observations: nat, candidateFirst: Option<int>)

  datatype Increase = Increase(delta: int, observedAt: int, previous: int, available: int)

  datatype Observed = Invalid | Observed(increase: Option<Increase>)

  // ---- One reading ----

  function NextRow(row: Option<Row>, r: Reading, confirmations: int): Row {
    match row
    case None => Row(r.count, None, 0, None)
    case Some(Row(stable, candidate, observations, first)) =>
      if r.count == stable then Row(stable, None, 0, None)
      else if candidate != Some(r.count) then Row(stable, Some(r.count), 1, Some(r.at))
      else if observations + 1 < confirmations then Row(stable, candidate, observations + 1, first)
      else Row(r.count, None, 0, None)
  }

  /** The increase a reading establishes. A first sighting at time 0 counts as no time at all. */
  function IncreaseOf(row: Option<Row>, r: Reading, confirmations: int): Option<Increase> {
    if row.Some? && NextRow(row, r, confirmations).stable > row.value.stable then
      var first := row.value.candidateFirst;
      Some(Increase(r.count - row.value.stable, if first.Some? && first.value != 0 then first.value else r.at,
                    row.value.stable, r.count))
    else None
  }

  class BalanceTable {
    var rows: map<string, Row>

    constructor ()
      ensures rows == map[]
    {
      rows := map[];
    }

    /** `confirmations` below 1 is an error and changes nothing. */
    method ObserveBankedBalance(source: string, r: Reading, confirmations: int) returns (result: Observed)
      modifies this
      ensures confirmations < 1 ==> result == Invalid && rows == old(rows)
      ensures confirmations >= 1 ==>
        var row := if source in old(rows) then Some(old(rows)[source]) else None;
        && rows == old(rows)[source := NextRow(row, r, confirmations)]
        && result == Observed(IncreaseOf(row, r, confirmations))
    {
      if confirmations < 1 { return Invalid; }
      if source !in rows {
        rows := rows[source := Row(r.count, None, 0, None)];
        return Observed(None);
      }
      var Row(stable, candidate, observations, first) := rows[source];
      if r.count == stable {
        rows := rows[source := Row(stable, None, 0, None)];
        return Observed(None);
      }
      if candidate != Some(r.count) {
        rows := rows[source := Row(stable, Some(r.count), 1, Some(r.at))];
        return Observed(None);
      }
      if observations + 1 < confirmations {
        rows := rows[source := Row(stable, candidate, observations + 1, first)];
        return Observed(None);
      }
      rows := rows[source := Row(r.count, None, 0, None)];
      var delta := r.count - stable;
      if delta <= 0 { return Observed(None); }
      return Observed(Some(Increase(delta, if first.Some? && first.value != 0 then first.value else r.at, stable, r.count)));
    }
  }

  // ---- A history of readings of one source ----

  function RowAfter(h: seq<Reading>, confirmations: int): Option<Row> {
    if h == [] then None
    else Some(NextRow(RowAfter(h[..|h| - 1], confirmations), h[|h| - 1], confirmations))
  }

  /** How many of the last readings, from the end, are `count`. */
  function Trailing(h: seq<Reading>, count: int): (n: nat)
    ensures n <= |h|
  {
    if h == [] || h[|h| - 1].count != count then 0 else Trailing(h[..|h| - 1], count) + 1
  }

  /** How many equal readings in a row are believed. The first sighting never suffices, so a setting
      of one confirmation still needs two readings. */
  function Needed(confirmations: int): int { if confirmations < 2 then 2 else confirmations }

  /** The believed count, said over the history alone: that of the latest run of enough equal
      readings, else the first reading. */
  function Believed(h: seq<Reading>, confirmations: int): int
    requires h != []
  {
    var last := h[|h| - 1];
    if |h| == 1 || Trailing(h, last.count) >= Needed(confirmations) then last.count
    else Believed(h[..|h| - 1], confirmations)
  }

  /** The row remembers a candidate exactly while the last readings disagree with the stable count. */
  ghost predicate Tracks(h: seq<Reading>, row: Row, confirmations: int)
    requires h != []
  {
    var last := h[|h| - 1];
    && row.stable == Believed(h, confirmations)
    && (row.candidate.Some? <==> last.count != row.stable)
    && (row.candidate.Some? ==>
         && row.candidate.value == last.count
         && row.observations == Trailing(h, last.count) < Needed(confirmations)
         && row.candidateFirst == Some(h[|h| - row.observations].at))
  }

  lemma {:induction false} RowTracks(h: seq<Reading>, confirmations: int)
    requires h != [] && confirmations >= 1
    ensures Tracks(h, RowAfter(h, confirmations).value, confirmations)
  {
    var n := |h| - 1;
    var last := h[n];
    if n > 0 {
      RowTracks(h[..n], confirmations);
      var before := RowAfter(h[..n], confirmations).value;
      assert h[..n][n - 1] == h[n - 1];
      assert Trailing(h, last.count) == Trailing(h[..n], last.count) + 1;
      if last.count != before.stable {
        if before.candidate != Some(last.count) {
          assert Trailing(h[..n], last.count) == 0;
        } else {
          assert Trailing(h[..n], last.count) == before.observations;
        }
      }
      assert Believed(h, confirmations)
          == if Trailing(h, last.count) >= Needed(confirmations) then last.count else Believed(h[..n], confirmations);
    } else {
      assert h[..n] == [];
    }
  }

  // ---- Increases ----

  /** The believed count after each prefix rises exactly when an increase is emitted, by the amount
      the increase says; and it is dated by the first of the equal readings that established it, unless that
      time is 0. */
  lemma IncreaseIffBelievedRises(h: seq<Reading>, r: Reading, confirmations: int)
    requires h != [] && confirmations >= 1
    ensures var inc := IncreaseOf(RowAfter(h, confirmations), r, confirmations);
            var before, after := Believed(h, confirmations), Believed(h + [r], confirmations);
            && (inc.Some? <==> after > before)
            && (inc.Some? ==> inc.value.previous == before && inc.value.available == after == r.count
                              && inc.value.delta == after - before)
            && (inc.Some? ==>
                 && 1 <= Trailing(h, r.count)
                 && var first := h[|h| - Trailing(h, r.count)].at;
                 inc.value.observedAt == if first == 0 then r.at else first)
  {
    RowTracks(h, confirmations);
    RowTracks(h + [r], confirmations);
    assert (h + [r])[..|h|] == h;
  }

  /** The sum of the increases emitted over a history. */
  function Emitted(h: seq<Reading>, confirmations: int): int {
    if h == [] then 0
    else
      var n := |h| - 1;
      var inc := IncreaseOf(RowAfter(h[..n], confirmations), h[n], confirmations);
      Emitted(h[..n], confirmations) + if inc.Some? then inc.value.delta else 0
  }

  /** The sum by which the believed count fell without a word. */
  function Absorbed(h: seq<Reading>, confirmations: int): int {
    if |h| <= 1 then 0
    else
      var n := |h| - 1;
      var before, after := Believed(h[..n], confirmations), Believed(h, confirmations);
      Absorbed(h[..n], confirmations) + if after < before then before - after else 0
  }

  /** Conservation: what was emitted minus what was absorbed is the change since the first reading. */
  lemma {:induction false} NothingLost(h: seq<Reading>, confirmations: int)
    requires h != [] && confirmations >= 1
    ensures Emitted(h, confirmations) - Absorbed(h, confirmations) == Believed(h, confirmations) - h[0].count
  {
    var n := |h| - 1;
    if n > 0 {
      NothingLost(h[..n], confirmations);
      assert h == h[..n] + [h[n]];
      IncreaseIffBelievedRises(h[..n], h[n], confirmations);
    } else {
      assert h[..n] == [];
      assert Emitted(h, confirmations) == 0;
    }
  }

  // ---- What is believed ----

  /** `count` was read `Needed` times in a row, ending at position j. */
  ghost predicate RunAt(h: seq<Reading>, j: nat, confirmations: int) {
    && j < |h|
    && Needed(confirmations) <= j + 1
    && forall i :: j + 1 - Needed(confirmations) <= i <= j ==> h[i].count == h[j].count
  }

  lemma {:induction false} TrailingIsRun(h: seq<Reading>, k: nat)
    requires h != []
    ensures Trailing(h, h[|h| - 1].count) >= k <==> k <= |h| && forall i :: |h| - k <= i < |h| ==> h[i].count == h[|h| - 1].count
    decreases k
  {
    TrailingRead(h, h[|h| - 1].count, k);
  }

  lemma {:induction false} TrailingRead(h: seq<Reading>, count: int, k: nat)
    ensures Trailing(h, count) >= k <==> k <= |h| && forall i :: |h| - k <= i < |h| ==> h[i].count == count
  {
    if k > 0 && h != [] {
      var n := |h| - 1;
      TrailingRead(h[..n], count, k - 1);
      if h[n].count == count {
        assert forall i :: 0 <= i < n ==> h[..n][i] == h[i];
      }
    }
  }

  /** The stable count is that of the latest run of enough equal readings; with no such run it is the
      first reading. */
  lemma {:induction false} StableIsLatestRun(h: seq<Reading>, confirmations: int)
    requires h != [] && confirmations >= 1
    ensures forall j: nat :: RunAt(h, j, confirmations) && (forall k: nat :: j < k < |h| ==> !RunAt(h, k, confirmations))
              ==> RowAfter(h, confirmations).value.stable == h[j].count
    ensures (forall k: nat :: k < |h| ==> !RunAt(h, k, confirmations))
              ==> RowAfter(h, confirmations).value.stable == h[0].count
  {
    RowTracks(h, confirmations);
    var n := |h| - 1;
    TrailingIsRun(h, Needed(confirmations));
    assert RunAt(h, n, confirmations) <==> Trailing(h, h[n].count) >= Needed(confirmations);
    if n > 0 && !RunAt(h, n, confirmations) {
      StableIsLatestRun(h[..n], confirmations);
      RowTracks(h[..n], confirmations);
      forall j | 0 <= j < n ensures RunAt(h, j, confirmations) <==> RunAt(h[..n], j, confirmations) {
        assert h[..n][j] == h[j];
        assert forall i :: 0 <= i <= j ==> h[..n][i] == h[i];
      }
    }
  }
}
