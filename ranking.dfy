/** Week-index ranking of a plan's weekly amounts
    (SavingsService.recalculate_week_indices in app/services/savings_service.py).
    The selected, non-deleted amounts of a plan are numbered 1, 2, ... in the
    order in which they were selected; the unselected ones lose their index.
    `Reranked` is that renumbering as a function of the table; the lemmas
    state what the numbering promises. */
module Ranking {
  import opened Basics
  import opened SavingsModels

  /** A weekly amount of plan `planId` that is not soft-deleted. */
  predicate LiveIn(w: WeeklyAmount, planId: int)
  {
    w.savingPlanId == planId && w.deletedAt.None?
  }

  /** A live weekly amount of the plan that is marked as saved. */
  predicate SavedIn(w: WeeklyAmount, planId: int)
  {
    LiveIn(w, planId) && w.selected
  }

  /** Number of saved amounts of the plan in the table. */
  function SavedCount(a: seq<WeeklyAmount>, planId: int): (n: nat)
    ensures n <= |a|
  {
    if a == [] then 0
    else SavedCount(a[..|a| - 1], planId) + (if SavedIn(a[|a| - 1], planId) then 1 else 0)
  }

  /** Which rows the selected-amounts query of the recalculation returns. */
  function SavedFlags(a: seq<WeeklyAmount>, planId: int): (flags: seq<bool>)
    ensures |flags| == |a|
    ensures forall i :: 0 <= i < |a| ==> flags[i] == SavedIn(a[i], planId)
  {
    seq(|a|, i requires 0 <= i < |a| => SavedIn(a[i], planId))
  }

  /** Which rows the unselected-amounts query of the recalculation returns. */
  function UnsavedFlags(a: seq<WeeklyAmount>, planId: int): (flags: seq<bool>)
    ensures |flags| == |a|
    ensures forall i :: 0 <= i < |a| ==> flags[i] == (LiveIn(a[i], planId) && !a[i].selected)
  {
    seq(|a|, i requires 0 <= i < |a| => LiveIn(a[i], planId) && !a[i].selected)
  }

  /** The positions whose flag is set, in increasing order. */
  function Positions(flags: seq<bool>): (r: seq<nat>)
    ensures forall k :: 0 <= k < |r| ==> r[k] < |flags| && flags[r[k]]
    ensures forall i :: 0 <= i < |flags| && flags[i] ==> i in r
    ensures forall k, m :: 0 <= k < m < |r| ==> r[k] < r[m]
  {
    if flags == [] then []
    else
      var n := |flags| - 1;
      var r := Positions(flags[..n]);
      assert forall i :: 0 <= i < n ==> flags[..n][i] == flags[i];
      if flags[n] then r + [n] else r
  }

  lemma {:induction false} PositionsCountSaved(a: seq<WeeklyAmount>, planId: int)
    ensures |Positions(SavedFlags(a, planId))| == SavedCount(a, planId)
  {
    if a != [] {
      var n := |a| - 1;
      assert SavedFlags(a, planId)[..n] == SavedFlags(a[..n], planId);
      PositionsCountSaved(a[..n], planId);
    }
  }

  /** The sort key of ORDER BY date_selected ASC; PostgreSQL sorts a missing
      stamp after every present one. */
  datatype SelectionKey = Stamped(at: Instant) | Unstamped

  predicate KeyBefore(k1: SelectionKey, k2: SelectionKey)
  {
    k1.Stamped? && (k2.Unstamped? || k1.at < k2.at)
  }

  function SelectionKeys(a: seq<WeeklyAmount>): (keys: seq<SelectionKey>)
    ensures |keys| == |a|
    ensures forall i :: 0 <= i < |a| ==> keys[i] == if a[i].dateSelected.Some? then Stamped(a[i].dateSelected.value) else Unstamped
  {
    seq(|a|, i requires 0 <= i < |a| => if a[i].dateSelected.Some? then Stamped(a[i].dateSelected.value) else Unstamped)
  }

  function KeyAt(keys: seq<SelectionKey>, i: nat): SelectionKey
  {
    if i < |keys| then keys[i] else Unstamped
  }

  /** Row `i` comes before row `j` in the selected-amounts query: its stamp
      is earlier, or the stamps are equal and it is earlier in the table
      (the store does not fix the order of ties; the model takes table
      order). */
  predicate RankedBefore(keys: seq<SelectionKey>, i: nat, j: nat)
  {
    KeyBefore(KeyAt(keys, i), KeyAt(keys, j)) || (KeyAt(keys, i) == KeyAt(keys, j) && i < j)
  }

  function RankLe(keys: seq<SelectionKey>): (nat, nat) -> bool
  {
    (i: nat, j: nat) => i == j || RankedBefore(keys, i, j)
  }

  lemma RankLeTotalPreorder(keys: seq<SelectionKey>)
    ensures TotalPreorder(RankLe(keys))
  {
  }

  lemma MembersOfPermutation<T>(s: seq<T>, t: seq<T>)
    requires multiset(s) == multiset(t)
    ensures forall x :: x in s <==> x in t
  {
    forall x ensures x in s <==> x in t {
      assert x in s <==> x in multiset(s);
      assert x in t <==> x in multiset(t);
    }
  }

  /** The rows of the selected-amounts query, as positions, in query order. */
  function SelectionOrder(a: seq<WeeklyAmount>, planId: int): seq<nat>
  {
    InsertionSort(Positions(SavedFlags(a, planId)), RankLe(SelectionKeys(a)))
  }

  /** The query returns exactly the saved rows of the plan. */
  lemma SelectionOrderMembers(a: seq<WeeklyAmount>, planId: int)
    ensures forall k :: 0 <= k < |SelectionOrder(a, planId)| ==>
      SelectionOrder(a, planId)[k] < |a| && SavedIn(a[SelectionOrder(a, planId)[k]], planId)
    ensures forall i :: 0 <= i < |a| && SavedIn(a[i], planId) ==> i in SelectionOrder(a, planId)
  {
    var flags := SavedFlags(a, planId);
    var ps := Positions(flags);
    var order := SelectionOrder(a, planId);
    MembersOfPermutation(ps, order);
    forall k | 0 <= k < |order| ensures order[k] < |a| && SavedIn(a[order[k]], planId) {
      assert order[k] in ps;
      var m :| 0 <= m < |ps| && ps[m] == order[k];
      assert flags[ps[m]];
    }
    forall i | 0 <= i < |a| && SavedIn(a[i], planId) ensures i in order {
      assert flags[i];
      assert i in ps;
    }
  }

  lemma SelectionOrderFacts(a: seq<WeeklyAmount>, planId: int)
    ensures Distinct(SelectionOrder(a, planId))
    ensures SortedBy(SelectionOrder(a, planId), RankLe(SelectionKeys(a)))
    ensures |SelectionOrder(a, planId)| == SavedCount(a, planId)
  {
    var ps := Positions(SavedFlags(a, planId));
    assert Distinct(ps);
    DistinctPermutation(ps, SelectionOrder(a, planId));
    RankLeTotalPreorder(SelectionKeys(a));
    InsertionSortSorted(ps, RankLe(SelectionKeys(a)));
    PositionsCountSaved(a, planId);
  }

  function IndexOf(s: seq<nat>, x: nat): (k: nat)
    requires x in s
    ensures k < |s| && s[k] == x
    ensures forall m :: 0 <= m < k ==> s[m] != x
  {
    if s[0] == x then 0 else 1 + IndexOf(s[1..], x)
  }

  /** The week index the recalculation gives the saved row `i`: one more
      than its place in selection order. */
  function RankOf(a: seq<WeeklyAmount>, planId: int, i: nat): (n: int)
    requires i < |a| && SavedIn(a[i], planId)
  {
    SelectionOrderMembers(a, planId);
    IndexOf(SelectionOrder(a, planId), i) + 1
  }

  /** The table after recalculate_week_indices has renumbered plan `planId`:
      saved rows get their rank, live unselected rows lose their index, and
      nothing else changes. */
  function Reranked(a: seq<WeeklyAmount>, planId: int): (r: seq<WeeklyAmount>)
    ensures |r| == |a|
    ensures forall i :: 0 <= i < |a| ==> r[i] == a[i].(weekIndex := r[i].weekIndex)
    ensures forall i :: 0 <= i < |a| && !LiveIn(a[i], planId) ==> r[i] == a[i]
    ensures forall i :: 0 <= i < |a| && LiveIn(a[i], planId) && !a[i].selected ==> r[i].weekIndex.None?
  {
    seq(|a|, i requires 0 <= i < |a| =>
      if SavedIn(a[i], planId) then a[i].(weekIndex := Some(RankOf(a, planId, i)))
      else if LiveIn(a[i], planId) then a[i].(weekIndex := None)
      else a[i])
  }

  /** Every saved row of the plan receives an index between 1 and the number
      of saved rows. */
  lemma RerankedIndexInRange(a: seq<WeeklyAmount>, planId: int, i: nat)
    requires i < |a| && SavedIn(a[i], planId)
    ensures Reranked(a, planId)[i].weekIndex.Some?
    ensures 1 <= Reranked(a, planId)[i].weekIndex.value <= SavedCount(a, planId)
  {
    SelectionOrderFacts(a, planId);
  }

  /** No two saved rows of the plan share an index. */
  lemma RerankedIndicesDistinct(a: seq<WeeklyAmount>, planId: int, i: nat, j: nat)
    requires i < |a| && j < |a| && i != j
    requires SavedIn(a[i], planId) && SavedIn(a[j], planId)
    ensures Reranked(a, planId)[i].weekIndex != Reranked(a, planId)[j].weekIndex
  {
    var order := SelectionOrder(a, planId);
    SelectionOrderMembers(a, planId);
    assert order[IndexOf(order, i)] == i && order[IndexOf(order, j)] == j;
  }

  /** Every index from 1 to the number of saved rows is given to some saved
      row of the plan. */
  lemma RerankedIndicesCover(a: seq<WeeklyAmount>, planId: int, n: int)
    requires 1 <= n <= SavedCount(a, planId)
    ensures exists i :: 0 <= i < |a| && SavedIn(a[i], planId) && Reranked(a, planId)[i].weekIndex == Some(n)
  {
    var order := SelectionOrder(a, planId);
    SelectionOrderFacts(a, planId);
    var i := order[n - 1];
    SelectionOrderMembers(a, planId);
    var k := IndexOf(order, i);
    assert k == n - 1;
    assert Reranked(a, planId)[i].weekIndex == Some(n);
  }

  /** Indices follow selection order: a row selected earlier (or, at equal
      stamps, stored earlier; or stamped when the other is not) gets the
      smaller index. */
  lemma RerankedFollowsSelectionOrder(a: seq<WeeklyAmount>, planId: int, i: nat, j: nat)
    requires i < |a| && j < |a|
    requires SavedIn(a[i], planId) && SavedIn(a[j], planId)
    requires RankedBefore(SelectionKeys(a), i, j)
    ensures Reranked(a, planId)[i].weekIndex.Some? && Reranked(a, planId)[j].weekIndex.Some?
    ensures Reranked(a, planId)[i].weekIndex.value < Reranked(a, planId)[j].weekIndex.value
  {
    var order := SelectionOrder(a, planId);
    var keys := SelectionKeys(a);
    SelectionOrderFacts(a, planId);
    SelectionOrderMembers(a, planId);
    var ki, kj := IndexOf(order, i), IndexOf(order, j);
    assert i != j;
    assert ki != kj;
  }

  /** The stamps side of `RerankedFollowsSelectionOrder`: a strictly
      earlier selection date means a strictly smaller index. */
  lemma RerankedEarlierSelectionFirst(a: seq<WeeklyAmount>, planId: int, i: nat, j: nat)
    requires i < |a| && j < |a|
    requires SavedIn(a[i], planId) && SavedIn(a[j], planId)
    requires a[i].dateSelected.Some? && a[j].dateSelected.Some?
    requires a[i].dateSelected.value < a[j].dateSelected.value
    ensures Reranked(a, planId)[i].weekIndex.Some? && Reranked(a, planId)[j].weekIndex.Some?
    ensures Reranked(a, planId)[i].weekIndex.value < Reranked(a, planId)[j].weekIndex.value
  {
    assert RankedBefore(SelectionKeys(a), i, j);
    RerankedFollowsSelectionOrder(a, planId, i, j);
  }

  /** Renumbering a plan that was just renumbered changes nothing. */
  lemma RerankedIdempotent(a: seq<WeeklyAmount>, planId: int)
    ensures Reranked(Reranked(a, planId), planId) == Reranked(a, planId)
  {
    var r := Reranked(a, planId);
    assert SavedFlags(r, planId) == SavedFlags(a, planId);
    assert SelectionKeys(r) == SelectionKeys(a);
    assert SelectionOrder(r, planId) == SelectionOrder(a, planId);
    var rr := Reranked(r, planId);
    forall i | 0 <= i < |a| ensures rr[i] == r[i] {
      if SavedIn(a[i], planId) {
        assert RankOf(r, planId, i) == RankOf(a, planId, i);
      }
    }
  }

  /** The row ranked after every other saved row of the plan gets the last
      index. */
  lemma RankedLastGetsLastIndex(a: seq<WeeklyAmount>, planId: int, i: nat)
    requires i < |a| && SavedIn(a[i], planId)
    requires forall j :: 0 <= j < |a| && j != i && SavedIn(a[j], planId) ==> RankedBefore(SelectionKeys(a), j, i)
    ensures Reranked(a, planId)[i].weekIndex == Some(SavedCount(a, planId))
  {
    var k := SavedCount(a, planId);
    RerankedIndexInRange(a, planId, i);
    RerankedIndicesCover(a, planId, k);
    var j :| 0 <= j < |a| && SavedIn(a[j], planId) && Reranked(a, planId)[j].weekIndex == Some(k);
    if j != i {
      RerankedFollowsSelectionOrder(a, planId, j, i);
    }
  }

  /** Tables that agree on which rows are saved have as many saved rows. */
  lemma {:induction false} SavedCountOfSameFlags(a: seq<WeeklyAmount>, b: seq<WeeklyAmount>, planId: int)
    requires |a| == |b|
    requires forall i :: 0 <= i < |a| ==> SavedIn(a[i], planId) == SavedIn(b[i], planId)
    ensures SavedCount(a, planId) == SavedCount(b, planId)
  {
    if a != [] {
      SavedCountOfSameFlags(a[..|a| - 1], b[..|b| - 1], planId);
    }
  }

  /** No soft-deleted row of the plan holds a week index. */
  predicate DeletedRowsUnindexed(a: seq<WeeklyAmount>, planId: int)
  {
    forall i :: 0 <= i < |a| && a[i].savingPlanId == planId && a[i].deletedAt.Some? ==> a[i].weekIndex.None?
  }

  /** Renumbering keeps the unique index on (saving_plan_id, week_index)
      satisfied, as long as no deleted row of the plan still holds an index
      the new numbering could reuse. */
  lemma RerankedKeepsWeekIndicesUnique(a: seq<WeeklyAmount>, planId: int)
    requires WeekIndicesUnique(a) && DeletedRowsUnindexed(a, planId)
    ensures WeekIndicesUnique(Reranked(a, planId))
    ensures DeletedRowsUnindexed(Reranked(a, planId), planId)
  {
    var r := Reranked(a, planId);
    forall i, j | 0 <= i < j < |r| && r[i].savingPlanId == r[j].savingPlanId && r[i].weekIndex.Some?
      ensures r[i].weekIndex != r[j].weekIndex
    {
      if a[i].savingPlanId == planId && r[j].weekIndex.Some? {
        RerankedIndicesDistinct(a, planId, i, j);
      }
    }
  }
}
