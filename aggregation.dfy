/**
 * Merging the collected two-phase copies: entries under the same copy are
 * grouped and their boosts summed, and each group becomes one `should` clause
 * of a boolean composite.
 */
module Aggregation {
  import opened Queries

  /** A two-phase copy with the summed boost of every entry collected under it. */
  type Group = (TwoPhaseKey, real)

  /** The copies that occur in a sequence of entries or groups. */
  function Keys(s: seq<(TwoPhaseKey, real)>): set<TwoPhaseKey>
  {
    if s == [] then {} else {s[0].0} + Keys(s[1..])
  }

  /** No copy has two groups. */
  predicate DistinctKeys(groups: seq<Group>)
  {
    groups == [] || (groups[0].0 !in Keys(groups[1..]) && DistinctKeys(groups[1..]))
  }

  /** The boost grouped under `key`, 0 when there is no such group. */
  function GroupBoost(groups: seq<Group>, key: TwoPhaseKey): real
  {
    if groups == [] then 0.0
    else if groups[0].0 == key then groups[0].1
    else GroupBoost(groups[1..], key)
  }

  /** Reference sum: every boost collected under `key`, added up in collection order from 0. */
  function BoostSum(entries: seq<Entry>, key: TwoPhaseKey): real
  {
    if entries == [] then 0.0
    else
      var last := entries[|entries| - 1];
      BoostSum(entries[..|entries| - 1], key) + (if last.0 == key then last.1 else 0.0)
  }

  /** The sum of all boosts in a sequence of entries or groups. */
  function TotalBoost(s: seq<(TwoPhaseKey, real)>): real
  {
    if s == [] then 0.0 else s[0].1 + TotalBoost(s[1..])
  }

  lemma {:induction false} KeysSnoc(s: seq<(TwoPhaseKey, real)>, x: (TwoPhaseKey, real))
    ensures Keys(s + [x]) == Keys(s) + {x.0}
    decreases |s|
  {
    if s == [] {
      assert [x][1..] == [];
    } else {
      assert (s + [x])[1..] == s[1..] + [x];
      KeysSnoc(s[1..], x);
    }
  }

  lemma {:induction false} KeyAt(s: seq<(TwoPhaseKey, real)>, i: nat)
    requires i < |s|
    ensures s[i].0 in Keys(s)
    decreases i
  {
    if i > 0 {
      KeyAt(s[1..], i - 1);
    }
  }

  /** One insertion into the grouping: adds to the copy's group, or opens a new group at the end. */
  function AddBoost(groups: seq<Group>, e: Entry): (r: seq<Group>)
    requires DistinctKeys(groups)
    ensures DistinctKeys(r)
    ensures Keys(r) == Keys(groups) + {e.0}
    ensures forall k :: GroupBoost(r, k) == GroupBoost(groups, k) + (if k == e.0 then e.1 else 0.0)
    ensures TotalBoost(r) == TotalBoost(groups) + e.1
    decreases |groups|
  {
    if groups == [] then
      assert [e][1..] == [];
      [e]
    else if groups[0].0 == e.0 then
      var r := [(e.0, groups[0].1 + e.1)] + groups[1..];
      assert r[1..] == groups[1..];
      r
    else
      var rest := AddBoost(groups[1..], e);
      var r := [groups[0]] + rest;
      assert r[1..] == rest;
      r
  }

  /** The grouping of collected entries, in order of each copy's first collection. */
  function Grouped(entries: seq<Entry>): (r: seq<Group>)
    ensures DistinctKeys(r)
    ensures Keys(r) == Keys(entries)
    ensures forall k :: GroupBoost(r, k) == BoostSum(entries, k)
    ensures TotalBoost(r) == TotalBoost(entries)
  {
    if entries == [] then []
    else
      var prefix := entries[..|entries| - 1];
      var last := entries[|entries| - 1];
      assert entries == prefix + [last];
      KeysSnoc(prefix, last);
      TotalBoostSnoc(prefix, last);
      AddBoost(Grouped(prefix), last)
  }

  lemma {:induction false} TotalBoostSnoc(s: seq<(TwoPhaseKey, real)>, x: (TwoPhaseKey, real))
    ensures TotalBoost(s + [x]) == TotalBoost(s) + x.1
    decreases |s|
  {
    if s == [] {
      assert [x][1..] == [];
    } else {
      assert (s + [x])[1..] == s[1..] + [x];
      TotalBoostSnoc(s[1..], x);
    }
  }

  /** In a grouping with distinct keys, a group's boost is the one looked up under its key. */
  lemma {:induction false} GroupBoostAt(groups: seq<Group>, i: nat)
    requires DistinctKeys(groups) && i < |groups|
    ensures GroupBoost(groups, groups[i].0) == groups[i].1
    decreases i
  {
    if i > 0 {
      GroupBoostAt(groups[1..], i - 1);
      KeyAt(groups[1..], i - 1);
    }
  }

  /** Every group carries the sum of all boosts collected under its copy. */
  lemma GroupedSums(entries: seq<Entry>, i: nat)
    requires i < |Grouped(entries)|
    ensures Grouped(entries)[i].1 == BoostSum(entries, Grouped(entries)[i].0)
  {
    GroupBoostAt(Grouped(entries), i);
  }

  /** Two equal copies collected at different places merge into one group whose boost is the sum. */
  lemma DuplicatesMerge(k: TwoPhaseKey, other: TwoPhaseKey, x: real, y: real, z: real)
    requires other != k
    ensures Grouped([(k, x), (other, z), (k, y)]) == [(k, x + y), (other, z)]
  {
    var es := [(k, x), (other, z), (k, y)];
    assert es[..2] == [(k, x), (other, z)];
    assert es[..2][..1] == [(k, x)];
    assert [(k, x)][..0] == [];
    assert Grouped([(k, x)]) == [(k, x)];
    assert Grouped(es[..2]) == [(k, x), (other, z)];
    assert [(k, x), (other, z)][1..] == [(other, z)];
    assert AddBoost([(k, x), (other, z)], (k, y)) == [(k, x + y), (other, z)];
  }

  /** The `should` clauses of the composite: each copy as a sparse clause, boosted by its group's sum. */
  function ShouldClauses(groups: seq<Group>): (qs: seq<Query>)
    ensures |qs| == |groups|
  {
    seq(|groups|, i requires 0 <= i < |groups| => Sparse(groups[i].0.field, groups[i].0.lowTokens, groups[i].1))
  }

  /**
   * Groups the collected entries by copy, summing their boosts, and adds each
   * copy as a `should` clause of a new boolean composite (boost 1).
   */
  method BuildNestedQuery(entries: seq<Entry>) returns (composite: Query)
    ensures composite == Bool([], [], [], ShouldClauses(Grouped(entries)), 1.0)
  {
    var groups: seq<Group> := [];
    for i := 0 to |entries|
      invariant groups == Grouped(entries[..i])
    {
      var e := entries[i];
      var j := 0;
      while j < |groups| && groups[j].0 != e.0
        invariant 0 <= j <= |groups|
        invariant forall m :: 0 <= m < j ==> groups[m].0 != e.0
      {
        j := j + 1;
      }
      assert entries[..i + 1][..i] == entries[..i];
      if j < |groups| {
        AddBoostExisting(groups, e, j);
        groups := groups[j := (e.0, groups[j].1 + e.1)];
      } else {
        AddBoostNew(groups, e);
        groups := groups + [e];
      }
    }
    assert entries[..|entries|] == entries;
    var should: seq<Query> := [];
    for i := 0 to |groups|
      invariant should == ShouldClauses(groups[..i])
    {
      should := should + [Sparse(groups[i].0.field, groups[i].0.lowTokens, groups[i].1)];
    }
    assert groups[..|groups|] == groups;
    composite := Bool([], [], [], should, 1.0);
  }

  lemma {:induction false} AddBoostExisting(groups: seq<Group>, e: Entry, j: nat)
    requires DistinctKeys(groups)
    requires j < |groups| && groups[j].0 == e.0
    requires forall m :: 0 <= m < j ==> groups[m].0 != e.0
    ensures AddBoost(groups, e) == groups[j := (e.0, groups[j].1 + e.1)]
    decreases j
  {
    if j > 0 {
      AddBoostExisting(groups[1..], e, j - 1);
      assert groups[1..][j - 1 := (e.0, groups[j].1 + e.1)] == groups[j := (e.0, groups[j].1 + e.1)][1..];
    }
  }

  lemma {:induction false} AddBoostNew(groups: seq<Group>, e: Entry)
    requires DistinctKeys(groups)
    requires forall m :: 0 <= m < |groups| ==> groups[m].0 != e.0
    ensures AddBoost(groups, e) == groups + [e]
    decreases |groups|
  {
    if groups != [] {
      AddBoostNew(groups[1..], e);
      assert groups[1..] + [e] == (groups + [e])[1..];
    }
  }
}
