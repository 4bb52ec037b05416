/**
 * The walk over the query tree that finds every neural sparse clause reachable
 * through `should` children and collects its two-phase copy with the product of
 * the boosts on its path.
 */
module QueryWalk {
  import opened Results
  import opened Queries
  import opened TokenSplit

  /** The two-phase copy of a sparse clause: its field and the low-score half of its split. */
  ghost function TwoPhaseCopy(field: string, tokens: TokenMap, ratio: real): TwoPhaseKey
  {
    TwoPhaseKey(field, SplitByRatio(tokens, ratio).low)
  }

  /** The entries the walk puts into its multimap, in order, starting from `baseBoost`. */
  ghost function Collected(q: Query, baseBoost: real, ratio: real): seq<Entry>
    decreases q
  {
    match q
    case Bool(_, _, _, should, boost) => CollectedAll(should, Compose(baseBoost, boost), ratio)
    case Sparse(field, tokens, boost) => [(TwoPhaseCopy(field, tokens, ratio), Compose(baseBoost, boost))]
    case Opaque => []
  }

  /** The entries of a run of sibling `should` clauses, one after the other. */
  ghost function CollectedAll(qs: seq<Query>, baseBoost: real, ratio: real): seq<Entry>
    decreases qs
  {
    if qs == [] then [] else Collected(qs[0], baseBoost, ratio) + CollectedAll(qs[1..], baseBoost, ratio)
  }

  /** A boost applied beneath an accumulated one: they multiply (named, so the solver treats the product as a term). */
  function Compose(baseBoost: real, boost: real): real
  {
    baseBoost * boost
  }

  /** A node's own boost; other query kinds count as 1. */
  function OwnBoost(q: Query): real
  {
    match q
    case Bool(_, _, _, _, boost) => boost
    case Sparse(_, _, boost) => boost
    case Opaque => 1.0
  }

  /**
   * The node reached from `q` by following `path` as indices into `should`
   * children, with the product of every boost from `baseBoost` down to and
   * including the reached node's own.
   */
  ghost function Reach(q: Query, path: seq<nat>, baseBoost: real): Option<(Query, real)>
    decreases |path|
  {
    if path == [] then Some((q, Compose(baseBoost, OwnBoost(q))))
    else match q
      case Bool(_, _, _, should, boost) =>
        if path[0] < |should| then Reach(should[path[0]], path[1..], Compose(baseBoost, boost)) else None
      case _ => None
  }

  /** `path` leads to a sparse clause whose two-phase copy and path boost make up `e`. */
  ghost predicate EmitsAt(q: Query, path: seq<nat>, baseBoost: real, ratio: real, e: Entry)
  {
    var r := Reach(q, path, baseBoost);
    && r.Some?
    && r.value.0.Sparse?
    && e == (TwoPhaseCopy(r.value.0.field, r.value.0.tokens, ratio), r.value.1)
  }

  lemma {:induction false} CollectedAllAppend(qs: seq<Query>, q: Query, baseBoost: real, ratio: real)
    ensures CollectedAll(qs + [q], baseBoost, ratio) == CollectedAll(qs, baseBoost, ratio) + Collected(q, baseBoost, ratio)
    decreases qs
  {
    if qs == [] {
      assert [q][1..] == [];
    } else {
      assert (qs + [q])[1..] == qs[1..] + [q];
      CollectedAllAppend(qs[1..], q, baseBoost, ratio);
    }
  }

  lemma {:induction false} CollectedAllHasChild(qs: seq<Query>, i: nat, baseBoost: real, ratio: real, e: Entry)
    requires i < |qs| && e in Collected(qs[i], baseBoost, ratio)
    ensures e in CollectedAll(qs, baseBoost, ratio)
    decreases qs
  {
    if i > 0 {
      CollectedAllHasChild(qs[1..], i - 1, baseBoost, ratio, e);
    }
  }

  lemma {:induction false} CollectedAllFromChild(qs: seq<Query>, baseBoost: real, ratio: real, e: Entry) returns (i: nat)
    requires e in CollectedAll(qs, baseBoost, ratio)
    ensures i < |qs| && e in Collected(qs[i], baseBoost, ratio)
    decreases qs
  {
    if e in Collected(qs[0], baseBoost, ratio) {
      i := 0;
    } else {
      var j := CollectedAllFromChild(qs[1..], baseBoost, ratio, e);
      i := j + 1;
    }
  }

  /** Completeness: every sparse clause reachable through `should` children is collected, with its path boost. */
  lemma {:induction false} CollectComplete(q: Query, path: seq<nat>, baseBoost: real, ratio: real, e: Entry)
    requires EmitsAt(q, path, baseBoost, ratio, e)
    ensures e in Collected(q, baseBoost, ratio)
    decreases |path|
  {
    if path != [] {
      var i := path[0];
      var child := q.should[i];
      assert EmitsAt(child, path[1..], Compose(baseBoost, q.boost), ratio, e);
      CollectComplete(child, path[1..], Compose(baseBoost, q.boost), ratio, e);
      CollectedAllHasChild(q.should, i, Compose(baseBoost, q.boost), ratio, e);
    }
  }

  /** Soundness: every collected entry comes from a sparse clause reachable through `should` children. */
  lemma {:induction false} CollectSound(q: Query, baseBoost: real, ratio: real, e: Entry)
    requires e in Collected(q, baseBoost, ratio)
    ensures exists path :: EmitsAt(q, path, baseBoost, ratio, e)
    decreases q
  {
    match q
    case Sparse(_, _, boost) =>
      assert e == Collected(q, baseBoost, ratio)[0];
      assert Reach(q, [], baseBoost) == Some((q, Compose(baseBoost, boost)));
      assert EmitsAt(q, [], baseBoost, ratio, e);
    case Bool(_, _, _, should, boost) =>
      var i := CollectedAllFromChild(should, Compose(baseBoost, boost), ratio, e);
      CollectSound(should[i], Compose(baseBoost, boost), ratio, e);
      var p :| EmitsAt(should[i], p, Compose(baseBoost, boost), ratio, e);
      assert ([i] + p)[1..] == p;
      assert EmitsAt(q, [i] + p, baseBoost, ratio, e);
  }

  /** Each path of `ps`, extended at the front by the child index `i`. */
  ghost function Prefixed(i: nat, ps: seq<seq<nat>>): (r: seq<seq<nat>>)
    ensures |r| == |ps|
    ensures forall j :: 0 <= j < |ps| ==> r[j] == [i] + ps[j]
  {
    seq(|ps|, j requires 0 <= j < |ps| => [i] + ps[j])
  }

  /** The paths from `q` through `should` children to its sparse clauses, in the order the walk visits them. */
  ghost function SparsePaths(q: Query): seq<seq<nat>>
    decreases q
  {
    match q
    case Bool(_, _, _, should, _) => ChildSparsePaths(should, 0)
    case Sparse(_, _, _) => [[]]
    case Opaque => []
  }

  /** The sparse paths through the children `should[k..]`, each starting with its child's index. */
  ghost function ChildSparsePaths(should: seq<Query>, k: nat): seq<seq<nat>>
    decreases should, |should| - k
  {
    if k >= |should| then [] else Prefixed(k, SparsePaths(should[k])) + ChildSparsePaths(should, k + 1)
  }

  /** No path is listed twice. */
  ghost predicate NoRepeats(ps: seq<seq<nat>>)
  {
    forall i, j :: 0 <= i < j < |ps| ==> ps[i] != ps[j]
  }

  /** A path that leads to a sparse clause below child `k` leads to it from the parent too, through index `k`. */
  lemma EmitsAtChild(q: Query, k: nat, path: seq<nat>, baseBoost: real, ratio: real, e: Entry)
    requires q.Bool? && k < |q.should|
    requires EmitsAt(q.should[k], path, Compose(baseBoost, q.boost), ratio, e)
    ensures EmitsAt(q, [k] + path, baseBoost, ratio, e)
  {
    assert ([k] + path)[1..] == path;
  }

  /**
   * One entry per sparse path, in walk order: the walk collects exactly as many
   * entries as there are `should`-paths to sparse clauses, and the i-th entry is
   * the copy and path boost of the clause at the i-th path.
   */
  lemma {:induction false} SparsePathsEmit(q: Query, baseBoost: real, ratio: real)
    ensures |Collected(q, baseBoost, ratio)| == |SparsePaths(q)|
    ensures forall i :: 0 <= i < |SparsePaths(q)| ==> EmitsAt(q, SparsePaths(q)[i], baseBoost, ratio, Collected(q, baseBoost, ratio)[i])
    decreases q, 1
  {
    match q
    case Sparse(_, _, boost) =>
      assert Reach(q, [], baseBoost) == Some((q, Compose(baseBoost, boost)));
    case Opaque =>
    case Bool(_, _, _, should, _) =>
      ChildSparsePathsEmit(q, 0, baseBoost, ratio);
      assert should[0..] == should;
  }

  lemma {:induction false} ChildSparsePathsEmit(q: Query, k: nat, baseBoost: real, ratio: real)
    requires q.Bool? && k <= |q.should|
    ensures var es := CollectedAll(q.should[k..], Compose(baseBoost, q.boost), ratio);
      var ps := ChildSparsePaths(q.should, k);
      && |es| == |ps|
      && forall i :: 0 <= i < |ps| ==> EmitsAt(q, ps[i], baseBoost, ratio, es[i])
    decreases q, 0, |q.should| - k
  {
    var updatedBoost := Compose(baseBoost, q.boost);
    if k < |q.should| {
      var child := q.should[k];
      SparsePathsEmit(child, updatedBoost, ratio);
      ChildSparsePathsEmit(q, k + 1, baseBoost, ratio);
      assert q.should[k..][1..] == q.should[k + 1..];
      assert q.should[k..][0] == child;
      var head := Collected(child, updatedBoost, ratio);
      var tail := CollectedAll(q.should[k + 1..], updatedBoost, ratio);
      var headPaths := Prefixed(k, SparsePaths(child));
      var tailPaths := ChildSparsePaths(q.should, k + 1);
      assert CollectedAll(q.should[k..], updatedBoost, ratio) == head + tail;
      assert ChildSparsePaths(q.should, k) == headPaths + tailPaths;
      forall i | 0 <= i < |headPaths| + |tailPaths|
        ensures EmitsAt(q, (headPaths + tailPaths)[i], baseBoost, ratio, (head + tail)[i])
      {
        if i < |headPaths| {
          EmitsAtChild(q, k, SparsePaths(child)[i], baseBoost, ratio, head[i]);
        } else {
          assert (headPaths + tailPaths)[i] == tailPaths[i - |headPaths|];
          assert (head + tail)[i] == tail[i - |headPaths|];
        }
      }
    }
  }

  /** Distinct entries of the walk stand for distinct clauses: no sparse path is listed twice. */
  lemma {:induction false} SparsePathsDistinct(q: Query)
    ensures NoRepeats(SparsePaths(q))
    decreases q, 1
  {
    match q
    case Sparse(_, _, _) =>
    case Opaque =>
    case Bool(_, _, _, should, _) =>
      ChildSparsePathsDistinct(should, 0);
  }

  lemma {:induction false} ChildSparsePathsDistinct(should: seq<Query>, k: nat)
    ensures NoRepeats(ChildSparsePaths(should, k))
    ensures forall p :: p in ChildSparsePaths(should, k) ==> |p| > 0 && p[0] >= k
    decreases should, 0, |should| - k
  {
    if k < |should| {
      var inner := SparsePaths(should[k]);
      SparsePathsDistinct(should[k]);
      ChildSparsePathsDistinct(should, k + 1);
      var headPaths := Prefixed(k, inner);
      var tailPaths := ChildSparsePaths(should, k + 1);
      var ps := headPaths + tailPaths;
      assert ChildSparsePaths(should, k) == ps;
      forall i, j | 0 <= i < j < |ps|
        ensures ps[i] != ps[j]
      {
        if j < |headPaths| {
          assert ps[i][1..] == inner[i];
          assert ps[j][1..] == inner[j];
        } else if i < |headPaths| {
          assert ps[j] == tailPaths[j - |headPaths|];
          assert ps[j] in tailPaths;
        } else {
          assert ps[i] == tailPaths[i - |headPaths|];
          assert ps[j] == tailPaths[j - |headPaths|];
        }
      }
      forall p | p in ps
        ensures |p| > 0 && p[0] >= k
      {
        var i :| 0 <= i < |ps| && ps[i] == p;
        if i >= |headPaths| {
          assert ps[i] == tailPaths[i - |headPaths|];
          assert p in tailPaths;
        }
      }
    }
  }

  /** Every `should`-path to a sparse clause is one of the walk's sparse paths. */
  lemma {:induction false} SparsePathsComplete(q: Query, path: seq<nat>, baseBoost: real)
    requires Reach(q, path, baseBoost).Some? && Reach(q, path, baseBoost).value.0.Sparse?
    ensures path in SparsePaths(q)
    decreases |path|
  {
    if path != [] {
      var k := path[0];
      SparsePathsComplete(q.should[k], path[1..], Compose(baseBoost, q.boost));
      ChildSparsePathsHas(q.should, 0, k, path[1..]);
      assert [k] + path[1..] == path;
    }
  }

  lemma {:induction false} ChildSparsePathsHas(should: seq<Query>, j: nat, k: nat, path: seq<nat>)
    requires j <= k < |should| && path in SparsePaths(should[k])
    ensures [k] + path in ChildSparsePaths(should, j)
    decreases k - j
  {
    if j == k {
      var i :| 0 <= i < |SparsePaths(should[k])| && SparsePaths(should[k])[i] == path;
      assert Prefixed(k, SparsePaths(should[k]))[i] == [k] + path;
    } else {
      ChildSparsePathsHas(should, j + 1, k, path);
    }
  }

  /** Nested boosts multiply: a clause under two boolean nodes carries all three boosts. */
  lemma NestedBoostsMultiply(field: string, tokens: TokenMap, b1: real, b2: real, b3: real, ratio: real)
    ensures Collected(Bool([], [], [], [Bool([], [], [], [Sparse(field, tokens, b3)], b2)], b1), 1.0, ratio)
         == [(TwoPhaseCopy(field, tokens, ratio), b1 * b2 * b3)]
  {
    var leaf := Sparse(field, tokens, b3);
    var inner := Bool([], [], [], [leaf], b2);
    var outer := Bool([], [], [], [inner], b1);
    var x1 := Compose(1.0, b1);
    var x2 := Compose(x1, b2);
    assert Compose(x2, b3) == b1 * b2 * b3;
    assert [leaf][1..] == [] && [inner][1..] == [];
    assert CollectedAll([leaf], x2, ratio) == Collected(leaf, x2, ratio);
    assert CollectedAll([inner], x1, ratio) == Collected(inner, x1, ratio);
  }

  /** Walks `q`, collecting the two-phase copy of every sparse clause reachable through `should` children. */
  method CollectNeuralSparseQueries(q: Query, baseBoost: real, ratio: real) returns (entries: seq<Entry>)
    ensures entries == Collected(q, baseBoost, ratio)
    ensures |entries| == |SparsePaths(q)|
    ensures forall i :: 0 <= i < |entries| ==> EmitsAt(q, SparsePaths(q)[i], baseBoost, ratio, entries[i])
    decreases q
  {
    entries := [];
    match q {
      case Bool(_, _, _, should, boost) =>
        var updatedBoost := Compose(baseBoost, boost);
        for i := 0 to |should|
          invariant entries == CollectedAll(should[..i], updatedBoost, ratio)
        {
          var sub := CollectNeuralSparseQueries(should[i], updatedBoost, ratio);
          assert should[..i + 1] == should[..i] + [should[i]];
          CollectedAllAppend(should[..i], should[i], updatedBoost, ratio);
          entries := entries + sub;
        }
        assert should[..|should|] == should;
      case Sparse(field, tokens, boost) =>
        var updatedBoost := Compose(baseBoost, boost);
        var split := SplitQueryTokens(Some(tokens), ratio);
        entries := [(TwoPhaseKey(field, split.value.low), updatedBoost)];
        assert entries[0] == Collected(q, baseBoost, ratio)[0];
      case Opaque =>
    }
    SparsePathsEmit(q, baseBoost, ratio);
  }
}
