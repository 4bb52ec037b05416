/**
 * Splitting a sparse clause's tokens into a high-score and a low-score map,
 * with the ratioed maximum weight as the threshold.
 */
module TokenSplit {
  import opened Results
  import opened Queries

  /** The two halves of a split; `high` keeps the tokens at or above the threshold. */
  datatype Split = Split(high: TokenMap, low: TokenMap)

  /** Set extensionality for the empty set, spelled out. */
  lemma EmptyIfNoMember(s: set<real>)
    ensures (forall w :: w !in s) ==> s == {}
  {
    if forall w :: w !in s {
      var empty: set<real> := {};
      assert forall w :: w in s <==> w in empty;
      assert s == empty;
    }
  }

  /**
   * The running maximum of the source's scan, which starts at 0: the largest
   * weight, or 0 when there is none or every weight is negative.
   */
  ghost function MaxOrZero(weights: set<real>): (m: real)
    ensures 0.0 <= m
    ensures forall w :: w in weights ==> w <= m
    ensures m == 0.0 || m in weights
    decreases weights
  {
    if weights == {} then 0.0
    else
      EmptyIfNoMember(weights);
      var w :| w in weights;
      var rest := MaxOrZero(weights - {w});
      assert weights == (weights - {w}) + {w};
      if w > rest then w else rest
  }

  /** The three properties above pin the maximum down. */
  lemma MaxOrZeroUnique(weights: set<real>, m: real)
    requires 0.0 <= m
    requires forall w :: w in weights ==> w <= m
    requires m == 0.0 || m in weights
    ensures m == MaxOrZero(weights)
  {
  }

  /** The cut a clause's tokens are split at. */
  ghost function Threshold(tokens: TokenMap, ratio: real): real
  {
    Scale(MaxOrZero(tokens.Values), ratio)
  }

  /** A weight scaled by the ratio; a named product keeps the solver off nonlinear real arithmetic. */
  function Scale(max: real, ratio: real): real
  {
    max * ratio
  }

  /** The partition of `tokens` at `threshold`: a token is high iff its weight reaches it. */
  function Partition(tokens: TokenMap, threshold: real): (s: Split)
    ensures s.high.Keys !! s.low.Keys
    ensures s.high.Keys + s.low.Keys == tokens.Keys
    ensures forall k :: k in s.high ==> s.high[k] == tokens[k] && tokens[k] >= threshold
    ensures forall k :: k in s.low ==> s.low[k] == tokens[k] && tokens[k] < threshold
  {
    Split(map k | k in tokens && tokens[k] >= threshold :: tokens[k],
          map k | k in tokens && tokens[k] < threshold :: tokens[k])
  }

  /** The split of `tokens` by `ratio` times their maximum weight. */
  ghost function SplitByRatio(tokens: TokenMap, ratio: real): Split
  {
    Partition(tokens, Threshold(tokens, ratio))
  }

  /** Splitting at a known maximum is splitting by the ratio. */
  lemma SplitAtMax(tokens: TokenMap, ratio: real, max: real)
    requires max == MaxOrZero(tokens.Values)
    ensures Partition(tokens, Scale(max, ratio)) == SplitByRatio(tokens, ratio)
  {
  }

  /**
   * Splits the token map by the ratioed maximum score; an absent map is an
   * argument error.
   */
  method SplitQueryTokens(queryTokens: Option<TokenMap>, ratio: real) returns (r: Result<Split, Error>)
    ensures queryTokens.None? ==> r == Failure(NullQueryTokens)
    ensures queryTokens.Some? ==> r == Success(SplitByRatio(queryTokens.value, ratio))
  {
    if queryTokens.None? {
      return Failure(NullQueryTokens);
    }
    var tokens := queryTokens.value;
    var max := 0.0;
    var remaining := tokens.Values;
    ghost var seen: set<real> := {};
    while remaining != {}
      invariant remaining + seen == tokens.Values
      invariant 0.0 <= max
      invariant forall w :: w in seen ==> w <= max
      invariant max == 0.0 || max in seen
      decreases remaining
    {
      EmptyIfNoMember(remaining);
      var value :| value in remaining;
      max := if value > max then value else max;
      remaining := remaining - {value};
      seen := seen + {value};
    }
    assert seen == tokens.Values;
    MaxOrZeroUnique(tokens.Values, max);
    var threshold := Scale(max, ratio);
    SplitAtMax(tokens, ratio, max);
    return Success(Partition(tokens, threshold));
  }

  /** An empty token map splits into two empty maps. */
  lemma SplitEmpty(ratio: real)
    ensures SplitByRatio(map[], ratio) == Split(map[], map[])
  {
  }

  /** A non-negative token weight that no other weight exceeds is the maximum. */
  lemma MaxIsTopWeight(tokens: TokenMap, k: string)
    requires k in tokens && 0.0 <= tokens[k]
    requires forall j :: j in tokens ==> tokens[j] <= tokens[k]
    ensures tokens[k] == MaxOrZero(tokens.Values)
  {
    forall w | w in tokens.Values ensures w <= tokens[k] {
      var j :| j in tokens && tokens[j] == w;
    }
    assert tokens[k] in tokens.Values;
    MaxOrZeroUnique(tokens.Values, tokens[k]);
  }

  /** With a ratio in [0, 1], a non-negative token of maximum weight is always high. */
  lemma MaxTokenIsHigh(tokens: TokenMap, ratio: real, k: string)
    requires 0.0 <= ratio <= 1.0
    requires k in tokens && 0.0 <= tokens[k]
    requires forall j :: j in tokens ==> tokens[j] <= tokens[k]
    ensures k in SplitByRatio(tokens, ratio).high
  {
    MaxIsTopWeight(tokens, k);
    var m := MaxOrZero(tokens.Values);
    ScaleDown(m, ratio);
    HighAtOrAbove(tokens, Threshold(tokens, ratio), k);
  }

  /** A token whose weight reaches the threshold lands in the high map. */
  lemma HighAtOrAbove(tokens: TokenMap, threshold: real, k: string)
    requires k in tokens && tokens[k] >= threshold
    ensures k in Partition(tokens, threshold).high
  {
  }

  /** Scaling a non-negative weight by a ratio in [0, 1] does not raise it. */
  lemma ScaleDown(w: real, ratio: real)
    requires 0.0 <= w && 0.0 <= ratio <= 1.0
    ensures Scale(w, ratio) <= w
  {
    assert w - w * ratio == w * (1.0 - ratio);
  }

  /** With ratio 0 and no negative weight, every token is high and the low map is empty. */
  lemma RatioZeroKeepsAllHigh(tokens: TokenMap)
    requires forall k :: k in tokens ==> 0.0 <= tokens[k]
    ensures SplitByRatio(tokens, 0.0) == Split(tokens, map[])
  {
  }

  /** With ratio 1 and some non-negative weight, exactly the tokens of maximum weight are high. */
  lemma RatioOneKeepsMaxima(tokens: TokenMap, k: string)
    requires exists j :: j in tokens && 0.0 <= tokens[j]
    requires k in tokens
    ensures k in SplitByRatio(tokens, 1.0).high <==> forall j :: j in tokens ==> tokens[j] <= tokens[k]
  {
    var m := MaxOrZero(tokens.Values);
    assert Threshold(tokens, 1.0) == m;
    if tokens[k] >= m {
      forall j | j in tokens ensures tokens[j] <= tokens[k] {
        assert tokens[j] in tokens.Values;
      }
    }
    if forall j :: j in tokens ==> tokens[j] <= tokens[k] {
      var j0 :| j0 in tokens && 0.0 <= tokens[j0];
      assert tokens[k] >= tokens[j0];
      if m != 0.0 {
        var j :| j in tokens && tokens[j] == m;
      }
      assert tokens[k] >= m;
    }
  }

  /** When every weight is negative the scan leaves the maximum at 0, so at any ratio every token is low. */
  lemma AllNegativeAllLow(tokens: TokenMap, ratio: real)
    requires forall k :: k in tokens ==> tokens[k] < 0.0
    ensures SplitByRatio(tokens, ratio) == Split(map[], tokens)
  {
    forall v | v in tokens.Values
      ensures v < 0.0
    {
      var k :| k in tokens && tokens[k] == v;
    }
    assert MaxOrZero(tokens.Values) == 0.0;
    assert Threshold(tokens, ratio) == 0.0;
  }

  /** The worked example: {a: 1.0, b: 0.5, c: 0.2} at ratio 0.4 cuts at 0.4. */
  lemma SplitExample()
    ensures SplitByRatio(map["a" := 1.0, "b" := 0.5, "c" := 0.2], 0.4)
         == Split(map["a" := 1.0, "b" := 0.5], map["c" := 0.2])
  {
    var tokens := map["a" := 1.0, "b" := 0.5, "c" := 0.2];
    assert tokens.Values == {1.0, 0.5, 0.2} by {
      assert tokens["a"] == 1.0 && tokens["b"] == 0.5 && tokens["c"] == 0.2;
    }
    MaxOrZeroUnique(tokens.Values, 1.0);
    var s := SplitByRatio(tokens, 0.4);
    assert s.high.Keys == {"a", "b"};
    assert s.low.Keys == {"c"};
  }
}
