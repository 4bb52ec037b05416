/**
 * The rescorer the processor attaches: the weight the original query keeps
 * after the rescorers already on the request, and the validated window size.
 */
module Rescoring {
  import opened Results
  import opened Queries

  /** The request size that means "not set". */
  const UNSET_SIZE: int := -1

  /** The base size used when the request size is not set. */
  const DEFAULT_BASE_QUERY_SIZE: int := 10

  /** Multiplying in one more rescorer's query weight (named, so the solver treats the product as a term). */
  function Weigh(weight: real, queryWeight: real): real
  {
    weight * queryWeight
  }

  /**
   * The weight of the original query after the existing rescorers: the product
   * of their query weights, folded from 1 in list order.
   */
  function OriginQueryWeight(rescorers: seq<Rescorer>): (w: real)
    ensures rescorers == [] ==> w == 1.0
    ensures |rescorers| == 1 ==> w == rescorers[0].queryWeight
  {
    if rescorers == [] then 1.0
    else Weigh(OriginQueryWeight(rescorers[..|rescorers| - 1]), rescorers[|rescorers| - 1].queryWeight)
  }

  /** A rescorer of query weight 0 silences the original query; rescorers that all weigh 1 leave it at 1. */
  lemma {:induction false} OriginQueryWeightFactors(rescorers: seq<Rescorer>)
    ensures (exists i :: 0 <= i < |rescorers| && rescorers[i].queryWeight == 0.0) ==> OriginQueryWeight(rescorers) == 0.0
    ensures (forall i :: 0 <= i < |rescorers| ==> rescorers[i].queryWeight == 1.0) ==> OriginQueryWeight(rescorers) == 1.0
    decreases |rescorers|
  {
    if rescorers != [] {
      var init := rescorers[..|rescorers| - 1];
      var last := rescorers[|rescorers| - 1];
      OriginQueryWeightFactors(init);
      assert OriginQueryWeight(rescorers) == Weigh(OriginQueryWeight(init), last.queryWeight);
      if exists i :: 0 <= i < |rescorers| && rescorers[i].queryWeight == 0.0 {
        var i :| 0 <= i < |rescorers| && rescorers[i].queryWeight == 0.0;
        if i < |rescorers| - 1 {
          assert init[i] == rescorers[i];
        }
      }
      if forall i :: 0 <= i < |rescorers| ==> rescorers[i].queryWeight == 1.0 {
        assert forall i :: 0 <= i < |init| ==> init[i] == rescorers[i];
      }
    }
  }

  /** The weight of a concatenated list is the product of the weights of its parts. */
  lemma {:induction false} OriginQueryWeightAppend(a: seq<Rescorer>, b: seq<Rescorer>)
    ensures OriginQueryWeight(a + b) == OriginQueryWeight(a) * OriginQueryWeight(b)
    decreases |b|
  {
    if b == [] {
      assert a + b == a;
    } else {
      var init := b[..|b| - 1];
      var last := b[|b| - 1];
      assert (a + b)[..|a + b| - 1] == a + init;
      OriginQueryWeightAppend(a, init);
      var x, y, z := OriginQueryWeight(a), OriginQueryWeight(init), last.queryWeight;
      assert (x * y) * z == x * (y * z);
    }
  }

  /** Weights in [0, 1] give an origin weight in [0, 1]. */
  lemma {:induction false} OriginQueryWeightBounded(rescorers: seq<Rescorer>)
    requires forall i :: 0 <= i < |rescorers| ==> 0.0 <= rescorers[i].queryWeight <= 1.0
    ensures 0.0 <= OriginQueryWeight(rescorers) <= 1.0
    decreases |rescorers|
  {
    if rescorers != [] {
      var init := rescorers[..|rescorers| - 1];
      OriginQueryWeightBounded(init);
      var x, y := OriginQueryWeight(init), rescorers[|rescorers| - 1].queryWeight;
      assert OriginQueryWeight(rescorers) == Weigh(x, y);
      assert 0.0 <= x * y <= x * 1.0;
    }
  }

  /** Java's `(int)` cast of a real value: truncation toward zero. */
  function TruncateTowardZero(x: real): (n: int)
    ensures 0.0 <= x ==> n as real <= x < n as real + 1.0
    ensures x < 0.0 ==> n as real - 1.0 < x <= n as real
  {
    if x >= 0.0 then x.Floor else -((-x).Floor)
  }

  /** The size the window is expanded from: the request size, or 10 when it is not set. */
  function BaseSize(requestSize: int): int
  {
    if requestSize == UNSET_SIZE then DEFAULT_BASE_QUERY_SIZE else requestSize
  }

  /**
   * The rescore window: the base size times the expansion, truncated; rejected
   * when it falls outside [0, maxWindowSize].
   */
  function WindowSize(requestSize: int, windowExpansion: real, maxWindowSize: int): (r: Result<int, Error>)
    ensures r.Success? ==> 0 <= r.value <= maxWindowSize
    ensures r.Success? ==> r.value == TruncateTowardZero(BaseSize(requestSize) as real * windowExpansion)
    ensures r.Failure? ==> r.error == WindowSizeOutOfRange(TruncateTowardZero(BaseSize(requestSize) as real * windowExpansion), maxWindowSize)
    ensures r.Success? <==>
      0 <= maxWindowSize && -1.0 < BaseSize(requestSize) as real * windowExpansion < maxWindowSize as real + 1.0
  {
    var windowSize := TruncateTowardZero(BaseSize(requestSize) as real * windowExpansion);
    if windowSize > maxWindowSize || windowSize < 0 then Failure(WindowSizeOutOfRange(windowSize, maxWindowSize))
    else Success(windowSize)
  }

  /** Size 10 (or unset) with expansion 5 gives a window of 50, accepted under 10000 and rejected under 40. */
  lemma WindowSizeExamples()
    ensures WindowSize(10, 5.0, 10000) == Success(50)
    ensures WindowSize(UNSET_SIZE, 5.0, 10000) == Success(50)
    ensures WindowSize(10, 5.0, 40) == Failure(WindowSizeOutOfRange(50, 40))
  {
  }

  /**
   * The two-phase rescorer over `composite`, with the validated window size and
   * the engine's default query weight.
   */
  function BuildTwoPhaseRescorer(composite: Query, requestSize: int, windowExpansion: real, maxWindowSize: int): (r: Result<Rescorer, Error>)
    ensures r.Success? <==> WindowSize(requestSize, windowExpansion, maxWindowSize).Success?
    ensures r.Success? ==> r.value.rescoreQuery == composite && r.value.queryWeight == DEFAULT_QUERY_WEIGHT
    ensures r.Success? ==> r.value.windowSize == WindowSize(requestSize, windowExpansion, maxWindowSize).value
    ensures r.Failure? ==> r.error == WindowSize(requestSize, windowExpansion, maxWindowSize).error
  {
    match WindowSize(requestSize, windowExpansion, maxWindowSize)
    case Failure(e) => Failure(e)
    case Success(windowSize) => Success(Rescorer(composite, windowSize, DEFAULT_QUERY_WEIGHT))
  }
}
