/**
 * The values the two-phase processor reads and builds: query trees, rescorers,
 * the keys under which two-phase clause copies are collected, and the
 * processor's errors.
 */
module Queries {

  /** A sparse clause's token-to-weight mapping. */
  type TokenMap = map<string, real>

  /**
   * The query tree, closed over the node kinds the processor tells apart:
   * a boolean composition (only its `should` children are walked), a neural
   * sparse clause, and every other query kind.
   */
  datatype Query =
    | Bool(must: seq<Query>, filter: seq<Query>, mustNot: seq<Query>, should: seq<Query>, boost: real)
    | Sparse(field: string, tokens: TokenMap, boost: real)
    | Opaque

  /** A query rescorer attached to a search request. */
  datatype Rescorer = Rescorer(rescoreQuery: Query, windowSize: int, queryWeight: real)

  /**
   * The two-phase copy of a sparse clause, as an aggregation key: its field and
   * the low-score tokens it keeps for the second phase.
   */
  datatype TwoPhaseKey = TwoPhaseKey(field: string, lowTokens: TokenMap)

  /** One collected entry: a two-phase copy and the boost reaching it. */
  type Entry = (TwoPhaseKey, real)

  /** The processor's argument errors (all `IllegalArgumentException` in the source). */
  datatype Error =
    | RatioOutOfRange(ratio: real)
    | ExpansionTooSmall(windowExpansion: real)
    | MaxWindowSizeTooSmall(maxWindowSize: int)
    | NullQueryTokens
    | WindowSizeOutOfRange(windowSize: int, maxWindowSize: int)

  /** The engine's default query weight of a fresh query rescorer. */
  const DEFAULT_QUERY_WEIGHT: real := 1.0
}
