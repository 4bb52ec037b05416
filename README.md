# Neural sparse two-phase search request processor, in Dafny

This project models the search request processor
`NeuralSparseTwoPhaseProcessor` of the OpenSearch neural-search plugin. The
processor speeds up neural sparse queries by scoring them in two phases.

- It walks the query tree through the `should` children of boolean queries.
  It multiplies the boosts along the way.
- It splits each neural sparse clause's token→weight map at `ratio` times the
  largest weight (or 0, when every weight is negative).
- It collects one two-phase copy of every clause it finds, keyed by the
  clause's field and low-score tokens.
- It merges equal copies by summing their boosts into one boolean `should`
  composite. The composite's boost is the product of the query weights of the
  rescorers already on the request.
- It appends one query rescorer whose window is the request size (10 when
  unset) times the expansion rate, truncated. The request is rejected when
  that window is outside `[0, max_window_size]`.

Construction validates the settings: `prune_ratio` in [0, 1],
`expansion_rate` ≥ 1 and `max_window_size` ≥ 50. The factory's defaults are
enabled, 0.4, 5.0 and 10000.

Modules, one per part of the processor:

- `Results`: `Option` and `Result`, for Java's null and `IllegalArgumentException`.
- `Queries`: the query tree (`Bool`, `Sparse`, `Opaque`), rescorers, two-phase keys and errors.
- `TokenSplit`: the ratioed-max-score split. The compiled split is a method
  with the source's scan for the maximum. It is proved against the
  specification functions `MaxOrZero`, `Threshold` and `Partition`.
- `QueryWalk`: the recursive walk, a method with a loop over the `should`
  children. It is proved equal to the ghost function `Collected`. A
  path-based reference (`Reach`, `EmitsAt`) describes which clauses are
  reachable, and `Collected` is proved sound and complete against it.
  `SparsePaths` lists the distinct `should`-paths to sparse clauses in walk
  order, and the walk collects exactly one entry per path.
- `Aggregation`: grouping by copy with summed boosts (`Grouped`), proved
  against the reference sum `BoostSum`, and the method that builds the
  `should` composite.
- `Rescoring`: the origin query weight, Java's truncating `(int)` cast, the
  window size and its range check, and the rescorer.
- `TwoPhaseProcessor`: settings validation, factory defaults, the
  `SearchRequest` and processor classes, and `ProcessRequest`. The method
  appends to the request's rescorer list and is proved against the ghost
  function `ProcessedRescorers`.

Notes on the source's behaviour:

- The window size is truncated toward zero by Java's `(int)` cast.
- The scan for the largest weight starts at 0, so the threshold is `ratio`
  times the maximum of 0 and every weight. With all weights negative the
  threshold is 0 and every token is low.
- At ratio 1 only the tokens tied with the maximum stay high, and this holds
  unless every weight is negative (`RatioOneKeepsMaxima` requires one
  non-negative weight; `AllNegativeAllLow` shows the exception).

## Model

| member | source | states |
|---|---|---|
| `TokenSplit.MaxOrZero` | src/main/java/org/opensearch/neuralsearch/processor/NeuralSparseTwoPhaseProcessor.java:134-137 | the scan's result is ≥ 0, ≥ every weight, and is 0 or one of the weights |
| `TokenSplit.Partition` | src/main/java/org/opensearch/neuralsearch/processor/NeuralSparseTwoPhaseProcessor.java:140-147 | high and low are disjoint, together hold exactly the input tokens with unchanged weights, and a token is high iff its weight ≥ the threshold |
| `TokenSplit.SplitQueryTokens` | src/main/java/org/opensearch/neuralsearch/processor/NeuralSparseTwoPhaseProcessor.java:127-155 | an absent token map is an argument error; otherwise the result is the partition at `ratio` × the scanned maximum |
| `TokenSplit.SplitEmpty` | src/main/java/org/opensearch/neuralsearch/processor/NeuralSparseTwoPhaseProcessor.java:148-154 | an empty token map splits into two empty maps |
| `TokenSplit.MaxTokenIsHigh` | src/main/java/org/opensearch/neuralsearch/processor/NeuralSparseTwoPhaseProcessor.java:134-143 | with ratio in [0, 1], a non-negative token of maximum weight is always high |
| `TokenSplit.RatioZeroKeepsAllHigh` | src/main/java/org/opensearch/neuralsearch/processor/NeuralSparseTwoPhaseProcessor.java:138-143 | with ratio 0 and no negative weight, every token is high and the low map is empty |
| `TokenSplit.RatioOneKeepsMaxima` | src/main/java/org/opensearch/neuralsearch/processor/NeuralSparseTwoPhaseProcessor.java:138-143 | with ratio 1 and at least one non-negative weight, a token is high iff no weight exceeds it |
| `TokenSplit.AllNegativeAllLow` | src/main/java/org/opensearch/neuralsearch/processor/NeuralSparseTwoPhaseProcessor.java:134-143 | with every weight negative the scan yields 0, so at any ratio every token, the maximum included, is low |
| `TokenSplit.SplitExample` | src/main/java/org/opensearch/neuralsearch/processor/NeuralSparseTwoPhaseProcessor.java:134-147 | {a: 1.0, b: 0.5, c: 0.2} at ratio 0.4 gives high {a, b} and low {c} |
| `QueryWalk.CollectNeuralSparseQueries` | src/main/java/org/opensearch/neuralsearch/processor/NeuralSparseTwoPhaseProcessor.java:178-210 | the walk's entries, in the order the walk reaches the clauses (the puts at :205), are exactly `Collected` of the query and base boost: one entry per `should`-path to a sparse clause, the i-th being that clause's copy and path boost; the multimap keeps that order within each copy |
| `QueryWalk.CollectedAllAppend` | src/main/java/org/opensearch/neuralsearch/processor/NeuralSparseTwoPhaseProcessor.java:184-187 | the entries of a run of `should` children are those of the earlier children followed by the next child's |
| `QueryWalk.CollectComplete` | src/main/java/org/opensearch/neuralsearch/processor/NeuralSparseTwoPhaseProcessor.java:181-206 | every sparse clause reachable through `should` children is collected, with its copy and the product of the boosts on its path |
| `QueryWalk.CollectSound` | src/main/java/org/opensearch/neuralsearch/processor/NeuralSparseTwoPhaseProcessor.java:181-209 | every collected entry comes from a sparse clause reachable through `should` children only, with its path's boost product; other kinds and other children contribute nothing |
| `QueryWalk.SparsePathsEmit` | src/main/java/org/opensearch/neuralsearch/processor/NeuralSparseTwoPhaseProcessor.java:181-206 | the number of collected entries equals the number of `should`-paths to sparse clauses, and the i-th entry is the copy and boost product of the clause at the i-th path, so a clause occurring twice is collected twice |
| `QueryWalk.SparsePathsDistinct` | src/main/java/org/opensearch/neuralsearch/processor/NeuralSparseTwoPhaseProcessor.java:184-187 | the paths the walk visits are pairwise distinct, so each entry stands for its own clause occurrence |
| `QueryWalk.SparsePathsComplete` | src/main/java/org/opensearch/neuralsearch/processor/NeuralSparseTwoPhaseProcessor.java:181-206 | every `should`-path that reaches a sparse clause is among the walk's paths |
| `QueryWalk.NestedBoostsMultiply` | src/main/java/org/opensearch/neuralsearch/processor/NeuralSparseTwoPhaseProcessor.java:183-190 | a clause with boost b3 under boolean nodes with boosts b1 and b2 is collected with b1 × b2 × b3 |
| `Aggregation.AddBoost` | src/main/java/org/opensearch/neuralsearch/processor/NeuralSparseTwoPhaseProcessor.java:161-163 | adding one entry keeps copies distinct, adds its copy to the key set, adds its boost to that copy's group only, and adds it to the total |
| `Aggregation.Grouped` | src/main/java/org/opensearch/neuralsearch/processor/NeuralSparseTwoPhaseProcessor.java:157-166 | one group per distinct collected copy, each copy's boost equals the sum of its collected boosts, and the total boost is preserved |
| `Aggregation.GroupedSums` | src/main/java/org/opensearch/neuralsearch/processor/NeuralSparseTwoPhaseProcessor.java:161-163 | each group's boost is the in-order sum from 0 of every boost collected under its copy |
| `Aggregation.DuplicatesMerge` | src/main/java/org/opensearch/neuralsearch/processor/NeuralSparseTwoPhaseProcessor.java:161-163 | equal copies collected with boosts x and y, with another copy between them, merge into one clause with boost x + y |
| `TwoPhaseProcessor.DuplicateClausesMerge` | src/main/java/org/opensearch/neuralsearch/processor/NeuralSparseTwoPhaseProcessor.java:184-187 | two equal sparse clauses with boosts x and y at different places of one boolean query give two entries and one composite `should` clause with boost x + y |
| `Aggregation.ShouldClauses` | src/main/java/org/opensearch/neuralsearch/processor/NeuralSparseTwoPhaseProcessor.java:163 | one `should` clause per group |
| `Aggregation.BuildNestedQuery` | src/main/java/org/opensearch/neuralsearch/processor/NeuralSparseTwoPhaseProcessor.java:157-166 | the composite is a boolean query whose `should` clauses are the grouped copies boosted by their sums |
| `Rescoring.OriginQueryWeight` | src/main/java/org/opensearch/neuralsearch/processor/NeuralSparseTwoPhaseProcessor.java:168-176 | no rescorer gives 1, and a single rescorer gives exactly its own query weight |
| `Rescoring.OriginQueryWeightFactors` | src/main/java/org/opensearch/neuralsearch/processor/NeuralSparseTwoPhaseProcessor.java:172-175 | any rescorer with query weight 0 makes the origin weight 0; rescorers that all weigh 1 leave it at 1 |
| `Rescoring.OriginQueryWeightAppend` | src/main/java/org/opensearch/neuralsearch/processor/NeuralSparseTwoPhaseProcessor.java:168-176 | the weight of concatenated rescorer lists is the product of their weights |
| `Rescoring.OriginQueryWeightBounded` | src/main/java/org/opensearch/neuralsearch/processor/NeuralSparseTwoPhaseProcessor.java:172-175 | query weights in [0, 1] give an origin weight in [0, 1] |
| `Rescoring.TruncateTowardZero` | src/main/java/org/opensearch/neuralsearch/processor/NeuralSparseTwoPhaseProcessor.java:218 | the cast drops the fraction toward zero: within 1 of the value, never further from zero |
| `Rescoring.WindowSize` | src/main/java/org/opensearch/neuralsearch/processor/NeuralSparseTwoPhaseProcessor.java:217-228 | the window is the truncated base size × expansion, base 10 when unset; accepted iff it lies in [0, maxWindowSize], that is iff 0 ≤ maxWindowSize and the product lies in (-1, maxWindowSize + 1) |
| `Rescoring.WindowSizeExamples` | src/main/java/org/opensearch/neuralsearch/processor/NeuralSparseTwoPhaseProcessor.java:217-228 | size 10 or unset with expansion 5 gives 50; a maximum of 40 rejects it |
| `Rescoring.BuildTwoPhaseRescorer` | src/main/java/org/opensearch/neuralsearch/processor/NeuralSparseTwoPhaseProcessor.java:212-231 | the rescorer carries the composite and the validated window, or the window error |
| `TwoPhaseProcessor.CheckConfig` | src/main/java/org/opensearch/neuralsearch/processor/NeuralSparseTwoPhaseProcessor.java:58-87 | settings are accepted iff ratio ∈ [0, 1], expansion ≥ 1 and max window ≥ 50, and then kept as given; otherwise the first failing check names the error |
| `TwoPhaseProcessor.NeuralSparseTwoPhaseProcessor.Create` | src/main/java/org/opensearch/neuralsearch/processor/NeuralSparseTwoPhaseProcessor.java:58-87 | a processor is created iff the settings validate, with fields equal to the arguments; otherwise the validation error |
| `TwoPhaseProcessor.NeuralSparseTwoPhaseProcessor.constructor` | src/main/java/org/opensearch/neuralsearch/processor/NeuralSparseTwoPhaseProcessor.java:67-86 | the fields hold the validated settings |
| `TwoPhaseProcessor.FactoryArguments` | src/main/java/org/opensearch/neuralsearch/processor/NeuralSparseTwoPhaseProcessor.java:248-258 | `enabled` defaults to true; without `two_phase_parameter` the ratio, expansion and maximum window are 0.4, 5.0 and 10000; with it, each entry present is taken as given and each missing one falls back to its default |
| `TwoPhaseProcessor.FactoryDefaults` | src/main/java/org/opensearch/neuralsearch/processor/NeuralSparseTwoPhaseProcessor.java:248-260 | with nothing configured the factory passes enabled, 0.4, 5.0 and 10000, which validate |
| `TwoPhaseProcessor.FactoryOverrides` | src/main/java/org/opensearch/neuralsearch/processor/NeuralSparseTwoPhaseProcessor.java:254-258 | each configured entry replaces only its own default |
| `TwoPhaseProcessor.FactoryCreate` | src/main/java/org/opensearch/neuralsearch/processor/NeuralSparseTwoPhaseProcessor.java:239-261 | the factory creates a processor with the defaulted settings iff they validate, else reports the validation error |
| `TwoPhaseProcessor.PassThrough` | src/main/java/org/opensearch/neuralsearch/processor/NeuralSparseTwoPhaseProcessor.java:95-105 | disabled, ratio 0, or nothing collected: the rescorers are unchanged |
| `TwoPhaseProcessor.NoSparseClausePassesThrough` | src/main/java/org/opensearch/neuralsearch/processor/NeuralSparseTwoPhaseProcessor.java:102-105 | a query tree in which no `should`-path reaches a sparse clause leaves the rescorers unchanged under any settings |
| `TwoPhaseProcessor.AppendsOneRescorer` | src/main/java/org/opensearch/neuralsearch/processor/NeuralSparseTwoPhaseProcessor.java:106-112 | otherwise exactly one rescorer is appended after the existing ones: the grouped composite boosted by the origin query weight, with the window `WindowSize` computes (in [0, max]) and the default query weight; the request is rejected iff the window is out of range |
| `TwoPhaseProcessor.SearchRequest.AddRescorer` | src/main/java/org/opensearch/neuralsearch/processor/NeuralSparseTwoPhaseProcessor.java:111 | the rescorer is appended and the query and size stay |
| `TwoPhaseProcessor.NeuralSparseTwoPhaseProcessor.ProcessRequest` | src/main/java/org/opensearch/neuralsearch/processor/NeuralSparseTwoPhaseProcessor.java:95-113 | the request's rescorers become `ProcessedRescorers` of the settings, query, size and old rescorers; on an error they are untouched; query and size never change; on success the same request is returned |
| `TwoPhaseProcessor.NeuralSparseTwoPhaseProcessor.SetEnabled` | src/main/java/org/opensearch/neuralsearch/processor/NeuralSparseTwoPhaseProcessor.java:34-39 | the setter changes `enabled` only, without validation |
| `TwoPhaseProcessor.NeuralSparseTwoPhaseProcessor.SetRatio` | src/main/java/org/opensearch/neuralsearch/processor/NeuralSparseTwoPhaseProcessor.java:34-40 | the setter changes `ratio` only, without validation |
| `TwoPhaseProcessor.NeuralSparseTwoPhaseProcessor.SetWindowExpansion` | src/main/java/org/opensearch/neuralsearch/processor/NeuralSparseTwoPhaseProcessor.java:34-41 | the setter changes `windowExpansion` only, without validation |
| `TwoPhaseProcessor.NeuralSparseTwoPhaseProcessor.SetMaxWindowSize` | src/main/java/org/opensearch/neuralsearch/processor/NeuralSparseTwoPhaseProcessor.java:34-42 | the setter changes `maxWindowSize` only, without validation |

## Left out

- Java `float` arithmetic: weights, ratio, boosts, expansion and query weights are exact `real`s, so IEEE-754 rounding is not modelled (0.4f is not exactly 0.4). NaN and the infinities are not modelled either: a NaN ratio or expansion would pass the constructor's checks, because every comparison with NaN is false.
- Rescoring.TruncateTowardZero: does not model the saturation of Java's `(int)` cast at the `int` limits. The request size is not bounded to Java's `int` range, and its conversion to `float` before the multiplication is not modelled; integers are unbounded.
- NeuralSparseQueryBuilder is not part of this model. Its two-phase copy is represented by the key (field, low-score tokens of the split), and equality of copies is equality of these keys. The copy also prunes the original clause down to its high-score tokens. That pruning happens inside the builder, so the model's query tree stays unchanged.
- A sparse clause whose tokens are not yet known (still to be produced by a model) is not modelled: every `Sparse` node carries its token map.
- The multimap is keyed by a hash map, so the order of the composite's `should` clauses is unspecified. The model fixes it to the order in which each copy is first collected.
- `rescores()` returning null and returning an empty list both give weight 1. The model has only the list. A rescorer that is not a query rescorer would fail the cast; the model has only query rescorers.
- A request without a source (`request.source()` null) is not modelled. An absent query behaves like `Opaque`: nothing is collected.
- The factory's `ConfigurationUtils` reading is not part of this model. Entries of the wrong type, a non-map `two_phase_parameter` and `Number.intValue()` truncation of a non-integral `max_window_size` are not modelled. The configuration arrives as typed optional fields.
- TwoPhaseProcessor.NeuralSparseTwoPhaseProcessor.constructor: requires validated settings; the validation the Java constructor performs is modelled by `Create`, which returns the error instead of throwing.
- The processor's tag, description and `ignoreFailure` flag, `getType` and the Lombok getters carry no behaviour and are left out.
- The integration tests and the REST client of the repository do network I/O and are left out.
