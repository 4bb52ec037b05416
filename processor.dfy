/**
 * The neural sparse two-phase search request processor: its configuration and
 * validation, its factory defaults, and the rewrite of a search request that
 * attaches the two-phase rescorer.
 */
module TwoPhaseProcessor {
  import opened Results
  import opened Queries
  import opened QueryWalk
  import opened Aggregation
  import opened Rescoring

  const DEFAULT_ENABLED: bool := true
  const DEFAULT_RATIO: real := 0.4
  const DEFAULT_WINDOW_EXPANSION: real := 5.0
  const DEFAULT_MAX_WINDOW_SIZE: int := 10000
  const MAX_WINDOWS_SIZE_LOWER_BOUND: int := 50
  const WINDOW_EXPANSION_LOWER_BOUND: real := 1.0
  const RATIO_LOWER_BOUND: real := 0.0
  const RATIO_UPPER_BOUND: real := 1.0

  /** The processor's settings. */
  datatype TwoPhaseConfig = TwoPhaseConfig(enabled: bool, ratio: real, windowExpansion: real, maxWindowSize: int)

  /** The settings construction accepts. */
  predicate ValidConfig(c: TwoPhaseConfig)
  {
    && RATIO_LOWER_BOUND <= c.ratio <= RATIO_UPPER_BOUND
    && c.windowExpansion >= WINDOW_EXPANSION_LOWER_BOUND
    && c.maxWindowSize >= MAX_WINDOWS_SIZE_LOWER_BOUND
  }

  /**
   * Construction-time validation, in the constructor's order: the ratio, then
   * the window expansion, then the maximum window size.
   */
  function CheckConfig(enabled: bool, ratio: real, windowExpansion: real, maxWindowSize: int): (r: Result<TwoPhaseConfig, Error>)
    ensures r.Success? <==> ValidConfig(TwoPhaseConfig(enabled, ratio, windowExpansion, maxWindowSize))
    ensures r.Success? ==> r.value == TwoPhaseConfig(enabled, ratio, windowExpansion, maxWindowSize)
    ensures !(0.0 <= ratio <= 1.0) ==> r == Failure(RatioOutOfRange(ratio))
    ensures 0.0 <= ratio <= 1.0 && windowExpansion < 1.0 ==> r == Failure(ExpansionTooSmall(windowExpansion))
    ensures 0.0 <= ratio <= 1.0 && windowExpansion >= 1.0 && maxWindowSize < 50
      ==> r == Failure(MaxWindowSizeTooSmall(maxWindowSize))
  {
    if ratio < RATIO_LOWER_BOUND || ratio > RATIO_UPPER_BOUND then Failure(RatioOutOfRange(ratio))
    else if windowExpansion < WINDOW_EXPANSION_LOWER_BOUND then Failure(ExpansionTooSmall(windowExpansion))
    else if maxWindowSize < MAX_WINDOWS_SIZE_LOWER_BOUND then Failure(MaxWindowSizeTooSmall(maxWindowSize))
    else Success(TwoPhaseConfig(enabled, ratio, windowExpansion, maxWindowSize))
  }

  /** The optional `two_phase_parameter` entries of a pipeline configuration. */
  datatype TwoPhaseParameter = TwoPhaseParameter(pruneRatio: Option<real>, expansionRate: Option<real>, maxWindowSize: Option<int>)

  /** A pipeline configuration: the optional `enabled` flag and `two_phase_parameter` map. */
  datatype ProcessorConfig = ProcessorConfig(enabled: Option<bool>, twoPhaseParameter: Option<TwoPhaseParameter>)

  function GetOrDefault<T>(o: Option<T>, default: T): T
  {
    if o.Some? then o.value else default
  }

  /** The settings the factory hands to the constructor, with its defaults for what is missing. */
  function FactoryArguments(config: ProcessorConfig): (c: TwoPhaseConfig)
    ensures c.enabled == (config.enabled.None? || config.enabled.value)
    ensures config.twoPhaseParameter.None? ==> c.ratio == 0.4 && c.windowExpansion == 5.0 && c.maxWindowSize == 10000
    ensures config.twoPhaseParameter.Some? ==>
      var p := config.twoPhaseParameter.value;
      && c.ratio == (if p.pruneRatio.Some? then p.pruneRatio.value else 0.4)
      && c.windowExpansion == (if p.expansionRate.Some? then p.expansionRate.value else 5.0)
      && c.maxWindowSize == (if p.maxWindowSize.Some? then p.maxWindowSize.value else 10000)
  {
    var enabled := GetOrDefault(config.enabled, DEFAULT_ENABLED);
    match config.twoPhaseParameter
    case None => TwoPhaseConfig(enabled, DEFAULT_RATIO, DEFAULT_WINDOW_EXPANSION, DEFAULT_MAX_WINDOW_SIZE)
    case Some(p) =>
      TwoPhaseConfig(enabled,
                     GetOrDefault(p.pruneRatio, DEFAULT_RATIO),
                     GetOrDefault(p.expansionRate, DEFAULT_WINDOW_EXPANSION),
                     GetOrDefault(p.maxWindowSize, DEFAULT_MAX_WINDOW_SIZE))
  }

  /** A configuration that sets nothing yields enabled, ratio 0.4, expansion 5 and maximum window 10000, which validate. */
  lemma FactoryDefaults(parameter: Option<TwoPhaseParameter>)
    requires parameter.None? || parameter == Some(TwoPhaseParameter(None, None, None))
    ensures FactoryArguments(ProcessorConfig(None, parameter)) == TwoPhaseConfig(true, 0.4, 5.0, 10000)
    ensures CheckConfig(true, 0.4, 5.0, 10000) == Success(TwoPhaseConfig(true, 0.4, 5.0, 10000))
  {
  }

  /** Each entry the configuration sets overrides exactly its own default. */
  lemma FactoryOverrides(enabled: bool, ratio: real, expansion: real, maxWindowSize: int)
    ensures FactoryArguments(ProcessorConfig(Some(enabled), Some(TwoPhaseParameter(Some(ratio), None, None))))
         == TwoPhaseConfig(enabled, ratio, DEFAULT_WINDOW_EXPANSION, DEFAULT_MAX_WINDOW_SIZE)
    ensures FactoryArguments(ProcessorConfig(None, Some(TwoPhaseParameter(None, Some(expansion), None))))
         == TwoPhaseConfig(DEFAULT_ENABLED, DEFAULT_RATIO, expansion, DEFAULT_MAX_WINDOW_SIZE)
    ensures FactoryArguments(ProcessorConfig(None, Some(TwoPhaseParameter(None, None, Some(maxWindowSize)))))
         == TwoPhaseConfig(DEFAULT_ENABLED, DEFAULT_RATIO, DEFAULT_WINDOW_EXPANSION, maxWindowSize)
  {
  }

  /** The two-phase composite: one `should` clause per grouped copy, boosted by the origin query weight. */
  function TwoPhaseComposite(entries: seq<Entry>, rescorers: seq<Rescorer>): Query
  {
    Bool([], [], [], ShouldClauses(Grouped(entries)), OriginQueryWeight(rescorers))
  }

  /**
   * The rescorer list a request ends up with under `c`, or the error that
   * rejects it.
   */
  ghost function ProcessedRescorers(c: TwoPhaseConfig, query: Query, size: int, rescorers: seq<Rescorer>): Result<seq<Rescorer>, Error>
  {
    if !c.enabled || c.ratio == 0.0 then Success(rescorers)
    else
      var entries := Collected(query, 1.0, c.ratio);
      if entries == [] then Success(rescorers)
      else
        match BuildTwoPhaseRescorer(TwoPhaseComposite(entries, rescorers), size, c.windowExpansion, c.maxWindowSize)
        case Failure(e) => Failure(e)
        case Success(rescorer) => Success(rescorers + [rescorer])
  }

  /** Disabled, ratio 0, or no sparse clause reachable: the rescorers are left as they are. */
  lemma PassThrough(c: TwoPhaseConfig, query: Query, size: int, rescorers: seq<Rescorer>)
    requires !c.enabled || c.ratio == 0.0 || Collected(query, 1.0, c.ratio) == []
    ensures ProcessedRescorers(c, query, size, rescorers) == Success(rescorers)
  {
  }

  /** A query tree with no sparse clause reachable through `should` children is passed through, whatever the settings. */
  lemma NoSparseClausePassesThrough(c: TwoPhaseConfig, query: Query, size: int, rescorers: seq<Rescorer>)
    requires forall path: seq<nat> :: Reach(query, path, 1.0).Some? ==> !Reach(query, path, 1.0).value.0.Sparse?
    ensures ProcessedRescorers(c, query, size, rescorers) == Success(rescorers)
  {
    var entries := Collected(query, 1.0, c.ratio);
    if entries != [] {
      CollectSound(query, 1.0, c.ratio, entries[0]);
      assert false;
    }
  }

  /**
   * Two equal sparse clauses at different places of the tree are collected
   * twice and merge into one `should` clause of the composite whose boost is
   * the sum of theirs.
   */
  lemma DuplicateClausesMerge(field: string, tokens: TokenMap, x: real, y: real, ratio: real)
    ensures var query := Bool([], [], [], [Sparse(field, tokens, x), Opaque, Sparse(field, tokens, y)], 1.0);
      && |Collected(query, 1.0, ratio)| == 2
      && ShouldClauses(Grouped(Collected(query, 1.0, ratio)))
         == [Sparse(field, TwoPhaseCopy(field, tokens, ratio).lowTokens, x + y)]
  {
    var first, second := Sparse(field, tokens, x), Sparse(field, tokens, y);
    var children := [first, Opaque, second];
    var query := Bool([], [], [], children, 1.0);
    var key := TwoPhaseCopy(field, tokens, ratio);
    var b := Compose(1.0, 1.0);
    assert Compose(b, x) == x && Compose(b, y) == y;
    assert children[1..] == [Opaque, second] && children[1..][1..] == [second] && [second][1..] == [];
    assert Collected(first, b, ratio) == [(key, x)] && Collected(second, b, ratio) == [(key, y)];
    assert CollectedAll([second], b, ratio) == [(key, y)];
    assert CollectedAll([Opaque, second], b, ratio) == [(key, y)];
    assert Collected(query, 1.0, ratio) == CollectedAll(children, b, ratio) == [(key, x), (key, y)];
    var es := [(key, x), (key, y)];
    assert es[..1] == [(key, x)] && [(key, x)][..0] == [];
    assert Grouped([(key, x)]) == [(key, x)];
    assert Grouped(es) == [(key, x + y)];
  }

  /**
   * Otherwise exactly one rescorer is appended and the existing ones are kept:
   * the grouped composite, boosted by the origin query weight, over the
   * validated window; when the window is out of range the request is rejected.
   */
  lemma AppendsOneRescorer(c: TwoPhaseConfig, query: Query, size: int, rescorers: seq<Rescorer>)
    requires c.enabled && c.ratio != 0.0 && Collected(query, 1.0, c.ratio) != []
    ensures var r := ProcessedRescorers(c, query, size, rescorers);
      && (r.Success? <==> WindowSize(size, c.windowExpansion, c.maxWindowSize).Success?)
      && (r.Failure? ==> r.error.WindowSizeOutOfRange?)
      && (r.Success? ==>
            && |r.value| == |rescorers| + 1
            && r.value[..|rescorers|] == rescorers
            && var added := r.value[|rescorers|];
               && added.rescoreQuery.Bool?
               && added.rescoreQuery.boost == OriginQueryWeight(rescorers)
               && added.rescoreQuery.should == ShouldClauses(Grouped(Collected(query, 1.0, c.ratio)))
               && added.windowSize == WindowSize(size, c.windowExpansion, c.maxWindowSize).value
               && 0 <= added.windowSize <= c.maxWindowSize
               && added.queryWeight == DEFAULT_QUERY_WEIGHT)
  {
  }

  /** A search request: its query, its requested size (-1 when unset) and its rescorers. */
  class SearchRequest {
    var query: Query
    var size: int
    var rescorers: seq<Rescorer>

    constructor (query: Query, size: int, rescorers: seq<Rescorer>)
      ensures this.query == query && this.size == size && this.rescorers == rescorers
    {
      this.query := query;
      this.size := size;
      this.rescorers := rescorers;
    }

    /** Appends a rescorer to the request. */
    method AddRescorer(rescorer: Rescorer)
      modifies this
      ensures rescorers == old(rescorers) + [rescorer]
      ensures query == old(query) && size == old(size)
    {
      rescorers := rescorers + [rescorer];
    }
  }

  /** The processor, whose settings can be reassigned after construction. */
  class NeuralSparseTwoPhaseProcessor {
    var enabled: bool
    var ratio: real
    var windowExpansion: real
    var maxWindowSize: int

    function Config(): TwoPhaseConfig
      reads this
    {
      TwoPhaseConfig(enabled, ratio, windowExpansion, maxWindowSize)
    }

    /** Stores validated settings. */
    constructor (config: TwoPhaseConfig)
      requires ValidConfig(config)
      ensures Config() == config
    {
      enabled := config.enabled;
      ratio := config.ratio;
      windowExpansion := config.windowExpansion;
      maxWindowSize := config.maxWindowSize;
    }

    /**
     * Creates a processor after validating its settings; invalid settings are
     * an argument error and no processor is created.
     */
    static method Create(enabled: bool, ratio: real, windowExpansion: real, maxWindowSize: int)
      returns (r: Result<NeuralSparseTwoPhaseProcessor, Error>)
      ensures r.Success? <==> CheckConfig(enabled, ratio, windowExpansion, maxWindowSize).Success?
      ensures r.Success? ==> fresh(r.value) && r.value.Config() == TwoPhaseConfig(enabled, ratio, windowExpansion, maxWindowSize)
      ensures r.Failure? ==> r.error == CheckConfig(enabled, ratio, windowExpansion, maxWindowSize).error
    {
      var checked := CheckConfig(enabled, ratio, windowExpansion, maxWindowSize);
      if checked.Failure? {
        return Failure(checked.error);
      }
      var p := new NeuralSparseTwoPhaseProcessor(checked.value);
      return Success(p);
    }

    method SetEnabled(value: bool)
      modifies this
      ensures Config() == old(Config()).(enabled := value)
    {
      enabled := value;
    }

    method SetRatio(value: real)
      modifies this
      ensures Config() == old(Config()).(ratio := value)
    {
      ratio := value;
    }

    method SetWindowExpansion(value: real)
      modifies this
      ensures Config() == old(Config()).(windowExpansion := value)
    {
      windowExpansion := value;
    }

    method SetMaxWindowSize(value: int)
      modifies this
      ensures Config() == old(Config()).(maxWindowSize := value)
    {
      maxWindowSize := value;
    }

    /**
     * Rewrites `request`: unless disabled, at ratio 0, or without a reachable
     * sparse clause, appends the two-phase rescorer; a window out of range
     * rejects the request and leaves it as it was.
     */
    method ProcessRequest(request: SearchRequest) returns (r: Result<SearchRequest, Error>)
      modifies request
      ensures request.query == old(request.query) && request.size == old(request.size)
      ensures var expected := ProcessedRescorers(Config(), request.query, request.size, old(request.rescorers));
        && (r.Success? <==> expected.Success?)
        && (r.Success? ==> r.value == request && request.rescorers == expected.value)
        && (r.Failure? ==> r.error == expected.error && request.rescorers == old(request.rescorers))
    {
      if !enabled || ratio == 0.0 {
        return Success(request);
      }
      var entries := CollectNeuralSparseQueries(request.query, 1.0, ratio);
      if entries == [] {
        return Success(request);
      }
      var nested := BuildNestedQuery(entries);
      nested := Bool(nested.must, nested.filter, nested.mustNot, nested.should, OriginQueryWeight(request.rescorers));
      var twoPhaseRescorer := BuildTwoPhaseRescorer(nested, request.size, windowExpansion, maxWindowSize);
      if twoPhaseRescorer.Failure? {
        return Failure(twoPhaseRescorer.error);
      }
      request.AddRescorer(twoPhaseRescorer.value);
      return Success(request);
    }
  }

  /**
   * The factory: reads the configuration with its defaults and creates the
   * processor, or reports the validation error.
   */
  method FactoryCreate(config: ProcessorConfig) returns (r: Result<NeuralSparseTwoPhaseProcessor, Error>)
    ensures var c := FactoryArguments(config);
      && (r.Success? <==> ValidConfig(c))
      && (r.Success? ==> fresh(r.value) && r.value.Config() == c)
      && (r.Failure? ==> r.error == CheckConfig(c.enabled, c.ratio, c.windowExpansion, c.maxWindowSize).error)
  {
    var c := FactoryArguments(config);
    r := NeuralSparseTwoPhaseProcessor.Create(c.enabled, c.ratio, c.windowExpansion, c.maxWindowSize);
  }
}
