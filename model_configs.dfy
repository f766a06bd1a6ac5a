/**
 * The module-level memo cache `fetched_model_configs` of evaluation/models/models.py
 * and the function `fetch_model_config` that fills it lazily.
 *
 * The configuration loader (`transformers.AutoConfig.from_pretrained`) is not
 * modelled: it is an oracle, any total function from model names to
 * configurations, passed to every call. Every call made to it is recorded in
 * `loaderCalls`, so that "a hit does not call the loader" can be stated.
 */
module ModelConfigs {
  import opened Sequences

  /** The two attributes of a model configuration that the core reads. */
  datatype ModelConfig = ModelConfig(modelType: string, torchDtype: string)

  /** Stands for `AutoConfig.from_pretrained(model_name, trust_remote_code=True)`. */
  type ConfigLoader = string -> ModelConfig

  class ConfigCache {
    /** The dictionary `fetched_model_configs`. */
    var fetched: map<string, ModelConfig>
    /** The model names the loader has been called with, in call order. */
    ghost var loaderCalls: seq<string>

    /**
     * The cache starts empty and only grows through `Fetch`: every cached name
     * was loaded exactly once, and every loaded name is cached.
     */
    ghost predicate Valid()
      reads this
    {
      && NoDuplicates(loaderCalls)
      && (forall n :: n in fetched <==> n in loaderCalls)
    }

    /** Every cached configuration is what `load` yields for its name. */
    ghost predicate ConsistentWith(load: ConfigLoader)
      reads this
    {
      forall n :: n in fetched ==> fetched[n] == load(n)
    }

    /** The dictionary literal `{}` at module load. */
    constructor ()
      ensures Valid()
      ensures fetched == map[] && loaderCalls == []
    {
      fetched := map[];
      loaderCalls := [];
    }

    /** `fetch_model_config(model_name)`. */
    method Fetch(modelName: string, load: ConfigLoader) returns (config: ModelConfig)
      requires Valid()
      modifies this
      ensures Valid()
      // hit: the stored value, and neither the cache nor the loader is touched
      ensures old(modelName in fetched) ==>
                && config == old(fetched[modelName])
                && fetched == old(fetched)
                && loaderCalls == old(loaderCalls)
      // miss: one loader call, whose result is stored under the name and returned
      ensures old(modelName !in fetched) ==>
                && config == load(modelName)
                && fetched == old(fetched)[modelName := config]
                && loaderCalls == old(loaderCalls) + [modelName]
      ensures modelName in fetched && fetched[modelName] == config
      // no other entry is added, removed or changed
      ensures fetched.Keys == old(fetched.Keys) + {modelName}
      ensures forall n :: n in old(fetched) ==> fetched[n] == old(fetched[n])
      // a cache that agrees with the loader keeps agreeing, and memoization is invisible
      ensures old(ConsistentWith(load)) ==> ConsistentWith(load) && config == load(modelName)
    {
      if modelName in fetched {
        config := fetched[modelName];
        return;
      }
      config := load(modelName);
      fetched := fetched[modelName := config];
      loaderCalls := loaderCalls + [modelName];
    }

    /** `get_dtype(model_name)`: the `torch_dtype` of the fetched configuration. */
    method GetDtype(modelName: string, load: ConfigLoader) returns (dtype: string)
      requires Valid()
      modifies this
      ensures Valid()
      ensures old(modelName in fetched) ==>
                && dtype == old(fetched[modelName]).torchDtype
                && fetched == old(fetched)
                && loaderCalls == old(loaderCalls)
      ensures old(modelName !in fetched) ==>
                && dtype == load(modelName).torchDtype
                && fetched == old(fetched)[modelName := load(modelName)]
                && loaderCalls == old(loaderCalls) + [modelName]
      ensures modelName in fetched && dtype == fetched[modelName].torchDtype
      ensures fetched.Keys == old(fetched.Keys) + {modelName}
      ensures forall n :: n in old(fetched) ==> fetched[n] == old(fetched[n])
      ensures old(ConsistentWith(load)) ==> ConsistentWith(load) && dtype == load(modelName).torchDtype
    {
      var config := Fetch(modelName, load);
      dtype := config.torchDtype;
    }
  }
}

/**
 * The locking protocol of `fetch_model_config` (evaluation/models/models.py:7-27),
 * for one thread, with the loader allowed to raise. The lock is acquired on entry
 * and released on the two return paths only; nothing releases it when
 * `from_pretrained` raises. `threading.Lock` is not re-entrant, so a call that
 * finds the lock held waits forever.
 */
module ConfigCacheLocking {
  import opened ModelConfigs

  /** What one call of the loader does: return a configuration or raise. */
  datatype LoadOutcome = Loaded(config: ModelConfig) | LoadRaised(message: string)

  /** How one call of `fetch_model_config` ends. */
  datatype FetchEnd = Returned(config: ModelConfig) | Raised(message: string) | Blocked

  /** The dictionary `fetched_model_configs` with the state of `fetched_model_configs_lock`. */
  datatype LockedCache = LockedCache(fetched: map<string, ModelConfig>, held: bool)

  /** `fetch_model_config` as written: a raising loader leaves the lock held. */
  function FetchAsWritten(s: LockedCache, name: string, outcome: LoadOutcome): (r: (FetchEnd, LockedCache))
    ensures s.held ==> r == (Blocked, s)
    ensures !s.held && outcome.LoadRaised? && name !in s.fetched ==> r.1.held
  {
    if s.held then (Blocked, s)
    else if name in s.fetched then (Returned(s.fetched[name]), s)
    else
      match outcome
      case Loaded(c) => (Returned(c), LockedCache(s.fetched[name := c], false))
      case LoadRaised(m) => (Raised(m), LockedCache(s.fetched, true))
  }

  /** After one failed load, every later call, for any name, blocks. */
  lemma AsWrittenDeadlocksAfterFailedLoad(s: LockedCache, name: string, message: string,
                                          later: seq<(string, LoadOutcome)>)
    requires !s.held && name !in s.fetched
    ensures var after := FetchAsWritten(s, name, LoadRaised(message));
            after.0 == Raised(message) && RunAsWritten(after.1, later) == seq(|later|, _ => Blocked)
  {
    var after := FetchAsWritten(s, name, LoadRaised(message));
    HeldStaysBlocked(after.1, later);
  }

  /** The results of a sequence of calls made one after another by the as-written version. */
  function RunAsWritten(s: LockedCache, calls: seq<(string, LoadOutcome)>): seq<FetchEnd>
    decreases |calls|
  {
    if calls == [] then []
    else
      var step := FetchAsWritten(s, calls[0].0, calls[0].1);
      [step.0] + RunAsWritten(step.1, calls[1..])
  }

  /** Once the lock is held, nothing in the as-written version ever releases it. */
  lemma {:induction false} HeldStaysBlocked(s: LockedCache, calls: seq<(string, LoadOutcome)>)
    requires s.held
    ensures RunAsWritten(s, calls) == seq(|calls|, _ => Blocked)
    decreases |calls|
  {
    if calls != [] {
      HeldStaysBlocked(s, calls[1..]);
    }
  }

  /** `fetch_model_config` with the release in a `finally`: the lock is released on every path. */
  function FetchReleasing(s: LockedCache, name: string, outcome: LoadOutcome): (r: (FetchEnd, LockedCache))
    ensures !s.held ==> !r.1.held && r.0 != Blocked
    ensures !s.held && name in s.fetched ==> r == (Returned(s.fetched[name]), s)
    ensures !s.held && name !in s.fetched && outcome.Loaded? ==>
              r == (Returned(outcome.config), LockedCache(s.fetched[name := outcome.config], false))
    ensures !s.held && name !in s.fetched && outcome.LoadRaised? ==>
              r == (Raised(outcome.message), s)
  {
    if s.held then (Blocked, s)
    else if name in s.fetched then (Returned(s.fetched[name]), s)
    else
      match outcome
      case Loaded(c) => (Returned(c), LockedCache(s.fetched[name := c], false))
      case LoadRaised(m) => (Raised(m), LockedCache(s.fetched, false))
  }

  /** The fix changes only the raising path: on hits and successful loads both versions agree. */
  lemma FixChangesOnlyTheFailurePath(s: LockedCache, name: string, outcome: LoadOutcome)
    requires s.held || name in s.fetched || outcome.Loaded?
    ensures FetchReleasing(s, name, outcome) == FetchAsWritten(s, name, outcome)
  {
  }

  /** The results of a sequence of calls made one after another by the corrected version. */
  function RunReleasing(s: LockedCache, calls: seq<(string, LoadOutcome)>): seq<FetchEnd>
    decreases |calls|
  {
    if calls == [] then []
    else
      var step := FetchReleasing(s, calls[0].0, calls[0].1);
      [step.0] + RunReleasing(step.1, calls[1..])
  }

  /** Starting from a free lock, no call of the corrected version ever blocks. */
  lemma {:induction false} ReleasingNeverBlocks(s: LockedCache, calls: seq<(string, LoadOutcome)>)
    requires !s.held
    ensures |RunReleasing(s, calls)| == |calls|
    ensures forall k :: 0 <= k < |calls| ==> RunReleasing(s, calls)[k] != Blocked
    decreases |calls|
  {
    if calls != [] {
      var step := FetchReleasing(s, calls[0].0, calls[0].1);
      ReleasingNeverBlocks(step.1, calls[1..]);
      var rest := RunReleasing(step.1, calls[1..]);
      assert RunReleasing(s, calls) == [step.0] + rest;
    }
  }
}
