/**
 * Which inference backends a model supports (`get_supported_inference_backends`)
 * and which one is used (`get_inference_backend`), in evaluation/models/models.py.
 *
 * The rules are pure functions of the model name, the configuration's
 * `model_type` and whether text-generation-inference is installed; the methods
 * at the end consult the configuration cache exactly as the source does.
 */
module InferenceBackends {
  import opened Wrappers
  import opened ModelConfigs
  import Sequences

  const Vllm := "vllm"
  const Tgi := "tgi"
  const HfTransformers := "hf_transformers"

  /** The marker in a model name that rules vLLM out. */
  const StarchatMarker := "starchat"

  /** Configuration model types that vLLM, TGI and hf_transformers all serve. */
  const GenerallySupportedModelTypes: seq<string> :=
    ["llama", "gpt_neox", "gpt_bigcode", "mpt", "RefinedWeb", "RefinedWebModel", "falcon"]

  /** `sub` occurs in `s` starting at index `i`. */
  ghost predicate OccursAt(s: string, sub: string, i: nat)
  {
    i + |sub| <= |s| && s[i..i + |sub|] == sub
  }

  /** Python's `sub in s` on strings. */
  function Contains(s: string, sub: string): (r: bool)
    ensures r <==> exists i: nat :: OccursAt(s, sub, i)
    decreases |s|
  {
    if |s| < |sub| then
      false
    else if s[..|sub|] == sub then
      assert OccursAt(s, sub, 0);
      true
    else
      ShiftOccurrences(s, sub);
      Contains(s[1..], sub)
  }

  /** When `sub` is not a prefix of `s`, it occurs in `s` exactly when it occurs in `s[1..]`. */
  lemma ShiftOccurrences(s: string, sub: string)
    requires |sub| <= |s| && s[..|sub|] != sub
    ensures |s| > 0
    ensures (exists i: nat :: OccursAt(s, sub, i)) <==> (exists i: nat :: OccursAt(s[1..], sub, i))
  {
    forall i: nat | OccursAt(s, sub, i) ensures i > 0 && OccursAt(s[1..], sub, i - 1) {
      assert s[0..|sub|] == s[..|sub|];
      if i > 0 {
        assert s[1..][i - 1..i - 1 + |sub|] == s[i..i + |sub|];
      }
    }
    forall i: nat | OccursAt(s[1..], sub, i) ensures OccursAt(s, sub, i + 1) {
      assert s[i + 1..i + 1 + |sub|] == s[1..][i..i + |sub|];
    }
  }

  ghost predicate IsStarchat(modelName: string)
  {
    exists i: nat :: OccursAt(modelName, StarchatMarker, i)
  }

  /**
   * `get_supported_inference_backends(model_name)`, given the `model_type` of
   * the model's configuration (consulted only when the name is not a starchat one).
   */
  function SupportedInferenceBackends(modelName: string, modelType: string): (r: seq<string>)
    ensures IsStarchat(modelName) ==> r == [Tgi, HfTransformers]
    ensures !IsStarchat(modelName) && modelType in GenerallySupportedModelTypes ==> r == [Vllm, Tgi, HfTransformers]
    ensures !IsStarchat(modelName) && modelType !in GenerallySupportedModelTypes ==> r == []
  {
    if Contains(modelName, StarchatMarker) then
      [Tgi, HfTransformers]
    else if modelType in GenerallySupportedModelTypes then
      [Vllm, Tgi, HfTransformers]
    else
      []
  }

  /** Every supported list is an order-preserving selection from `[vllm, tgi, hf_transformers]`
      that ends in hf_transformers when it is not empty. */
  lemma SupportedListShape(modelName: string, modelType: string)
    ensures var r := SupportedInferenceBackends(modelName, modelType);
            && Sequences.IsSubsequence(r, [Vllm, Tgi, HfTransformers])
            && (r != [] ==> r[|r| - 1] == HfTransformers)
            && (Vllm in r <==> !IsStarchat(modelName) && modelType in GenerallySupportedModelTypes)
            && (r != [] <==> IsStarchat(modelName) || modelType in GenerallySupportedModelTypes)
  {
    var r := SupportedInferenceBackends(modelName, modelType);
    if IsStarchat(modelName) {
      assert [Tgi, HfTransformers][..1] == [Tgi];
      assert [Vllm, Tgi, HfTransformers][..2] == [Vllm, Tgi];
      assert [Vllm, Tgi][..1] == [Vllm];
      assert Sequences.IsSubsequence([Tgi], [Vllm, Tgi]);
    } else if modelType in GenerallySupportedModelTypes {
      assert [Vllm, Tgi, HfTransformers][..2] == [Vllm, Tgi];
      assert [Vllm, Tgi][..1] == [Vllm];
      assert [Vllm][..0] == [];
      assert Sequences.IsSubsequence([Vllm], [Vllm]);
      assert Sequences.IsSubsequence([Vllm, Tgi], [Vllm, Tgi]);
    }
  }

  /** The outcome of `get_inference_backend`: the backend or the raised error,
      and whether the "not installed" warning was printed. */
  datatype BackendChoice = BackendChoice(backend: Result<string, string>, warned: bool)

  /** The message of the exception raised when no backend applies (the closing quote is missing in the source too). */
  function NoBackendMessage(modelPath: string): string
  {
    "No inference backend supported for model \"" + modelPath
  }

  /** The decision of `get_inference_backend(model_path)` over the supported list. */
  function SelectInferenceBackend(modelPath: string, supported: seq<string>, tgiInstalled: bool): (c: BackendChoice)
    ensures c.backend.Ok? ==> c.backend.value in supported
    ensures Vllm in supported ==> c.backend == Ok(Vllm)
    ensures Vllm !in supported && Tgi in supported && tgiInstalled ==> c.backend == Ok(Tgi)
    ensures Vllm !in supported && (Tgi !in supported || !tgiInstalled) && HfTransformers in supported ==>
              c.backend == Ok(HfTransformers)
    ensures c.backend.Err? <==> Vllm !in supported && HfTransformers !in supported && (Tgi !in supported || !tgiInstalled)
    ensures c.backend.Err? ==> c.backend.error == NoBackendMessage(modelPath)
    ensures c.warned <==> Vllm !in supported && Tgi in supported && !tgiInstalled
  {
    if Vllm in supported then
      BackendChoice(Ok(Vllm), false)
    else if Tgi in supported && tgiInstalled then
      BackendChoice(Ok(Tgi), false)
    else
      var warned := Tgi in supported;
      if HfTransformers in supported then
        BackendChoice(Ok(HfTransformers), warned)
      else
        BackendChoice(Err(NoBackendMessage(modelPath)), warned)
  }

  /** The backends `get_inference_backend` tries, most preferred first. */
  function BackendPriority(tgiInstalled: bool): seq<string>
  {
    [Vllm] + (if tgiInstalled then [Tgi] else []) + [HfTransformers]
  }

  /** Reference rule: the first entry of `priority` that is supported, if any. */
  function FirstSupported(priority: seq<string>, supported: seq<string>): (r: Option<string>)
    ensures r.Some? ==> r.value in priority && r.value in supported
    ensures r.None? <==> forall k :: 0 <= k < |priority| ==> priority[k] !in supported
    ensures r.Some? ==> exists k :: 0 <= k < |priority| && priority[k] == r.value &&
                                    forall j :: 0 <= j < k ==> priority[j] !in supported
  {
    if priority == [] then
      None
    else if priority[0] in supported then
      Some(priority[0])
    else
      var r := FirstSupported(priority[1..], supported);
      if r.Some? then
        var k :| 0 <= k < |priority[1..]| && priority[1..][k] == r.value &&
                 forall j :: 0 <= j < k ==> priority[1..][j] !in supported;
        assert priority[k + 1] == r.value;
        r
      else
        r
  }

  /** `get_inference_backend` returns the most preferred supported backend, and
      raises exactly when there is none. */
  lemma SelectionFollowsPriority(modelPath: string, supported: seq<string>, tgiInstalled: bool)
    ensures var first := FirstSupported(BackendPriority(tgiInstalled), supported);
            SelectInferenceBackend(modelPath, supported, tgiInstalled).backend ==
              if first.Some? then Ok(first.value) else Err(NoBackendMessage(modelPath))
  {
    var p := BackendPriority(tgiInstalled);
    var first := FirstSupported(p, supported);
    assert p[0] == Vllm;
    assert p[|p| - 1] == HfTransformers;
    if tgiInstalled {
      assert p == [Vllm, Tgi, HfTransformers];
    } else {
      assert p == [Vllm, HfTransformers];
    }
  }

  /**
   * The whole of `get_inference_backend` for a model whose configuration has
   * `modelType`. Starchat models use TGI when it is installed and hf_transformers
   * (with the warning) otherwise, whatever their configuration says; other models
   * of a generally supported type always use vLLM; any other model has no backend.
   */
  function ChosenBackend(modelName: string, modelType: string, tgiInstalled: bool): (c: BackendChoice)
    ensures IsStarchat(modelName) ==>
              c == if tgiInstalled then BackendChoice(Ok(Tgi), false) else BackendChoice(Ok(HfTransformers), true)
    ensures !IsStarchat(modelName) && modelType in GenerallySupportedModelTypes ==>
              c == BackendChoice(Ok(Vllm), false)
    ensures !IsStarchat(modelName) && modelType !in GenerallySupportedModelTypes ==>
              c == BackendChoice(Err(NoBackendMessage(modelName)), false)
  {
    SelectInferenceBackend(modelName, SupportedInferenceBackends(modelName, modelType), tgiInstalled)
  }

  /**
   * `get_supported_inference_backends(model_name)` with its configuration
   * lookup: the cache is consulted only for names that are not starchat ones.
   */
  method GetSupportedInferenceBackends(cache: ConfigCache, modelName: string, load: ConfigLoader)
    returns (backends: seq<string>)
    requires cache.Valid()
    modifies cache
    ensures cache.Valid()
    ensures IsStarchat(modelName) ==> backends == [Tgi, HfTransformers] && unchanged(cache)
    ensures !IsStarchat(modelName) ==>
              && modelName in cache.fetched
              && backends == SupportedInferenceBackends(modelName, cache.fetched[modelName].modelType)
              && cache.fetched.Keys == old(cache.fetched.Keys) + {modelName}
    // a cached name: the stored configuration decides, and neither cache nor loader is touched
    ensures !IsStarchat(modelName) && modelName in old(cache.fetched) ==>
              && backends == SupportedInferenceBackends(modelName, old(cache.fetched[modelName]).modelType)
              && cache.fetched == old(cache.fetched)
              && cache.loaderCalls == old(cache.loaderCalls)
    // an uncached name: one loader call, whose result is stored and decides
    ensures !IsStarchat(modelName) && modelName !in old(cache.fetched) ==>
              && backends == SupportedInferenceBackends(modelName, load(modelName).modelType)
              && cache.fetched == old(cache.fetched)[modelName := load(modelName)]
              && cache.loaderCalls == old(cache.loaderCalls) + [modelName]
    ensures forall n :: n in old(cache.fetched) ==> n in cache.fetched && cache.fetched[n] == old(cache.fetched[n])
    ensures old(cache.ConsistentWith(load)) ==>
              cache.ConsistentWith(load) && backends == SupportedInferenceBackends(modelName, load(modelName).modelType)
  {
    if Contains(modelName, StarchatMarker) {
      return [Tgi, HfTransformers];
    }
    var config := cache.Fetch(modelName, load);
    if config.modelType in GenerallySupportedModelTypes {
      return [Vllm, Tgi, HfTransformers];
    }
    return [];
  }

  /** `get_inference_backend(model_path)`, with `is_tgi_installed()` passed in as `tgiInstalled`. */
  method GetInferenceBackend(cache: ConfigCache, modelPath: string, load: ConfigLoader, tgiInstalled: bool)
    returns (choice: BackendChoice)
    requires cache.Valid()
    modifies cache
    ensures cache.Valid()
    ensures IsStarchat(modelPath) ==>
              choice == SelectInferenceBackend(modelPath, [Tgi, HfTransformers], tgiInstalled) && unchanged(cache)
    ensures !IsStarchat(modelPath) ==>
              && modelPath in cache.fetched
              && choice == ChosenBackend(modelPath, cache.fetched[modelPath].modelType, tgiInstalled)
              && cache.fetched.Keys == old(cache.fetched.Keys) + {modelPath}
    // a cached name: the stored configuration decides, and neither cache nor loader is touched
    ensures !IsStarchat(modelPath) && modelPath in old(cache.fetched) ==>
              && choice == ChosenBackend(modelPath, old(cache.fetched[modelPath]).modelType, tgiInstalled)
              && cache.fetched == old(cache.fetched)
              && cache.loaderCalls == old(cache.loaderCalls)
    // an uncached name: one loader call, whose result is stored and decides
    ensures !IsStarchat(modelPath) && modelPath !in old(cache.fetched) ==>
              && choice == ChosenBackend(modelPath, load(modelPath).modelType, tgiInstalled)
              && cache.fetched == old(cache.fetched)[modelPath := load(modelPath)]
              && cache.loaderCalls == old(cache.loaderCalls) + [modelPath]
    ensures forall n :: n in old(cache.fetched) ==> n in cache.fetched && cache.fetched[n] == old(cache.fetched[n])
    ensures old(cache.ConsistentWith(load)) ==>
              cache.ConsistentWith(load) && choice == ChosenBackend(modelPath, load(modelPath).modelType, tgiInstalled)
  {
    var supported := GetSupportedInferenceBackends(cache, modelPath, load);
    if Vllm in supported {
      return BackendChoice(Ok(Vllm), false);
    }
    var warned := false;
    if Tgi in supported {
      if tgiInstalled {
        return BackendChoice(Ok(Tgi), false);
      }
      warned := true;
    }
    if HfTransformers in supported {
      return BackendChoice(Ok(HfTransformers), warned);
    }
    return BackendChoice(Err(NoBackendMessage(modelPath)), warned);
  }
}
