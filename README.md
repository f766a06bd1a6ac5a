# FastEval model layer: configuration cache, backend choice, model dispatch, backend switching

A verified Dafny model of the decision and caching layer in
`evaluation/models/models.py` of FastEval. This is the code that decides how
a language model is served while it is evaluated:

- **Configuration cache** (`fetch_model_config`). A module-level dictionary that
  holds each model's configuration. It is filled lazily from a loader, and each
  name is loaded once. Modelled as the class `ModelConfigs.ConfigCache`. The
  loader (`transformers.AutoConfig.from_pretrained`) is an oracle: any total
  function from names to configurations, passed to every call. Every loader
  call is recorded in `loaderCalls`.
- **Supported backends** (`get_supported_inference_backends`). Any model name
  containing `starchat` gets `["tgi", "hf_transformers"]`; this is decided
  before the configuration is read. Otherwise seven configuration model types get
  `["vllm", "tgi", "hf_transformers"]`, and every other type gets `[]`.
- **Backend choice** (`get_inference_backend`). vLLM comes first, then TGI
  (only when it is installed), then hf_transformers. When none applies, an
  exception is raised. The check for an installed TGI is passed in as a
  boolean. The printed warning becomes the `warned` flag of the result.
- **Model dispatch** (`create_model`). A fixed table from 15 model-type names
  to model classes. The classes are tags of the datatype `ModelClass`. An
  unknown name is an error carrying the source's message.
- **Backend switching** (`switch_inference_backend`, `unload_model`). The four
  backend unloaders are walked in table order, skipping the newly selected
  backend. Each unloader call is an entry appended to `unloadTrace` of
  `BackendSwitching.BackendRuntime`.

Modules: `Wrappers` and `Sequences` (common.dfy) hold helpers.
`ModelConfigs` (model_configs.dfy) is the cache. `ConfigCacheLocking` (same file)
models the cache lock for one thread, with a loader that may raise. `InferenceBackends`
(inference_backends.dfy) holds the classification and selection rules, plus the
two methods that consult the cache as the source does. `ModelClasses`
(model_classes.dfy) is the dispatch table. `BackendSwitching`
(backend_switching.dfy) is the unload walk.

The exception for a model with no backend reads
`No inference backend supported for model "<name>`. The closing quote is
missing in the source, and the model keeps the message as written.

## Model

| member | source | states |
|---|---|---|
| `ModelConfigs.ConfigCache.constructor` | evaluation/models/models.py:6 | the cache starts empty, with no loader calls, and satisfies its invariant (each cached name was loaded exactly once) |
| `ModelConfigs.ConfigCache.Fetch` | evaluation/models/models.py:10-27 | hit: returns the stored config; cache and loader-call log unchanged. Miss: calls the loader once, stores its result under the name, returns it. Either way: the name is afterwards cached with the returned value; no other entry is added, removed or changed; the "loaded exactly once" invariant is preserved; a cache that agrees with the loader keeps agreeing and returns the loader's value |
| `ModelConfigs.ConfigCache.GetDtype` | evaluation/models/models.py:30-31 | hit: the stored configuration's `torch_dtype`, with cache and loader-call log unchanged; miss: the loaded configuration's `torch_dtype`, that configuration stored under the name and one loader call logged; other entries unchanged |
| `ConfigCacheLocking.FetchAsWritten` | evaluation/models/models.py:10-27 | the source's locking as written: a call that finds the lock held blocks; a raising loader on a miss leaves the lock held |
| `ConfigCacheLocking.HeldStaysBlocked` | evaluation/models/models.py:11-25 | once the lock is held, every later call of the as-written version blocks |
| `ConfigCacheLocking.AsWrittenDeadlocksAfterFailedLoad` | evaluation/models/models.py:18-25 | a miss whose load raises propagates the error, and every later call, for any name, then blocks |
| `ConfigCacheLocking.FetchReleasing` | evaluation/models/models.py:10-27 | the corrected fetch: the lock is free after every call that found it free, so no such call blocks; hits and successful loads behave as in the source; a raising load stores nothing |
| `ConfigCacheLocking.FixChangesOnlyTheFailurePath` | evaluation/models/models.py:13-27 | on hits and successful loads, the corrected and the as-written fetch agree |
| `ConfigCacheLocking.ReleasingNeverBlocks` | evaluation/models/models.py:10-27 | a single thread's sequence of corrected fetches, starting with the lock free, never blocks |
| `InferenceBackends.Contains` | evaluation/models/models.py:35 | Python's substring test: true exactly when the pattern occurs at some index of the name |
| `InferenceBackends.SupportedInferenceBackends` | evaluation/models/models.py:34-55 | a name with an occurrence of `starchat` gets exactly `[tgi, hf_transformers]`, whatever the model type; otherwise one of the seven listed model types gets `[vllm, tgi, hf_transformers]` and any other type gets `[]` |
| `InferenceBackends.SupportedListShape` | evaluation/models/models.py:34-55 | every supported list keeps the order of `[vllm, tgi, hf_transformers]`, ends in hf_transformers when non-empty, contains vllm exactly for non-starchat names of a listed type, and is non-empty exactly for starchat names or listed types |
| `InferenceBackends.SelectInferenceBackend` | evaluation/models/models.py:62-80 | vllm whenever supported; else tgi if supported and installed; else hf_transformers if supported; the result is always in the supported list; an error (with the source's message) exactly when there is no vllm, no hf_transformers, and tgi is absent or not installed; the warning is issued exactly when vllm is absent and tgi is supported but not installed |
| `InferenceBackends.FirstSupported` | evaluation/models/models.py:65-78 | reference rule: the first supported entry of a priority list; none is found exactly when no entry is supported, and every entry before the one found is unsupported |
| `InferenceBackends.SelectionFollowsPriority` | evaluation/models/models.py:65-80 | the selection equals the first supported backend of the priority list `[vllm, tgi (if installed), hf_transformers]`, and it is the error exactly when that list has no supported entry |
| `InferenceBackends.ChosenBackend` | evaluation/models/models.py:34-80 | end to end: a starchat model gets tgi when TGI is installed, otherwise hf_transformers with the warning, whatever its configuration says; a non-starchat model of a listed type always gets vllm and no warning; any other model gets the "no inference backend" error and no warning |
| `InferenceBackends.GetSupportedInferenceBackends` | evaluation/models/models.py:34-55 | a starchat name gets `[tgi, hf_transformers]` and never touches the cache or the loader; a cached name is decided by the stored configuration's type with cache and log unchanged; an uncached name is decided by the loaded configuration's type, which is stored, with one loader call logged; other entries unchanged |
| `InferenceBackends.GetInferenceBackend` | evaluation/models/models.py:62-80 | a starchat name is decided over `[tgi, hf_transformers]` without touching the cache; a cached name gets the end-to-end choice for the stored configuration with cache and log unchanged; an uncached name gets the end-to-end choice for the loaded configuration, which is stored, with one loader call logged; other entries unchanged |
| `ModelClasses.TypeName` | evaluation/models/models.py:102-118 | each class has a registered name, and the table maps that name back to that class |
| `ModelClasses.TableInvertsTypeName` | evaluation/models/models.py:102-118 | each key of the table is the registered name of the class it maps to |
| `ModelClasses.ModelClassFor` | evaluation/models/models.py:120-123 | the lookup succeeds exactly for the registered names, and the registered name of the class found is the requested one; otherwise the error is `Unknown model type "<name>"` |
| `ModelClasses.DispatchRoundTrip` | evaluation/models/models.py:102-123 | looking up a class's registered name yields that class |
| `ModelClasses.TypeNameInjective` | evaluation/models/models.py:102-118 | no two classes share a name, so each key selects exactly one class |
| `ModelClasses.TableKeys` | evaluation/models/models.py:102-118 | the table's keys are exactly the registered names of the 15 classes |
| `ModelClasses.NotRegistered` | evaluation/models/models.py:120-121 | a name under which no class is registered is not a key of the table |
| `ModelClasses.DispatchExamples` | evaluation/models/models.py:102-121 | "dolphin" gives Dolphin, "debug" gives Debug, "llama2-chat" gives Llama2Chat; "Dolphin" (case differs) and "" are errors |
| `ModelClasses.CreateModel` | evaluation/models/models.py:83-125 | succeeds exactly for registered model types, building the class registered under the type with the given model name and arguments; otherwise the unknown-type error |
| `BackendSwitching.WithoutMembers` | evaluation/models/models.py:161-164 | the loop calls the unloader of a backend exactly when that backend is in the table and is not the selected one |
| `BackendSwitching.WithoutIsSubsequence` | evaluation/models/models.py:161-164 | the unloaders that are called keep the table's order |
| `BackendSwitching.WithoutNoDuplicates` | evaluation/models/models.py:154-164 | over a table without repeated names, no unloader is called twice |
| `BackendSwitching.UnloadsFor` | evaluation/models/models.py:154-168 | the calls made when switching: never the new backend's unloader, no unloader twice, table order kept; one call fewer than the table when the new backend is in it, and the whole table when it is `None` or an unknown name |
| `BackendSwitching.WithoutLength` | evaluation/models/models.py:161-164 | skipping a backend that occurs once in the table leaves out exactly one call |
| `BackendSwitching.UnknownBackendUnloadsAll` | evaluation/models/models.py:161-168 | when the new backend is `None` or not in the table, every unloader is called, in table order |
| `BackendSwitching.SwitchSkipping` | evaluation/models/models.py:154-164 | switching to the backend at position k of the table calls exactly the table's other entries, in table order (so hf_transformers, tgi, fastchat for vllm) |
| `BackendSwitching.UnloadsForUnfolded` | evaluation/models/models.py:161-164 | the loop unrolled over the four-entry table: at most one call per entry, in entry order |
| `BackendSwitching.BackendRuntime.Unload` | evaluation/models/models.py:155-158 | one backend's unloader call is one trace entry |
| `BackendSwitching.BackendRuntime.SwitchInferenceBackend` | evaluation/models/models.py:148-164 | the trace is extended by exactly the table's backends other than the new one, in table order |
| `BackendSwitching.BackendRuntime.UnloadModel` | evaluation/models/models.py:167-168 | the trace is extended by all four backends, in the order hf_transformers, vllm, tgi, fastchat |

## Findings

| source | as written | input that shows it | evidently intended | confidence | as-written member | corrected member |
|---|---|---|---|---|---|---|
| evaluation/models/models.py:11-25 | `fetched_model_configs_lock` is acquired on entry and released only on the two return paths; no `try`/`finally` releases it when `from_pretrained` raises | a first call for a model name that `from_pretrained` cannot load (its `OSError` is raised); any later call of `fetch_model_config`, on any thread, then waits forever on the non-re-entrant lock | release the lock on every path, including the raising one | medium, not executed | `ConfigCacheLocking.AsWrittenDeadlocksAfterFailedLoad` | `ConfigCacheLocking.ReleasingNeverBlocks` |

`ModelConfigs.ConfigCache.Fetch` models the successful paths only. On those paths the corrected and the as-written fetch agree (`FixChangesOnlyTheFailurePath`), and both release the lock.

## Left out

- `fetched_model_configs_lock` (models.py:7, 11, 15, 25): other threads waiting on the lock are not modelled. `ConfigCacheLocking` models a single thread: a call that finds the lock held blocks.
- `ModelConfigs.ConfigCache.Fetch`: the loader (`transformers.AutoConfig.from_pretrained`, models.py:18-22) is an oracle parameter `load` that always returns. A raising loader is modelled only in `ConfigCacheLocking`, and not in the class or in the methods that go through it.
- `is_tgi_installed` (models.py:58-59): checks whether a file exists. It is the parameter `tgiInstalled`.
- The warning `print` (models.py:71-75): I/O. It is the `warned` flag, not the text that would be printed.
- `ModelConfigs.ConfigCache.GetDtype`: `torch_dtype` is a `torch.dtype` object or `None` in the source. Here it is an opaque string field of the configuration, passed through unchanged.
- `compute_model_replies` (models.py:128-145): a thread pool over model inference. Only its empty-input shortcut would be statable without the thread pool, so the whole function is left out.
- `ModelClasses.CreateModel`: `**kwargs` are not modelled, and neither is the constructor of each model class (models.py:125). A built model is its class tag plus its name and `model_args`.
- `BackendSwitching.BackendRuntime.SwitchInferenceBackend`: each unloader is assumed to return normally. In the source, an unloader that raises ends the loop at models.py:161-164, skips the later unloaders and propagates the exception. The effects of the four backend `unload_model` functions (models.py:155-158) are not modelled either, because their modules are not part of this model; each call is only a trace entry.
- evaluation/models/dolphin.py: a subclass that passes fixed prompt strings to a base class that is not part of this model.
- The repository's job ledger and run orchestrator: their source files are not part of this model.
