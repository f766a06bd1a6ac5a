/**
 * The dispatch of `create_model` in evaluation/models/models.py: a fixed table
 * from model-type names to model classes. The classes themselves live in
 * modules that are not part of this model; each is represented by a tag, and a
 * constructed model by its tag together with the arguments it was given.
 */
module ModelClasses {
  import opened Wrappers

  datatype ModelClass =
    | Debug
    | OpenAI
    | Fastchat
    | OpenAssistant
    | Guanaco
    | FalconInstruct
    | AlpacaWithoutPrefix
    | AlpacaWithPrefix
    | ChatML
    | Starchat
    | Llama2Chat
    | StableBeluga
    | Dolphin
    | OpenchatLlama2V1
    | WizardLM

  /** The dictionary `model_classes`. */
  const ModelClassTable: map<string, ModelClass> := map[
    "debug" := Debug,
    "openai" := OpenAI,
    "fastchat" := Fastchat,
    "open-assistant" := OpenAssistant,
    "guanaco" := Guanaco,
    "falcon-instruct" := FalconInstruct,
    "alpaca-without-prefix" := AlpacaWithoutPrefix,
    "alpaca-with-prefix" := AlpacaWithPrefix,
    "chatml" := ChatML,
    "starchat" := Starchat,
    "llama2-chat" := Llama2Chat,
    "stable-beluga" := StableBeluga,
    "dolphin" := Dolphin,
    "openchat-llama2-v1" := OpenchatLlama2V1,
    "wizard-lm" := WizardLM
  ]

  /** The model-type name under which each class is registered: the inverse of the table. */
  function TypeName(c: ModelClass): (name: string)
    ensures name in ModelClassTable && ModelClassTable[name] == c
  {
    match c
    case Debug => "debug"
    case OpenAI => "openai"
    case Fastchat => "fastchat"
    case OpenAssistant => "open-assistant"
    case Guanaco => "guanaco"
    case FalconInstruct => "falcon-instruct"
    case AlpacaWithoutPrefix => "alpaca-without-prefix"
    case AlpacaWithPrefix => "alpaca-with-prefix"
    case ChatML => "chatml"
    case Starchat => "starchat"
    case Llama2Chat => "llama2-chat"
    case StableBeluga => "stable-beluga"
    case Dolphin => "dolphin"
    case OpenchatLlama2V1 => "openchat-llama2-v1"
    case WizardLM => "wizard-lm"
  }

  /** Every key of the table is the registered name of the class it maps to. */
  lemma TableInvertsTypeName(modelType: string)
    requires modelType in ModelClassTable
    ensures TypeName(ModelClassTable[modelType]) == modelType
  {
  }

  /** The message of the exception raised for an unregistered model type. */
  function UnknownModelTypeMessage(modelType: string): string
  {
    "Unknown model type \"" + modelType + "\""
  }

  /** The class lookup of `create_model(model_type, ...)`. */
  function ModelClassFor(modelType: string): (r: Result<ModelClass, string>)
    ensures r.Ok? <==> exists c :: TypeName(c) == modelType
    ensures r.Ok? ==> TypeName(r.value) == modelType
    ensures r.Err? ==> r.error == UnknownModelTypeMessage(modelType)
  {
    if modelType in ModelClassTable then
      TableInvertsTypeName(modelType);
      Ok(ModelClassTable[modelType])
    else
      Err(UnknownModelTypeMessage(modelType))
  }

  /** Looking a class's registered name up yields that class. */
  lemma DispatchRoundTrip(c: ModelClass)
    ensures ModelClassFor(TypeName(c)) == Ok(c)
  {
  }

  /** No two classes share a name, so each registered name selects exactly one class. */
  lemma TypeNameInjective(c1: ModelClass, c2: ModelClass)
    ensures TypeName(c1) == TypeName(c2) ==> c1 == c2
  {
    DispatchRoundTrip(c1);
    DispatchRoundTrip(c2);
  }

  /** The table has exactly the 15 registered names as keys. */
  lemma TableKeys()
    ensures ModelClassTable.Keys == set c: ModelClass :: TypeName(c)
  {
    forall k | k in ModelClassTable ensures k in set c: ModelClass :: TypeName(c) {
      TableInvertsTypeName(k);
    }
  }

  /** A few lookups, including the case-sensitivity of the names. */
  lemma DispatchExamples()
    ensures ModelClassFor("dolphin") == Ok(Dolphin)
    ensures ModelClassFor("debug") == Ok(Debug)
    ensures ModelClassFor("llama2-chat") == Ok(Llama2Chat)
    ensures ModelClassFor("Dolphin") == Err(UnknownModelTypeMessage("Dolphin"))
    ensures ModelClassFor("") == Err(UnknownModelTypeMessage(""))
  {
    NotRegistered("Dolphin");
    NotRegistered("");
  }

  /** A name that no class is registered under is not a key of the table. */
  lemma NotRegistered(modelType: string)
    requires forall c :: TypeName(c) != modelType
    ensures modelType !in ModelClassTable
  {
    if modelType in ModelClassTable {
      TableInvertsTypeName(modelType);
    }
  }

  /** A constructed model: `model_class(model_name, **model_args)`. */
  datatype Model = Model(modelClass: ModelClass, modelPath: string, modelArgs: map<string, string>)

  /** `create_model(model_type, model_name, model_args)`. */
  function CreateModel(modelType: string, modelName: string, modelArgs: map<string, string>): (r: Result<Model, string>)
    ensures r.Ok? <==> exists c :: TypeName(c) == modelType
    ensures r.Ok? ==> TypeName(r.value.modelClass) == modelType
    ensures r.Ok? ==> r.value.modelPath == modelName && r.value.modelArgs == modelArgs
    ensures r.Err? ==> r.error == UnknownModelTypeMessage(modelType)
  {
    match ModelClassFor(modelType)
    case Ok(c) => Ok(Model(c, modelName, modelArgs))
    case Err(e) => Err(e)
  }
}
