/**
 * The provider plugins shipped under src/provider: the abstract base class
 * `ProviderBase`, whose constructor stores the API key, and its one concrete
 * subclass `OpenRouterProvider`, whose `run` formats a description string.
 * Provider classes defined outside the repository appear as plugin classes,
 * known only by name and by how many constructor arguments they require.
 */
module Providers {
  import opened Wrappers

  /** The classes a provider module binds at top level. */
  datatype ProviderClass =
    | ProviderBaseClass        // abstract: `name` and `base_url` have no implementation
    | OpenRouterProviderClass  // concrete subclass of ProviderBase
    | PluginClass(className: string, required: nat)
      // a provider class defined outside this repository, whose constructor
      // takes `required` positional arguments

  /** Why calling a class object failed (Python's `TypeError`). */
  datatype ConstructError =
    | AbstractClass(className: string)
    | WrongArgumentCount(initName: string, required: nat, given: nat)

  /**
   * An instance of a provider. The only state is the `api_key` attribute that
   * `ProviderBase.__init__` assigns; it is never updated afterwards.
   */
  datatype Provider = OpenRouterProvider(apiKey: string) {

    /** The `name` property. */
    function Name(): string {
      "openrouter"
    }

    /** The `base_url` property. */
    function BaseUrl(): string {
      "https://openrouter.ai/api/v1"
    }

    /** `run(model=None)`: describes the provider; `model` is rendered by `str`. */
    function Run(model: Option<string>): string {
      "Provider: " + Name() + ", Base URL: " + BaseUrl() + ", API Key: " + apiKey
        + ", Model: " + ModelText(model)
    }
  }

  /** An object a provider class returns: the repository's provider, or a plugin's instance. */
  datatype Instance =
    | OpenRouterInstance(provider: Provider)
    | PluginInstance(className: string, args: seq<string>)

  /** The positional arguments an instance was built from. */
  function InstanceArgs(i: Instance): seq<string> {
    match i
    case OpenRouterInstance(p) => [p.apiKey]
    case PluginInstance(_, args) => args
  }

  /**
   * The value `instance.run(model)` returns. A plugin's `run` is code outside
   * this repository, so its result is named by the call, not computed.
   */
  datatype RunOutput =
    | Returned(text: string)
    | PluginResult(className: string, args: seq<string>, model: Option<string>)

  function RunInstance(i: Instance, model: Option<string>): RunOutput {
    match i
    case OpenRouterInstance(p) => Returned(p.Run(model))
    case PluginInstance(c, args) => PluginResult(c, args, model)
  }

  /** Python's `str(model)` for a `str` or `None` argument. */
  function ModelText(model: Option<string>): string {
    match model
    case None => "None"
    case Some(m) => m
  }

  function ClassName(c: ProviderClass): string {
    match c
    case ProviderBaseClass => "ProviderBase"
    case OpenRouterProviderClass => "OpenRouterProvider"
    case PluginClass(name, _) => name
  }

  /** Whether calling class `c` with `n` positional arguments returns an instance. */
  predicate Accepts(c: ProviderClass, n: nat) {
    || (c == OpenRouterProviderClass && n == 1)
    || (c.PluginClass? && c.required == n)
  }

  /**
   * Calling a class object with positional arguments. `ProviderBase.__init__`
   * takes exactly one argument, `api_key`, and stores it unchanged; an
   * abstract class cannot be instantiated at all; a plugin class takes the
   * number of arguments its constructor declares.
   */
  function Construct(c: ProviderClass, args: seq<string>): (r: Result<Instance, ConstructError>)
    ensures r.Ok? <==> Accepts(c, |args|)
    ensures r.Ok? ==> InstanceArgs(r.value) == args
    ensures r.Ok? && c == OpenRouterProviderClass ==> r.value == OpenRouterInstance(OpenRouterProvider(args[0]))
    ensures r.Ok? && c.PluginClass? ==> r.value == PluginInstance(c.className, args)
    ensures r.Err? && c.PluginClass? ==> r.error == WrongArgumentCount(c.className + ".__init__", c.required, |args|)
  {
    match c
    case ProviderBaseClass => Err(AbstractClass("ProviderBase"))
    case OpenRouterProviderClass =>
      if |args| == 1 then Ok(OpenRouterInstance(OpenRouterProvider(args[0])))
      else Err(WrongArgumentCount("ProviderBase.__init__", 1, |args|))
    case PluginClass(name, required) =>
      if |args| == required then Ok(PluginInstance(name, args))
      else Err(WrongArgumentCount(name + ".__init__", required, |args|))
  }

  /** `name` and `base_url` are constants: they do not depend on the stored key. */
  lemma PropertiesAreConstant(p: Provider)
    ensures p.Name() == "openrouter"
    ensures p.BaseUrl() == "https://openrouter.ai/api/v1"
  {
  }

  /** Everything `run` prints before the API key. */
  const RunPrefix: string :=
    "Provider: " + "openrouter" + ", Base URL: " + "https://openrouter.ai/api/v1" + ", API Key: "
  const ModelSeparator: string := ", Model: "

  /** The output of `run` is the fixed prefix, the stored key, and the rendered model. */
  lemma RunLayout(p: Provider, model: Option<string>)
    ensures p.Run(model) == RunPrefix + p.apiKey + ModelSeparator + ModelText(model)
    ensures p.Run(model)[|RunPrefix|..|RunPrefix| + |p.apiKey|] == p.apiKey
  {
  }

  /** For a fixed model, the output determines the API key it reports. */
  lemma RunDeterminesKey(p: Provider, q: Provider, model: Option<string>)
    requires p.Run(model) == q.Run(model)
    ensures p.apiKey == q.apiKey
  {
    RunLayout(p, model);
    RunLayout(q, model);
    var s := p.Run(model);
    var tail := ModelSeparator + ModelText(model);
    assert |s| == |RunPrefix| + |p.apiKey| + |tail| == |RunPrefix| + |q.apiKey| + |tail|;
  }

  /** For a fixed provider, the output determines the rendered model text. */
  lemma RunDeterminesModelText(p: Provider, m1: Option<string>, m2: Option<string>)
    requires p.Run(m1) == p.Run(m2)
    ensures ModelText(m1) == ModelText(m2)
  {
    RunLayout(p, m1);
    RunLayout(p, m2);
    var head := RunPrefix + p.apiKey + ModelSeparator;
    assert p.Run(m1)[|head|..] == ModelText(m1);
    assert p.Run(m2)[|head|..] == ModelText(m2);
  }

  /**
   * The output does not tell a missing model from the model named "None", nor
   * where the key ends when the key itself contains ", Model: ".
   */
  lemma RunAmbiguous(key: string, a: string, b: string, c: string)
    ensures OpenRouterProvider(key).Run(None) == OpenRouterProvider(key).Run(Some("None"))
    ensures OpenRouterProvider(a + ModelSeparator + b).Run(Some(c))
         == OpenRouterProvider(a).Run(Some(b + ModelSeparator + c))
  {
  }
}
