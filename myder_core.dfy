/**
 * src/myder_core.py: discovering provider modules by file name, loading a
 * provider by a class name derived from the module name, and running it.
 *
 * `importlib.import_module` is modelled by a package: a map from module name
 * to the module's top-level symbols, each bound to a provider class.
 * `getattr` on a module is a lookup in that map.
 */
module MyderCore {
  import opened Wrappers
  import opened Text
  import opened Providers

  const DefaultProvider: string := "openrouter"
  const DefaultModel: string := "gemini-2.5"

  /** The init file of the provider package; it is not a provider. */
  const InitFile: string := "__init__.py"

  /** A file of the provider directory that names a provider module. */
  predicate IsProviderFile(fname: string) {
    EndsWith(fname, ".py") && fname != InitFile
  }

  /** `fname[:-3]`: the file name without its `.py` extension. */
  function Stem(fname: string): string
    requires |fname| >= 3
  {
    fname[..|fname| - 3]
  }

  /**
   * The provider names of a directory listing, in listing order: each file
   * ending in `.py` other than `__init__.py`, with its extension removed.
   */
  function ProviderNames(listing: seq<string>): (names: seq<string>)
    ensures |names| <= |listing|
    ensures "__init__" !in names
    ensures forall p :: p in names ==> p + ".py" in listing
  {
    if listing == [] then []
    else
      var rest := ProviderNames(listing[..|listing| - 1]);
      var fname := listing[|listing| - 1];
      if IsProviderFile(fname) then
        assert Stem(fname) + ".py" == fname;
        rest + [Stem(fname)]
      else rest
  }

  /** The listing is filtered piecewise, so the order of the listing is kept. */
  lemma {:induction false} ProviderNamesConcat(a: seq<string>, b: seq<string>)
    ensures ProviderNames(a + b) == ProviderNames(a) + ProviderNames(b)
    decreases |b|
  {
    if b != [] {
      var b' := b[..|b| - 1];
      assert (a + b)[..|a + b| - 1] == a + b';
      assert (a + b)[|a + b| - 1] == b[|b| - 1];
      ProviderNamesConcat(a, b');
    } else {
      assert a + b == a;
    }
  }

  /** A name is listed exactly when its `.py` file is in the directory and it is not `__init__`. */
  lemma {:induction false} ProviderNamesMembership(listing: seq<string>, p: string)
    ensures p in ProviderNames(listing) <==> p + ".py" in listing && p != "__init__"
  {
    if listing != [] {
      var init := listing[..|listing| - 1];
      var fname := listing[|listing| - 1];
      assert listing == init + [fname];
      ProviderNamesMembership(init, p);
      if IsProviderFile(fname) {
        assert Stem(fname) + ".py" == fname;
      }
      if p + ".py" == fname && p != "__init__" {
        assert fname[..|fname| - 3] == p;
        assert fname[|fname| - 3..] == ".py";
      }
    }
  }

  /** `list_providers`: walk the directory listing and collect provider names. */
  method ListProviders(listing: seq<string>) returns (providers: seq<string>)
    ensures providers == ProviderNames(listing)
  {
    providers := [];
    for i := 0 to |listing|
      invariant providers == ProviderNames(listing[..i])
    {
      var fname := listing[i];
      assert listing[..i + 1] == listing[..i] + [fname];
      ProviderNamesConcat(listing[..i], [fname]);
      if EndsWith(fname, ".py") && fname != InitFile {
        providers := providers + [fname[..|fname| - 3]];
      }
    }
    assert listing[..|listing|] == listing;
  }

  /** The listing of one file `p.py` names `p`, unless `p` is `__init__`. */
  lemma ProviderNamesOfFile(p: string)
    requires p != "__init__"
    ensures ProviderNames([p + ".py"]) == [p]
  {
    var fname := p + ".py";
    assert [fname][..0] == [fname][1..];
    assert fname[|fname| - 3..] == ".py";
    assert Stem(fname) == p;
  }

  /** Adding the file `p.py` at the end of a listing adds the name `p` at the end. */
  lemma ProviderNamesAddFile(listing: seq<string>, p: string)
    requires p != "__init__"
    ensures ProviderNames(listing + [p + ".py"]) == ProviderNames(listing) + [p]
  {
    ProviderNamesConcat(listing, [p + ".py"]);
    ProviderNamesOfFile(p);
  }

  /** How often `p` is listed: once per `p.py` entry, never for `__init__`. */
  lemma {:induction false} ProviderNamesCount(listing: seq<string>, p: string)
    ensures multiset(ProviderNames(listing))[p] == if p == "__init__" then 0 else multiset(listing)[p + ".py"]
  {
    if listing != [] {
      var init := listing[..|listing| - 1];
      var fname := listing[|listing| - 1];
      assert listing == init + [fname];
      ProviderNamesCount(init, p);
      if IsProviderFile(fname) {
        assert Stem(fname) + ".py" == fname;
      }
      if p + ".py" == fname && p != "__init__" {
        assert fname[..|fname| - 3] == p;
        assert fname[|fname| - 3..] == ".py";
      }
    }
  }

  /**
   * The order of the listing only reorders the names: listings with the same
   * entries give the same names, each as often.
   */
  lemma ProviderNamesPermutation(a: seq<string>, b: seq<string>)
    requires multiset(a) == multiset(b)
    ensures multiset(ProviderNames(a)) == multiset(ProviderNames(b))
  {
    forall p
      ensures multiset(ProviderNames(a))[p] == multiset(ProviderNames(b))[p]
    {
      ProviderNamesCount(a, p);
      ProviderNamesCount(b, p);
    }
  }

  /** A module's top-level symbols. */
  type Module = map<string, ProviderClass>

  /** The `provider` package: module name to module. */
  type Package = map<string, Module>

  /** An exception raised while loading a provider. */
  datatype LoadError =
    | ModuleNotFound(moduleName: string)                  // ModuleNotFoundError from import_module
    | MissingAttribute(moduleName: string, attr: string)  // AttributeError from getattr
    | ConstructorFailed(cause: ConstructError)            // TypeError from the class call

  /** The dotted name `provider.<name>` passed to `import_module`. */
  function QualifiedName(name: string): string {
    "provider." + name
  }

  /** The entries of the shipped src/provider directory, in one of their possible orders. */
  const BundledListing: seq<string> := ["__init__.py", "base.py", "openrouter.py", "__pycache__"]

  /**
   * The provider classes bound in the shipped src/provider package. The
   * package's own `__init__` and the `__pycache__` directory import as
   * modules without any provider class.
   */
  const BundledPackage: Package := map[
    "__init__" := map[],
    "__pycache__" := map[],
    "base" := map["ProviderBase" := ProviderBaseClass],
    "openrouter" := map["ProviderBase" := ProviderBaseClass,
                        "OpenRouterProvider" := OpenRouterProviderClass]
  ]

  /** `list_providers` on src/provider, in one listing order, names the abstract base module too. */
  lemma BundledProviderNames()
    ensures ProviderNames(BundledListing) == ["base", "openrouter"]
  {
    var listing := BundledListing;
    assert !IsProviderFile("__init__.py");
    assert !IsProviderFile("__pycache__");
    assert Stem("base.py") == "base";
    assert Stem("openrouter.py") == "openrouter";
    assert ProviderNames(listing[..1]) == [];
    assert listing[..2][..1] == listing[..1];
    assert ProviderNames(listing[..2]) == ["base"];
    assert listing[..3][..2] == listing[..2];
    assert ProviderNames(listing[..3]) == ["base", "openrouter"];
    assert listing[..3] == listing[..4][..3];
  }

  /**
   * Whatever order src/provider is listed in, the names are `base` and
   * `openrouter` once each: the abstract base module is offered as a provider.
   */
  lemma BundledProviderNamesAnyOrder(listing: seq<string>)
    requires multiset(listing) == multiset(BundledListing)
    ensures || ProviderNames(listing) == ["base", "openrouter"]
            || ProviderNames(listing) == ["openrouter", "base"]
  {
    BundledProviderNames();
    ProviderNamesPermutation(listing, BundledListing);
    assert "base"[0] != "openrouter"[0];
    TwoElements(ProviderNames(listing), "base", "openrouter");
  }

  /** The class name `load_provider` looks up: the module name followed by `Provider`. */
  function DerivedClassName(name: string): (r: string)
    ensures |r| == |name| + 8 && r[..|name|] == name && r[|name|..] == "Provider"
  {
    name + "Provider"
  }

  /**
   * `load_provider(name, api_key)`: import `provider.<name>`, fetch the
   * attribute `<name>Provider` and call it with the API key. Nothing is
   * caught: every failure reaches the caller.
   */
  function LoadProvider(pkg: Package, name: string, apiKey: string): (r: Result<Instance, LoadError>)
    ensures name !in pkg ==> r == Err(ModuleNotFound(QualifiedName(name)))
    ensures name in pkg && DerivedClassName(name) !in pkg[name] ==>
              r == Err(MissingAttribute(QualifiedName(name), DerivedClassName(name)))
    ensures r.Ok? <==> name in pkg && DerivedClassName(name) in pkg[name]
                       && Accepts(pkg[name][DerivedClassName(name)], 1)
    ensures r.Ok? ==> InstanceArgs(r.value) == [apiKey]
    ensures r.Ok? && pkg[name][DerivedClassName(name)] == OpenRouterProviderClass ==>
              r.value == OpenRouterInstance(OpenRouterProvider(apiKey))
  {
    if name !in pkg then Err(ModuleNotFound(QualifiedName(name)))
    else
      var symbols := pkg[name];
      var className := DerivedClassName(name);
      if className !in symbols then Err(MissingAttribute(QualifiedName(name), className))
      else
        match Construct(symbols[className], [apiKey])
        case Ok(p) => Ok(p)
        case Err(e) => Err(ConstructorFailed(e))
  }

  /** A plugin module that binds `<name>Provider` to a one-argument class loads, holding the key. */
  lemma PluginLoadsByDerivedName(pkg: Package, name: string, apiKey: string, className: string)
    requires name in pkg && DerivedClassName(name) in pkg[name]
    requires pkg[name][DerivedClassName(name)] == PluginClass(className, 1)
    ensures LoadProvider(pkg, name, apiKey) == Ok(PluginInstance(className, [apiKey]))
  {
  }

  /**
   * The class name derived for the shipped module differs in case from the class it
   * defines, so the shipped provider cannot be loaded through `load_provider`.
   */
  lemma BundledOpenRouterNotFound(apiKey: string)
    ensures DerivedClassName("openrouter") == "openrouterProvider"
    ensures DerivedClassName("openrouter") != ClassName(OpenRouterProviderClass)
    ensures LoadProvider(BundledPackage, "openrouter", apiKey)
         == Err(MissingAttribute("provider.openrouter", "openrouterProvider"))
  {
    assert "openrouterProvider"[0] != "OpenRouterProvider"[0];
    assert "openrouterProvider" !in BundledPackage["openrouter"];
    assert QualifiedName("openrouter") == "provider.openrouter";
  }

  /** No module of the shipped package yields a provider through `load_provider`. */
  lemma BundledPackageLoadsNothing(name: string, apiKey: string)
    ensures LoadProvider(BundledPackage, name, apiKey).Err?
  {
    BundledOpenRouterNotFound(apiKey);
  }

  /**
   * `run_provider(provider_name, api_key, model=None)`: load the provider and
   * return its `run(model)` result unchanged; a load failure propagates.
   */
  function RunProvider(pkg: Package, providerName: string, apiKey: string,
                       model: Option<string> := None): (r: Result<RunOutput, LoadError>)
    ensures LoadProvider(pkg, providerName, apiKey).Err? ==>
              r == Err(LoadProvider(pkg, providerName, apiKey).error)
    ensures LoadProvider(pkg, providerName, apiKey).Ok? ==>
              r == Ok(RunInstance(LoadProvider(pkg, providerName, apiKey).value, model))
    ensures r.Ok? && r.value.Returned? ==> r.value.text == OpenRouterProvider(apiKey).Run(model)
  {
    var provider :- LoadProvider(pkg, providerName, apiKey);
    Ok(RunInstance(provider, model))
  }

  /** Called with the module's `DEFAULT_PROVIDER` and `DEFAULT_MODEL` constants, `run_provider` fails on the shipped package. */
  lemma DefaultRunFails(apiKey: string)
    ensures RunProvider(BundledPackage, DefaultProvider, apiKey, Some(DefaultModel)).Err?
  {
    BundledOpenRouterNotFound(apiKey);
  }

  /** Had a module bound the derived name to OpenRouterProvider, the output would carry the key unchanged. */
  lemma RunProviderCarriesKey(pkg: Package, providerName: string, apiKey: string, model: Option<string>)
    requires RunProvider(pkg, providerName, apiKey, model).Ok?
    requires RunProvider(pkg, providerName, apiKey, model).value.Returned?
    ensures RunProvider(pkg, providerName, apiKey, model).value.text
         == RunPrefix + apiKey + ModelSeparator + ModelText(model)
  {
  }
}
