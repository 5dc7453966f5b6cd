/**
 * myder.py: the command-line front end. It lists provider modules, loads a
 * provider through a module-level symbol that is always named `Provider`,
 * and dispatches on the sub-command word.
 *
 * Printing, exiting and running docker are side effects; each entry point is
 * modelled as a function returning the effects it performs, in order.
 */
module MyderCli {
  import opened Wrappers
  import opened Text
  import opened Providers
  import MyderCore

  /** One observable effect of the command line. */
  datatype Effect =
    | PrintHelp                                            // parser.print_help()
    | PrintLine(text: string)                              // print(...)
    | DockerBuild                                          // os.system("docker build -t myder .")
    | Exit(status: int)                                    // sys.exit(status)
    | InvokeRun(provider: Instance, model: Option<string>) // provider.run(model), result discarded

  /** The one symbol this loader instantiates in every provider module. */
  const ProviderSymbol: string := "Provider"

  const LoadErrorPrefix: string := "Provider load error: "
  const NoProviderMessage: string := "No provider specified. Use --provider option."
  const ProvidersLabel: string := "\nAvailable providers: "

  /** The text Python gives the exception, as interpolated into the error line. */
  function ErrorText(e: MyderCore.LoadError): string {
    match e
    case ModuleNotFound(m) => "No module named '" + m + "'"
    case MissingAttribute(m, a) => "module '" + m + "' has no attribute '" + a + "'"
    case ConstructorFailed(AbstractClass(c)) => "Can't instantiate abstract class " + c
    case ConstructorFailed(WrongArgumentCount(init, required, given)) =>
      if given < required then
        init + "() missing " + IntToString(required - given) + " required positional argument"
          + Plural(required - given)
      else
        init + "() takes " + IntToString(required + 1) + " positional argument" + Plural(required + 1)
          + " but " + IntToString(given + 1) + " were given"
  }

  function Plural(n: nat): string {
    if n == 1 then "" else "s"
  }

  /**
   * The loading step of `load_provider(name)`: import `provider.<name>` and
   * call its `Provider` symbol with no arguments.
   */
  function LoadProvider(pkg: MyderCore.Package, name: string): (r: Result<Instance, MyderCore.LoadError>)
    ensures name !in pkg ==> r == Err(MyderCore.ModuleNotFound(MyderCore.QualifiedName(name)))
    ensures name in pkg && ProviderSymbol !in pkg[name] ==>
              r == Err(MyderCore.MissingAttribute(MyderCore.QualifiedName(name), ProviderSymbol))
    ensures name in pkg && ProviderSymbol in pkg[name] ==>
              (r.Ok? <==> Accepts(pkg[name][ProviderSymbol], 0))
    ensures r.Err? && name in pkg && ProviderSymbol in pkg[name] ==> r.error.ConstructorFailed?
    ensures r.Ok? ==> r.value == PluginInstance(pkg[name][ProviderSymbol].className, [])
  {
    if name !in pkg then Err(MyderCore.ModuleNotFound(MyderCore.QualifiedName(name)))
    else if ProviderSymbol !in pkg[name] then
      Err(MyderCore.MissingAttribute(MyderCore.QualifiedName(name), ProviderSymbol))
    else
      match Construct(pkg[name][ProviderSymbol], [])
      case Ok(p) => Ok(p)
      case Err(e) => Err(MyderCore.ConstructorFailed(e))
  }

  /** Every class a package binds is one of this repository's provider classes. */
  predicate RepositoryClassesOnly(pkg: MyderCore.Package) {
    forall m, sym :: m in pkg && sym in pkg[m] ==> !pkg[m][sym].PluginClass?
  }

  /**
   * Every provider class of this repository takes the API key as a required
   * argument (or is abstract), so with those classes the no-argument call
   * always raises.
   */
  lemma LoadProviderNeverSucceeds(pkg: MyderCore.Package, name: string)
    requires RepositoryClassesOnly(pkg)
    ensures LoadProvider(pkg, name).Err?
  {
  }

  /**
   * `load_provider(name)` as the command line observes it: the loaded
   * instance, or the error line followed by exit status 1.
   */
  function LoadOrExit(pkg: MyderCore.Package, name: string): (r: Result<Instance, seq<Effect>>)
    ensures r.Ok? <==> LoadProvider(pkg, name).Ok?
    ensures r.Ok? ==> r.value == LoadProvider(pkg, name).value
    ensures r.Err? ==> r.error == [PrintLine(LoadErrorPrefix + ErrorText(LoadProvider(pkg, name).error)),
                                   Exit(1)]
  {
    match LoadProvider(pkg, name)
    case Ok(p) => Ok(p)
    case Err(e) => Err([PrintLine(LoadErrorPrefix + ErrorText(e)), Exit(1)])
  }

  /** Python truthiness of the `--provider` value: neither `None` nor empty. */
  predicate Named(providerName: Option<string>) {
    providerName.Some? && providerName.value != ""
  }

  /**
   * `run(model=None, provider_name=None)`: without a provider name, print a
   * hint and load nothing; otherwise load the provider (exiting on failure)
   * and call its `run(model)` once, discarding the result.
   */
  function Run(pkg: MyderCore.Package, model: Option<string>, providerName: Option<string>): (effects: seq<Effect>)
    ensures !Named(providerName) ==> effects == [PrintLine(NoProviderMessage)]
    ensures Named(providerName) && LoadProvider(pkg, providerName.value).Ok? ==>
              effects == [InvokeRun(LoadProvider(pkg, providerName.value).value, model)]
    ensures Named(providerName) && LoadProvider(pkg, providerName.value).Err? ==>
              |effects| == 2 && effects[1] == Exit(1) && effects[0].PrintLine?
              && LoadErrorPrefix <= effects[0].text
    ensures DockerBuild !in effects && PrintHelp !in effects
  {
    if Named(providerName) then
      match LoadOrExit(pkg, providerName.value)
      case Ok(provider) => [InvokeRun(provider, model)]
      case Err(failure) => failure
    else
      [PrintLine(NoProviderMessage)]
  }

  /** The line printed after the help text: the provider names joined by ", ". */
  function ProvidersLine(listing: seq<string>): string {
    ProvidersLabel + Join(MyderCore.ProviderNames(listing), ", ")
  }

  /**
   * `main()` after argument parsing: `help` or no command prints the help and
   * the available providers, `build` builds the image, `run` runs, and any
   * other command word prints the help only.
   */
  function Main(listing: seq<string>, pkg: MyderCore.Package, command: Option<string>,
                model: Option<string>, providerName: Option<string>): (effects: seq<Effect>)
    ensures command == None || command == Some("help") ==>
              effects == [PrintHelp, PrintLine(ProvidersLine(listing))]
    ensures command == Some("build") ==> effects == [DockerBuild]
    ensures command == Some("run") ==> effects == Run(pkg, model, providerName)
    ensures command.Some? && command.value !in {"help", "build", "run"} ==> effects == [PrintHelp]
    ensures DockerBuild in effects <==> command == Some("build")
    ensures PrintHelp in effects <==> command != Some("build") && command != Some("run")
  {
    if command == Some("help") || command == None then
      [PrintHelp, PrintLine(ProvidersLine(listing))]
    else if command == Some("build") then
      [DockerBuild]
    else if command == Some("run") then
      Run(pkg, model, providerName)
    else
      [PrintHelp]
  }

  /**
   * A module whose `Provider` is a class taking no arguments is loaded, and
   * `run` calls the instance's `run(model)` once and prints nothing.
   */
  lemma RunCallsZeroArgumentProvider(listing: seq<string>, pkg: MyderCore.Package, name: string,
                                     className: string, model: Option<string>)
    requires name != "" && name in pkg && ProviderSymbol in pkg[name]
    requires pkg[name][ProviderSymbol] == PluginClass(className, 0)
    ensures Run(pkg, model, Some(name)) == [InvokeRun(PluginInstance(className, []), model)]
    ensures Main(listing, pkg, Some("run"), model, Some(name)) == [InvokeRun(PluginInstance(className, []), model)]
  {
  }

  /** Only `run` with a provider name can load a provider or exit. */
  lemma {:induction false} OnlyRunLoads(listing: seq<string>, pkg: MyderCore.Package, command: Option<string>,
                                        model: Option<string>, providerName: Option<string>)
    ensures forall e :: e in Main(listing, pkg, command, model, providerName) && (e.InvokeRun? || e.Exit?)
              ==> command == Some("run") && Named(providerName)
  {
  }

  /** With one more provider file, the help line gains the separator and that name. */
  lemma HelpLineGrows(listing: seq<string>, p: string)
    requires MyderCore.ProviderNames(listing) != [] && p != "__init__"
    ensures ProvidersLine(listing + [p + ".py"]) == ProvidersLine(listing) + ", " + p
  {
    var names := MyderCore.ProviderNames(listing);
    var grown := listing + [p + ".py"];
    MyderCore.ProviderNamesAddFile(listing, p);
    JoinSnoc(names, p, ", ");
    var j := Join(names, ", ");
    assert Join(MyderCore.ProviderNames(grown), ", ") == j + ", " + p;
  }

  /**
   * Were the `provider` directory beside myder.py to hold the entries of
   * src/provider, in whatever order, the help line would name `base` and
   * `openrouter`.
   */
  lemma BundledHelpLine(listing: seq<string>)
    requires multiset(listing) == multiset(MyderCore.BundledListing)
    ensures || ProvidersLine(listing) == ProvidersLabel + ("base" + ", " + "openrouter")
            || ProvidersLine(listing) == ProvidersLabel + ("openrouter" + ", " + "base")
  {
    MyderCore.BundledProviderNamesAnyOrder(listing);
    if MyderCore.ProviderNames(listing) == ["base", "openrouter"] {
      JoinPair("base", "openrouter", ", ");
    } else {
      JoinPair("openrouter", "base", ", ");
    }
  }
}
