# Myder: provider loading and the tweet board, in Dafny

This project models the decision logic of two small, unrelated programs in the
Myder repository and proves properties of it.

* **The provider CLI** (`myder.py`, `src/myder_core.py`, `src/provider/`).
  - `list_providers` turns a directory listing into provider names. It is modelled once, as
    `MyderCore.ListProviders`, a loop proved against the specification function
    `MyderCore.ProviderNames`. The two copies in `myder.py` and `src/myder_core.py` are the same code.
  - Dynamic import is modelled as a *package*: a map from module name to the module's top-level
    symbols, each bound to a provider class. `getattr` is a lookup in that map, and calling a
    class is `Providers.Construct`. Besides the repository's two classes, a package may bind
    *plugin classes* defined elsewhere. Each plugin class is known by its name and by the number
    of constructor arguments it requires. The value its `run` returns is named by the call, since
    its code is not in the repository.
  - `src/myder_core.py` derives the class name as `name + "Provider"`, with no case change.
    For the shipped module `openrouter` that gives `openrouterProvider`, but the module defines
    `OpenRouterProvider`. `MyderCore.BundledOpenRouterNotFound` proves that loading the shipped
    provider therefore fails with an attribute error. `MyderCore.BundledPackageLoadsNothing` proves
    that no shipped module can be loaded this way.
  - `myder.py` always instantiates a module symbol named `Provider` with no arguments. A plugin class
    that takes no arguments loads, and its `run` is called once (`MyderCli.RunCallsZeroArgumentProvider`).
    Every provider class in the repository either needs the `api_key` argument of
    `ProviderBase.__init__` or is abstract, so with those classes that call always raises
    (`MyderCli.LoadProviderNeverSucceeds`).
  - `myder.py`'s `run` and `main` are functions that return the list of effects they perform:
    help text, printed lines, the docker build, process exit, and the call to a provider's `run`.
  - `OpenRouterProvider` is a value that holds the API key stored by the base constructor.
    Its `run` is a pure formatter.
* **The tweet board** (`app.py`, `models.py`).
  - `Tweet` is a datatype with the four columns of the table.
  - The table is the `tweets` field of the class `TweetBoard.TweetStore`.
  - The `index` route is the method `TweetStore.Index`. A POST that passes `Validate` appends
    exactly one tweet and redirects. Any other request leaves the table unchanged and renders
    `Timeline`, which holds every stored tweet, newest first.
  - Timestamps are integers passed in by the caller.

User accounts, registration, login and flash messages do not exist in `app.py` or `models.py`,
although `tests/test_app.py` exercises them. The model follows the code and leaves
them out. `tests/test_myder_core.py` calls `load_provider` with one argument and expects printed
output, which contradicts `src/myder_core.py`. The model follows `src/myder_core.py`.

## Model

| member | source | states |
|---|---|---|
| `MyderCore.ProviderNames` | src/myder_core.py:12-17 | the names are never more than the entries; `__init__` is never a name; each name `p` has `p + ".py"` in the listing |
| `MyderCore.ProviderNamesMembership` | src/myder_core.py:15-16 | `p` is listed exactly when `p + ".py"` is in the directory and `p` is not `__init__` (both directions) |
| `MyderCore.ProviderNamesConcat` | myder.py:9-13 | filtering distributes over concatenation of listings, so names come out in listing order |
| `MyderCore.ProviderNamesCount` | src/myder_core.py:14-16 | each name occurs as often as its `.py` file occurs in the listing, and `__init__` never does |
| `MyderCore.ProviderNamesPermutation` | src/myder_core.py:14-16 | two orders of the same directory entries give the same names, each as often |
| `MyderCore.ProviderNamesAddFile` | src/myder_core.py:14-16 | a file `p.py` added at the end of the listing adds `p` at the end of the names |
| `MyderCore.ListProviders` | src/myder_core.py:12-17 | the append loop returns exactly `ProviderNames(listing)` |
| `MyderCore.BundledProviderNames` | src/myder_core.py:10-17 | listed in the order `__init__.py`, `base.py`, `openrouter.py`, `__pycache__`, `src/provider` gives `base` then `openrouter` |
| `MyderCore.BundledProviderNamesAnyOrder` | src/myder_core.py:10-17 | in every order of the entries of `src/provider`, the names are `base` and `openrouter` once each, so the abstract base module is offered as a provider |
| `MyderCore.DerivedClassName` | src/myder_core.py:21 | the looked-up name is the module name unchanged followed by `Provider` |
| `MyderCore.LoadProvider` | src/myder_core.py:19-23 | a missing module gives ModuleNotFound; a missing `<name>Provider` attribute gives an attribute error; success holds exactly when that class accepts one argument; the instance is built from exactly `[api_key]`, and for `OpenRouterProvider` it stores that key |
| `MyderCore.PluginLoadsByDerivedName` | src/myder_core.py:21-23 | a module binding `<name>Provider` to a one-argument class loads an instance built from the key |
| `MyderCore.BundledOpenRouterNotFound` | src/myder_core.py:21-22 | for `openrouter` the derived name is `openrouterProvider`, not the defined class `OpenRouterProvider`, so loading fails with an attribute error |
| `MyderCore.BundledPackageLoadsNothing` | src/myder_core.py:19-23 | no module of the shipped provider package can be loaded through `load_provider` |
| `MyderCore.RunProvider` | src/myder_core.py:25-27 | a load failure propagates unchanged; otherwise the result is exactly the loaded instance's `run(model)` value; a text result is `OpenRouterProvider(api_key).run(model)` |
| `MyderCore.DefaultRunFails` | src/myder_core.py:1-2 | called with the module's `DEFAULT_PROVIDER` (`openrouter`) and `DEFAULT_MODEL` constants, `run_provider` fails on the shipped package; no function of the module uses them itself |
| `MyderCore.RunProviderCarriesKey` | src/myder_core.py:25-27 | a successful run of `OpenRouterProvider` returns the fixed prefix, the given API key, `, Model: ` and the rendered model |
| `Providers.Construct` | src/provider/base.py:4-5 | the abstract base always fails; `OpenRouterProvider` succeeds exactly with one argument and stores it as its key; a plugin class succeeds exactly with its required number of arguments; the instance keeps the arguments unchanged |
| `Providers.PropertiesAreConstant` | src/provider/openrouter.py:4-10 | `name` is `openrouter` and `base_url` is `https://openrouter.ai/api/v1` whatever the key |
| `Providers.RunLayout` | src/provider/openrouter.py:12-13 | `run` yields the fixed prefix, the stored key, `, Model: ` and `str(model)`; the key sits at a fixed offset |
| `Providers.RunDeterminesKey` | src/provider/openrouter.py:13 | for one model, equal outputs mean equal stored keys |
| `Providers.RunDeterminesModelText` | src/provider/openrouter.py:13 | for one provider, equal outputs mean equal rendered models |
| `Providers.RunAmbiguous` | src/provider/openrouter.py:12-13 | `None` renders like the model named `None`; a key containing `, Model: ` cannot be told from the model text |
| `MyderCli.LoadProvider` | myder.py:15-18 | a missing module or a missing `Provider` symbol is reported as such; a present symbol is called with no arguments, which succeeds exactly when the class takes none, and otherwise raises a constructor error |
| `MyderCli.LoadProviderNeverSucceeds` | myder.py:18 | for a package holding only the repository's provider classes, the no-argument call never yields a provider |
| `MyderCli.LoadOrExit` | myder.py:15-21 | a loaded provider is returned; any load error becomes the line `Provider load error: ...` followed by exit status 1 |
| `MyderCli.Run` | myder.py:26-31 | with no name or an empty name, only the hint is printed; otherwise a loaded provider's `run(model)` is invoked exactly once, or the error line and exit 1 follow; never help or build |
| `MyderCli.RunCallsZeroArgumentProvider` | myder.py:26-29 | when `Provider` takes no arguments, `run` and `main run` invoke the new instance's `run(model)` exactly once and print nothing |
| `MyderCli.Main` | myder.py:45-53 | `help` or no command prints help then the providers line; `build` builds; `run` runs; other words print help; build happens iff the command is `build`; help is printed iff the command is neither `build` nor `run` |
| `MyderCli.OnlyRunLoads` | myder.py:45-53 | a provider is invoked, or the process exits, only for `run` with a provider name |
| `MyderCli.BundledHelpLine` | myder.py:47 | if the directory beside `myder.py` held the entries of `src/provider`, in any order, the help line would be the label followed by `base, openrouter` or `openrouter, base` |
| `MyderCli.HelpLineGrows` | myder.py:47 | one more provider file at the end of the listing adds `, ` and its name to the help line |
| `Text.JoinSnoc` | myder.py:47 | joining one more name adds the separator and the name |
| `Text.IntToStringRoundTrip` | models.py:14 | the decimal id in `__repr__` reads back as the id |
| `Models.ReprShape` | models.py:13-14 | the representation opens with `<Tweet ` and closes with `>` |
| `Models.ReprDeterminesIdAndName` | models.py:13-14 | equal representations mean equal ids and equal usernames |
| `TweetBoard.Validate` | app.py:23-26 | a post passes exactly when `content` is present and non-empty; its content is kept; the username is the form's when present, else `名無しさん` |
| `TweetBoard.ValidateExamples` | app.py:23-26 | whitespace-only content passes; an empty username is kept; empty or missing content is refused |
| `TweetBoard.InsertNewest` | app.py:33 | inserting into a newest-first list keeps it newest first and adds exactly the one tweet |
| `TweetBoard.Timeline` | app.py:33 | the listing is ordered by `created_at` non-increasing and is a permutation of the stored tweets |
| `TweetBoard.TimelineMembers` | app.py:33 | a tweet is listed iff it is stored, and the listing has as many entries as the table |
| `TweetBoard.TimelineExample` | app.py:33 | tweets stamped 1, 2, 3 are listed as 3, 2, 1 |
| `TweetBoard.TweetStore.Listing` | app.py:33 | the rendered list is newest first and holds exactly the stored tweets |
| `TweetBoard.TweetStore.Index` | app.py:17-34 | a GET leaves the table unchanged; a passing POST appends exactly one tweet with the next id, the form's fields and the given time, then redirects; a failing POST changes nothing and renders the listing; ids stay distinct |
| `TweetBoard.DeclaredWidthNotEnforced` | models.py:10 | content longer than the declared 280 characters passes the handler's check |
| `TweetBoard.PostedTweetListed` | app.py:26-33 | after a post, the new tweet and every earlier tweet appear in the listing |

## Left out

- Flask request parsing, `render_template`, `redirect` and `url_for`: a request is a method and a form map, and the response is `Redirect` or `RenderList`.
- SQLAlchemy sessions, commits and SQLite: an in-memory sequence stands in for the table, and a counter stands in for SQLite's rowid assignment. Rows are never deleted, so the two give the same ids.
- The declared `String(80)` and `String(280)` widths: SQLite does not enforce them, so they are a predicate and not an invariant.
- `datetime.utcnow`: the insertion time is a parameter of `Index`.
- `TweetBoard.Timeline`: SQLite leaves the order of equal timestamps unspecified. The model lists the later-stored tweet first.
- `__repr__` of a tweet not yet inserted, whose id is still `None`.
- `os.listdir`, `importlib.import_module`, `print`, `sys.exit`, `argparse` and `os.system("docker build ...")`. The listing and the package are inputs, and printing, exiting and building are effect values.
- `build_docker` in `src/myder_core.py` only runs docker, so it is not modelled.
- The provider directory beside `myder.py` is not part of the repository. The CLI takes any package, holding the repository's classes or plugin classes.
- A plugin class's `run` is outside the repository. Its result is a symbolic value naming the class, the constructor arguments and the model. Plugin constructors that raise for reasons other than the argument count are not modelled.
- Module attributes other than provider classes, such as `ABC` and `abstractmethod` imported into `base.py`, are not modelled.
- `MyderCli.ErrorText`: the exact wording of Python's exception messages depends on the interpreter version. The abstract-class message is cut short after the class name, and a missing-argument message does not name the missing parameters.
- `api_key` and `model` values that are not strings or `None` are not modelled.
- Exceptions raised inside a provider's own `run` are not modelled. The only provider in the repository cannot raise.
