# Wyam bootstrapping and `Execute` module — a Dafny model

This project models three small, self-contained parts of the Wyam static site
generator (the predecessor of Statiq):

- **`Execute`** (`Extensibility`, `execute.dfy`): the module whose behaviour is
  a user delegate. What the delegate returns, a C# `object`, is dispatched by
  runtime type tests. A single document becomes a one-element output. A
  document sequence is the output as it is. Anything else, null included,
  passes the input documents through. The same file has helpers: module
  dispatch (a single `IModule` is tested before a module sequence), content
  change (always exactly one new document) and the invalid-result error.
  The returned object is modelled as a record of which of the four interfaces
  its runtime type implements. One object may implement several, so the
  order of the type tests is visible and proved.
- **`ConfiguratorCollection`** (`Configuration`, `configuration.dfy`): a class
  over a map from a configurable type to its ordered list of configurators.
  `Get` creates an empty list on first use, `TryGet` never creates one, and
  every `Add` overload appends to one list and leaves the others alone.
- **`BootstrapperExtensions`** (`App`, `bootstrapper.dfy`): the fluent helpers
  that each append exactly one configurator and return the same
  bootstrapper, and `AddDefaultCommands` and `AddDefaultConfigurators`. It
  also has the bodies of the engine configurators they register: the
  shortcode loop (`Meta` also under "="), the file-provider loop with its
  scheme derivation, and the namespace filter (`Where`/`Select`/`Distinct`).
  The class catalog and the types of the common assembly are given sequences.

Shared helpers: `Wrappers` (Option/Result for null and exceptions), `Strings`
(ordinal `EndsWith`/`StartsWith`, `ToLowerInvariant`,
`string.IsNullOrWhiteSpace` over the full `char.IsWhiteSpace` set, LINQ
`Distinct`), `Reflection` (runtime types and the well-known ones used here).

The remarks on the `Execute` class (`Execute.cs:17-22`) speak of returning
modules from the delegate, to run them against the current documents. The
object-returning constructor (`Execute.cs:34-37`) does not do this: its
`GetDocuments(...) ?? inputs` treats a module result as "anything else" and
passes the inputs through. Only the separate helper `ExecuteModulesAsync`
runs modules. The model follows the code.

## Model

| member | source | states |
|---|---|---|
| `Extensibility.GetDocuments` | src/core/Wyam.Core/Modules/Extensibility/Execute.cs:72-73 | a document gives a one-element sequence, tested before the sequence case; a document sequence is returned as is; null exactly when the object is neither |
| `Extensibility.ExecuteAsync` | src/core/Wyam.Core/Modules/Extensibility/Execute.cs:34-70 | object delegate: a single document gives exactly `[d]`; a document sequence (even empty) is the output unchanged; null or any other value outputs the inputs in order; task and action constructors always output exactly the inputs |
| `Extensibility.ModulesOf` | src/core/Wyam.Core/Modules/Extensibility/Execute.cs:77-78 | an `IModule` becomes a one-element list even if it also enumerates modules; otherwise a module sequence as is; null iff neither |
| `Extensibility.ExecuteModulesAsync` | src/core/Wyam.Core/Modules/Extensibility/Execute.cs:75-80 | null iff the value is neither a module nor a module sequence; otherwise the context's execution of exactly those modules (the single module first) on the inputs |
| `Extensibility.NoModulesRunsNothing` | src/core/Wyam.Core/Modules/Extensibility/Execute.cs:78-79 | a value that is no module runs nothing: the result is null whatever the context |
| `Extensibility.ChangeContentAsync` | src/core/Wyam.Core/Modules/Extensibility/Execute.cs:82-83 | for a non-null result, exactly one document, made by the context from the input and the result's text; a null result throws |
| `Extensibility.ThrowInvalidDelegateResult` | src/core/Wyam.Core/Modules/Extensibility/Execute.cs:85-88 | never returns normally; the error names the result's runtime type (a null result fails with a null reference) |
| `Extensibility.InvalidResultMessage` | src/core/Wyam.Core/Modules/Extensibility/Execute.cs:87 | the message is the fixed prefix, then the offending type name, then the fixed suffix " is an invalid return type" |
| `Configuration.GetOrCreate` | src/core/Wyam.App/Configuration/ConfiguratorCollection.cs:27-31 | after `Get` the key is present; an absent key gets an empty list; existing entries are unchanged |
| `Configuration.GetOrCreateIdempotent` | src/core/Wyam.App/Configuration/ConfiguratorCollection.cs:27-31 | two `Get`s for one type create its entry at most once; `Get` on a present type changes nothing |
| `Configuration.Appended` | src/core/Wyam.App/Configuration/ConfiguratorCollection.cs:20-22 | one `Add` appends at the end of that type's list (creating it if needed); all other lists are unchanged |
| `Configuration.AppendedAll` | src/core/Wyam.App/Configuration/ConfiguratorCollection.cs:20-22 | a run of `Add`s for one type grows its list by exactly the added configurators in order; other lists unchanged |
| `Configuration.AppendedAllSnoc` | src/core/Wyam.App/Configuration/ConfiguratorCollection.cs:20-22 | one more `Add` after a run of them is the run extended by that configurator |
| `Configuration.ConfiguratorCollection.constructor` | src/core/Wyam.App/Configuration/ConfiguratorCollection.cs:9 | a new collection is empty |
| `Configuration.ConfiguratorCollection.Get` | src/core/Wyam.App/Configuration/ConfiguratorCollection.cs:24-33 | absent type: inserts an empty list and returns it; present type: map unchanged, returns the stored list |
| `Configuration.ConfiguratorCollection.TryGet` | src/core/Wyam.App/Configuration/ConfiguratorCollection.cs:35-45 | true with the stored list iff the type has an entry (even an empty one, so after any `Get`/`Add`); false with null otherwise; creates nothing |
| `Configuration.ConfiguratorCollection.Add` | src/core/Wyam.App/Configuration/ConfiguratorCollection.cs:20-22 | the new map is the old one with the configurator appended for that type |
| `Configuration.ConfiguratorCollection.AddAction` | src/core/Wyam.App/Configuration/ConfiguratorCollection.cs:16-18 | appends exactly one delegate configurator wrapping the action |
| `Configuration.ConfiguratorCollection.AddCreated` | src/core/Wyam.App/Configuration/ConfiguratorCollection.cs:11-14 | appends exactly one newly created configurator |
| `Strings.ToLowerInvariant` | src/core/Wyam.App/BootstrapperExtensions.cs:62 | same length; each character lower-cased |
| `Strings.Distinct` | src/core/Wyam.App/BootstrapperExtensions.cs:88 | no duplicates; exactly the elements of the input; never longer |
| `App.ShortcodesRegisteredByType` | src/core/Wyam.App/BootstrapperExtensions.cs:45-47 | each catalogued shortcode type is registered by type exactly as many times as the catalog lists it |
| `App.ShortcodesNamedOnlyMeta` | src/core/Wyam.App/BootstrapperExtensions.cs:49-53 | the only named registration is `Meta` under "=", present iff the catalog lists `Meta` |
| `App.Engine.AddShortcodes` | src/core/Wyam.App/BootstrapperExtensions.cs:43-55 | the shortcode registrations grow by exactly the loop's registrations in catalog order; other engine collections unchanged |
| `App.StripFileProvider` | src/core/Wyam.App/BootstrapperExtensions.cs:63-66 | a trailing "fileprovider" (12 characters) is removed, and nothing else |
| `App.SchemeAsWritten` | src/core/Wyam.App/BootstrapperExtensions.cs:62-70 | as written: the scheme is a prefix of the lower-cased name, and exactly 8 characters long whenever what is left after removing "fileprovider" ends with "provider" |
| `App.Scheme` | src/core/Wyam.App/BootstrapperExtensions.cs:62-70 | corrected: the lower-cased name is the scheme followed by one of "", "provider", "fileprovider", "providerfileprovider", the longest of them the name ends with; something is removed iff the name ends in "provider" |
| `App.SchemeAsWrittenAgrees` | src/core/Wyam.App/BootstrapperExtensions.cs:67-70 | for every type name, the code's scheme equals the corrected one iff what is left after removing "fileprovider" does not end with "provider" or is exactly 16 characters long |
| `App.SchemeAsWrittenKeepsProvider` | src/core/Wyam.App/BootstrapperExtensions.cs:67-74 | as written, a type named "Provider" gets the scheme "provider" and is registered; corrected, it gets the empty scheme and is not |
| `App.LocalFileProviderScheme` | src/core/Wyam.App/BootstrapperExtensions.cs:62-66 | "LocalFileProvider" gives "local" |
| `App.FileProviderSchemeEmpty` | src/core/Wyam.App/BootstrapperExtensions.cs:71-74 | "FileProvider" gives the empty scheme, so it is not registered |
| `App.SchemeAsWrittenTruncates` | src/core/Wyam.App/BootstrapperExtensions.cs:67-70 | as written "GitHubProvider" gives "githubpr", not the name minus any provider suffix; corrected it gives "github" |
| `App.ProviderRegistrationsWellFormed` | src/core/Wyam.App/BootstrapperExtensions.cs:71-74 | whatever the scheme derivation (the code's or the corrected one), every registration pairs a catalogued provider with its own scheme, never empty |
| `App.ProviderRegisteredOnce` | src/core/Wyam.App/BootstrapperExtensions.cs:60-74 | whatever the scheme derivation, a provider with a non-empty scheme is registered once per catalog occurrence; one with an empty scheme never |
| `App.Engine.AddFileProviders` | src/core/Wyam.App/BootstrapperExtensions.cs:58-76 | for a given scheme derivation (`App.SchemeAsWritten` for the code as written, `App.Scheme` as intended), the provider registrations grow by exactly the loop's registrations in catalog order; other engine collections unchanged |
| `App.SelectedNamespaces` | src/core/Wyam.App/BootstrapperExtensions.cs:85-87 | every selected namespace is a type's namespace that is not null or blank and does not start with "JetBrains.Profiler", and every such namespace is selected |
| `App.CommonNamespaces` | src/core/Wyam.App/BootstrapperExtensions.cs:85-88 | the same set of namespaces as the filter keeps, with no duplicates |
| `App.ModuleNamespaces` | src/core/Wyam.App/BootstrapperExtensions.cs:91-94 | one namespace per catalogued module, in order, with no filter (null kept) |
| `App.Engine.AddNamespaces` | src/core/Wyam.App/BootstrapperExtensions.cs:79-95 | the namespace list grows by the filtered distinct common namespaces, then the module namespaces |
| `App.CastableCount` | src/core/Wyam.App/BootstrapperExtensions.cs:34-38 | the number of leading catalog configurators that pass the cast; the next one, if any, fails it |
| `App.DefaultConfiguratorsLists` | src/core/Wyam.App/BootstrapperExtensions.cs:27-40 | afterwards `IConfigurableBootstrapper`'s list ends with all catalog configurators in order, `IBootstrapper`'s with those before the first failed cast; other lists unchanged |
| `App.Bootstrapper.AddAllConfigurators` | src/core/Wyam.App/BootstrapperExtensions.cs:29-33 | the first loop: the list for the type grows by exactly the catalog configurators, in catalog order; other lists unchanged |
| `App.Bootstrapper.AddCastableConfigurators` | src/core/Wyam.App/BootstrapperExtensions.cs:34-38 | the second loop: the list grows by the configurators before the first failed cast, in order; it fails iff some cast fails, naming the first such |
| `App.Bootstrapper.AddDefaultConfigurators` | src/core/Wyam.App/BootstrapperExtensions.cs:27-40 | the new map is as `DefaultConfiguratorsAdded` says; it throws iff some catalog configurator fails the cast, naming the first such; returns the same bootstrapper |
| `App.Bootstrapper.AddCommand` | src/core/Wyam.App/BootstrapperExtensions.cs:20-25 | appends exactly one command configurator and returns the same bootstrapper |
| `App.Bootstrapper.Configure` | src/core/Wyam.App/BootstrapperExtensions.cs:124-129 | appends exactly one delegate configurator for the type and returns the same bootstrapper |
| `App.Bootstrapper.AddConfiguratorOfType` | src/core/Wyam.App/BootstrapperExtensions.cs:131-137 | appends exactly one newly created configurator and returns the same bootstrapper |
| `App.Bootstrapper.AddConfigurator` | src/core/Wyam.App/BootstrapperExtensions.cs:139-146 | appends exactly the given configurator and returns the same bootstrapper |
| `App.Bootstrapper.AddPipeline` | src/core/Wyam.App/BootstrapperExtensions.cs:148-195 | each overload appends exactly one engine configurator and returns the same bootstrapper |
| `App.Bootstrapper.AddDefaultShortcodes` | src/core/Wyam.App/BootstrapperExtensions.cs:42-43 | appends exactly one engine configurator (the shortcode loop) |
| `App.Bootstrapper.AddDefaultFileProviders` | src/core/Wyam.App/BootstrapperExtensions.cs:57-58 | appends exactly one engine configurator (the file-provider loop) |
| `App.Bootstrapper.AddDefaultNamespaces` | src/core/Wyam.App/BootstrapperExtensions.cs:78-79 | appends exactly one engine configurator (the namespace filter) |
| `App.Bootstrapper.AddDefaultCommands` | src/core/Wyam.App/BootstrapperExtensions.cs:97-103 | `BuildCommand` becomes the default; the command list grows by "build" then "preview"; nothing else changes |

## Findings

| source | as written | input that shows it | evidently intended | confidence | as-written member | corrected member |
|---|---|---|---|---|---|---|
| src/core/Wyam.App/BootstrapperExtensions.cs:67-70 | a scheme ending in "provider" is cut to `Substring(0, 8)`, its first eight characters | a provider type named `GitHubProvider` gets scheme "githubpr" | `Substring(0, scheme.Length - 8)`, removing the suffix as lines 63-66 do for "fileprovider", giving "github" | medium, not executed | `App.SchemeAsWrittenTruncates` | `App.Scheme` |

`App.Engine.AddFileProviders` takes the scheme derivation as a parameter: with
`App.SchemeAsWritten` it is the loop as written, with `App.Scheme` the loop as
intended. `App.SchemeAsWrittenAgrees` states for every type name where the
two differ; a type named `Provider`, for one, gets "provider" as written and
the empty scheme, so no registration, as intended.

## Left out

- The execution engine, pipelines, scheduler, metadata, documents' content, config values and the execution cache are not part of this model. None of the modelled files contains them.
- `ParallelSyncConfigModule`, `EvaluateScript` and the test fixtures for `FileName`, `AnalyzeCSharpSyntax` and the YAML module are not part of this model. They are compiler or parser wrappers, or their implementation is not available.
- Tasks and `async`: every operation is synchronous. `IExecutionContext.ExecuteAsync` and `GetDocumentAsync` are given functions.
- Extensibility.ExecuteAsync: exceptions thrown by a user delegate, and the side effects of task and action delegates, are not modelled.
- Configuration.ConfiguratorCollection.Get: returns the stored list as a value. A `ConfiguratorList` view that stays live and sees later `Add`s is not modelled, and neither are the internals of `ConfiguratorList` and `DelegateConfigurator`.
- Strings.ToLowerInvariant: only 'A'..'Z' are lower-cased. Other Unicode letters keep their case.
- `EndsWith` and `StartsWith` are modelled as ordinal comparisons. .NET's default overloads are culture-sensitive.
- Type identity is namespace plus simple name; assemblies are ignored. The namespaces of the well-known types, and the type that `AddCommandConfigurator` configures (taken to be Spectre.Cli's `IConfigurator`), are assumed.
- App.Bootstrapper.AddDefaultCommands: `SetDefaultCommand` is defined outside the modelled files. It is modelled as recording the default command.
- App.Engine: the engine's shortcode, file-provider, namespace and pipeline collections are defined outside the modelled files. Shortcodes and file providers are modelled as ordered registration logs, so how those collections treat a repeated name or scheme is not modelled. `Namespaces` is modelled as an ordered list that `AddRange` extends, keeping duplicates across the two calls and null module namespaces; whether the engine's collection removes duplicates or rejects null is not modelled. `Pipelines.Add` is not modelled: an `AddPipeline` configurator records only its arguments.
- When the engine applies the registered configurators is not modelled. The `App.Engine` methods model the bodies of the configured delegates.
- Reflection and dependency injection (`ClassCatalog`, `Activator.CreateInstance`, `Assembly.GetTypes`) are replaced by given sequences and values.
- `AddDefaultTracing`: console listeners, the unhandled-exception hook and `Environment.Exit` are process I/O.
