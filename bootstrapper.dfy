/**
 * `BootstrapperExtensions` (src/core/Wyam.App/BootstrapperExtensions.cs): the
 * fluent helpers that register configurators on a bootstrapper, and the
 * bodies of the engine configurators they register (shortcodes, file
 * providers, namespaces).
 *
 * The class catalog and the types of the common assembly, found by
 * reflection in the program, are given sequences here.
 */
module App {
  import opened Wrappers
  import opened Strings
  import opened Reflection
  import opened Configuration
  import Extensibility

  // ---------------------------------------------------------------------------
  // Entities
  // ---------------------------------------------------------------------------

  /** The arguments of the nine `AddPipeline` overloads; pipelines and delegates by identity. */
  datatype PipelineSource =
    | ModuleList(modules: seq<Extensibility.ModuleRef>)
    | NamedModuleList(name: string, modules: seq<Extensibility.ModuleRef>)
    | ModuleArray(modules: seq<Extensibility.ModuleRef>)
    | NamedModuleArray(name: string, modules: seq<Extensibility.ModuleRef>)
    | PipelineInstance(pipeline: nat)
    | PipelineType(pipelineType: TypeInfo)
    | PipelineAction(action: nat)
    | NamedPipelineAction(name: string, action: nat)
    | TypedPipelineAction(pipelineType: TypeInfo, action: nat)

  /**
   * The delegates handed to `Configure<T>`: the engine set-up bodies of this
   * file, the body of an `AddPipeline` overload, or a caller's own action.
   */
  datatype Action =
    | RegisterShortcodes
    | RegisterFileProviders
    | RegisterNamespaces
    | AddPipelineTo(source: PipelineSource)
    | UserAction(action: nat)

  /**
   * A bootstrapper configurator found in the class catalog. The catalog lists
   * it as an `IConfigurator<IConfigurableBootstrapper>`; `alsoConfiguresBootstrapper`
   * says whether it can also be cast to `IConfigurator<IBootstrapper>`.
   */
  datatype CatalogConfigurator = CatalogConfigurator(configuratorType: TypeInfo, alsoConfiguresBootstrapper: bool)

  /** The configurator objects the helpers add. */
  datatype ConfiguratorInstance =
    | AddCommandConfigurator(command: TypeInfo, name: string)
    | FromCatalog(found: CatalogConfigurator)
    | Created(configuratorType: TypeInfo)   // `Activator.CreateInstance<TConfigurator>()`
    | Given(configurator: nat)              // a caller's `IConfigurator<T>`

  type AppConfigurator = Configurator<Action, ConfiguratorInstance>

  /** A file provider instance; its scheme comes from its runtime type name. */
  datatype FileProvider = FileProvider(providerType: TypeInfo, id: nat)

  /** What the class catalog returns for the queries of this file. */
  datatype ClassCatalog = ClassCatalog(
    bootstrapperConfigurators: seq<CatalogConfigurator>,  // GetInstances<IConfigurator<IConfigurableBootstrapper>>()
    shortcodes: seq<TypeInfo>,                            // GetAssignableFrom<IShortcode>()
    fileProviders: seq<FileProvider>,                     // GetInstances<IFileProvider>()
    modules: seq<TypeInfo>)                               // GetAssignableFrom<IModule>()

  /** A shortcode registration: under the name the type gives itself, or under an explicit name. */
  datatype Shortcode = ByType(shortcodeType: TypeInfo) | Named(name: string, shortcodeType: TypeInfo)

  datatype Error = InvalidCast(typeName: string)

  // ---------------------------------------------------------------------------
  // Shortcodes
  // ---------------------------------------------------------------------------

  /** The registrations one catalogued shortcode type contributes. */
  function ShortcodeEntries(t: TypeInfo): seq<Shortcode>
  {
    if t == Meta then [ByType(t), Named("=", t)] else [ByType(t)]
  }

  /** The registrations made by the shortcode loop, in catalog order. */
  function ShortcodeRegistrations(types: seq<TypeInfo>): seq<Shortcode>
  {
    if |types| == 0 then []
    else ShortcodeRegistrations(types[..|types| - 1]) + ShortcodeEntries(types[|types| - 1])
  }

  /** Every catalogued shortcode type is registered by type once per time the catalog lists it. */
  lemma {:induction false} ShortcodesRegisteredByType(types: seq<TypeInfo>, t: TypeInfo)
    ensures multiset(ShortcodeRegistrations(types))[ByType(t)] == multiset(types)[t]
  {
    if |types| > 0 {
      var init, last := types[..|types| - 1], types[|types| - 1];
      ShortcodesRegisteredByType(init, t);
      SplitLast(types);
      assert multiset(ShortcodeRegistrations(types))[ByType(t)] ==
             multiset(ShortcodeRegistrations(init))[ByType(t)] + multiset(ShortcodeEntries(last))[ByType(t)];
    }
  }

  /**
   * The only registration under an explicit name is `Meta` under "=", and it
   * is made exactly when the catalog lists `Meta`.
   */
  lemma {:induction false} ShortcodesNamedOnlyMeta(types: seq<TypeInfo>)
    ensures forall r :: r in ShortcodeRegistrations(types) && r.Named? ==> r == Named("=", Meta)
    ensures Named("=", Meta) in ShortcodeRegistrations(types) <==> Meta in types
  {
    if |types| > 0 {
      var init, last := types[..|types| - 1], types[|types| - 1];
      ShortcodesNamedOnlyMeta(init);
      SplitLast(types);
      assert Meta in types <==> Meta in init || Meta == last;
    }
  }

  // ---------------------------------------------------------------------------
  // File provider schemes
  // ---------------------------------------------------------------------------

  /** A lower-cased name less a trailing "fileprovider" (12 characters). */
  function StripFileProvider(lower: string): (s: string)
    ensures EndsWith(lower, "fileprovider") ==> s + "fileprovider" == lower
    ensures !EndsWith(lower, "fileprovider") ==> s == lower
  {
    if EndsWith(lower, "fileprovider") then lower[..|lower| - 12] else lower
  }

  /**
   * The scheme exactly as `AddDefaultFileProviders` computes it from the
   * runtime type name: lower-cased, less a trailing "fileprovider", and when
   * what is left still ends with "provider", only its first eight characters.
   */
  function SchemeAsWritten(typeName: string): (scheme: string)
    ensures StartsWith(ToLowerInvariant(typeName), scheme)
    ensures EndsWith(StripFileProvider(ToLowerInvariant(typeName)), "provider") ==> |scheme| == 8
  {
    var s := StripFileProvider(ToLowerInvariant(typeName));
    if EndsWith(s, "provider") then s[..8] else s
  }

  /** The suffixes the scheme derivation is meant to remove from the lower-cased name. */
  const ProviderSuffixes: set<string> := {"", "provider", "fileprovider", "providerfileprovider"}

  /** What is left of a lower-cased name once a provider suffix is removed. */
  predicate LessProviderSuffix(lower: string, scheme: string)
  {
    StartsWith(lower, scheme) && lower[|scheme|..] in ProviderSuffixes
  }

  /**
   * A name ending in "providerfileprovider" also ends in "fileprovider", and
   * what `StripFileProvider` leaves of it ends in "provider".
   */
  lemma ProviderFileProviderSuffix(lower: string)
    requires EndsWith(lower, "providerfileprovider")
    ensures EndsWith(lower, "fileprovider")
    ensures EndsWith(StripFileProvider(lower), "provider")
  {
    var n := |lower|;
    assert lower[n - 12..] == lower[n - 20..][8..] == "providerfileprovider"[8..] == "fileprovider";
    var s := StripFileProvider(lower);
    assert s == lower[..n - 12];
    assert s[|s| - 8..] == lower[n - 20..n - 12] == lower[n - 20..][..8] == "providerfileprovider"[..8] == "provider";
  }

  /**
   * What removing a remaining "provider" from `StripFileProvider`'s result
   * leaves: the name less one of the provider suffixes, the longest one it
   * ends with.
   */
  lemma StripProviderSuffixes(lower: string, s: string, scheme: string)
    requires s == StripFileProvider(lower)
    requires scheme == if EndsWith(s, "provider") then s[..|s| - 8] else s
    ensures LessProviderSuffix(lower, scheme)
    ensures |scheme| < |lower| <==> EndsWith(lower, "provider")
    ensures forall x :: x in ProviderSuffixes && EndsWith(lower, x) ==> |x| <= |lower| - |scheme|
  {
    if EndsWith(s, "provider") {
      assert s == scheme + "provider";
    }
    if EndsWith(lower, "fileprovider") {
      if EndsWith(s, "provider") {
        assert lower == scheme + "providerfileprovider";
      }
      assert lower == s + "fileprovider";
      assert lower[|lower| - 8..] == "fileprovider"[4..];
    }
    assert lower == scheme + lower[|scheme|..];
    if EndsWith(lower, "providerfileprovider") {
      ProviderFileProviderSuffix(lower);
    }
  }

  /** The scheme derived from a lower-cased type name, removing the provider suffix it ends with. */
  function SchemeOf(lower: string): (scheme: string)
    ensures LessProviderSuffix(lower, scheme)
    ensures |scheme| < |lower| <==> EndsWith(lower, "provider")
    ensures forall x :: x in ProviderSuffixes && EndsWith(lower, x) ==> |x| <= |lower| - |scheme|
  {
    var s := StripFileProvider(lower);
    var scheme := if EndsWith(s, "provider") then s[..|s| - 8] else s;
    StripProviderSuffixes(lower, s, scheme);
    scheme
  }

  /**
   * The scheme with a remaining "provider" suffix removed: the lower-cased type
   * name is the scheme followed by one of the provider suffixes, and something
   * is removed exactly when that name ends with "provider".
   */
  function Scheme(typeName: string): (scheme: string)
    ensures LessProviderSuffix(ToLowerInvariant(typeName), scheme)
    ensures |scheme| < |typeName| <==> EndsWith(ToLowerInvariant(typeName), "provider")
    ensures forall x :: x in ProviderSuffixes && EndsWith(ToLowerInvariant(typeName), x) ==> |x| <= |typeName| - |scheme|
  {
    SchemeOf(ToLowerInvariant(typeName))
  }

  /**
   * The scheme as written agrees with the corrected one exactly when what is
   * left after removing "fileprovider" does not end with "provider", or is
   * 16 characters long, so that its first eight characters are all but the
   * last eight.
   */
  lemma SchemeAsWrittenAgrees(typeName: string)
    ensures var s := StripFileProvider(ToLowerInvariant(typeName));
      SchemeAsWritten(typeName) == Scheme(typeName) <==> !EndsWith(s, "provider") || |s| == 16
  {
    var s := StripFileProvider(ToLowerInvariant(typeName));
    if EndsWith(s, "provider") {
      assert |SchemeAsWritten(typeName)| == 8 && |Scheme(typeName)| == |s| - 8;
    }
  }

  /** "LocalFileProvider" gets the scheme "local", both as written and as intended. */
  lemma LocalFileProviderScheme()
    ensures SchemeAsWritten("LocalFileProvider") == Scheme("LocalFileProvider") == "local"
  {
    var lower := ToLowerInvariant("LocalFileProvider");
    assert lower == "localfileprovider";
    assert lower[5..] == "fileprovider";
    assert StripFileProvider(lower) == lower[..5] == "local";
    assert !EndsWith("local", "provider");
  }

  /** A type named just "FileProvider" derives the empty scheme, so it is never registered. */
  lemma FileProviderSchemeEmpty()
    ensures SchemeAsWritten("FileProvider") == Scheme("FileProvider") == ""
  {
    var lower := ToLowerInvariant("FileProvider");
    assert lower == "fileprovider";
    assert lower[0..] == "fileprovider";
    assert StripFileProvider(lower) == [];
    assert !EndsWith([], "provider");
  }

  /**
   * As written, a provider whose name ends in "Provider" but not in
   * "FileProvider" loses more than the suffix: "GitHubProvider" gets
   * "githubpr", which is not "githubprovider" less any provider suffix.
   */
  lemma SchemeAsWrittenTruncates()
    ensures SchemeAsWritten("GitHubProvider") == "githubpr"
    ensures Scheme("GitHubProvider") == "github"
    ensures ToLowerInvariant("GitHubProvider")[|SchemeAsWritten("GitHubProvider")|..] !in ProviderSuffixes
  {
    var lower := ToLowerInvariant("GitHubProvider");
    assert lower == "githubprovider";
    assert !EndsWith(lower, "fileprovider") by { assert lower[2..] != "fileprovider"; }
    assert StripFileProvider(lower) == lower;
    assert lower[6..] == "provider";
    assert EndsWith(lower, "provider");
    assert lower[..8] == "githubpr";
    assert lower[..6] == "github";
    assert lower[8..] == "ovider";
  }

  /**
   * As written, a type named just "Provider" keeps the scheme "provider" and
   * is registered under it; the corrected derivation gives the empty scheme,
   * as for "FileProvider", so it is not registered.
   */
  lemma SchemeAsWrittenKeepsProvider()
    ensures SchemeAsWritten("Provider") == "provider"
    ensures Scheme("Provider") == ""
  {
    var lower := ToLowerInvariant("Provider");
    assert lower == "provider";
    assert !EndsWith(lower, "fileprovider");
    assert StripFileProvider(lower) == lower;
    assert lower[0..] == "provider";
    assert EndsWith(lower, "provider");
    assert lower[..8] == lower;
  }

  /**
   * The registrations the file-provider loop makes when `schemeOf` derives
   * the scheme from the type name: each provider with a non-empty scheme, in
   * catalog order. The engine uses `Scheme`; the lemmas below hold for
   * `SchemeAsWritten` as well.
   */
  function ProviderRegistrations(providers: seq<FileProvider>, schemeOf: string -> string): seq<(string, FileProvider)>
  {
    if |providers| == 0 then []
    else
      var last := providers[|providers| - 1];
      var scheme := schemeOf(last.providerType.name);
      ProviderRegistrations(providers[..|providers| - 1], schemeOf) + (if scheme != "" then [(scheme, last)] else [])
  }

  /** Every registration pairs a catalogued provider with its own scheme, which is never empty. */
  lemma {:induction false} ProviderRegistrationsWellFormed(providers: seq<FileProvider>, schemeOf: string -> string)
    ensures forall r :: r in ProviderRegistrations(providers, schemeOf) ==>
              r.0 == schemeOf(r.1.providerType.name) && r.0 != "" && r.1 in providers
  {
    if |providers| > 0 {
      var init := providers[..|providers| - 1];
      ProviderRegistrationsWellFormed(init, schemeOf);
      assert forall p :: p in init ==> p in providers;
    }
  }

  /**
   * A provider with a non-empty scheme is registered exactly as often as the
   * catalog lists it; one whose scheme is empty is never registered.
   */
  lemma {:induction false} ProviderRegisteredOnce(providers: seq<FileProvider>, schemeOf: string -> string, p: FileProvider)
    ensures multiset(ProviderRegistrations(providers, schemeOf))[(schemeOf(p.providerType.name), p)] ==
              if schemeOf(p.providerType.name) != "" then multiset(providers)[p] else 0
  {
    if |providers| > 0 {
      var init, last := providers[..|providers| - 1], providers[|providers| - 1];
      ProviderRegisteredOnce(init, schemeOf, p);
      var x := (schemeOf(p.providerType.name), p);
      var scheme := schemeOf(last.providerType.name);
      var added := if scheme != "" then [(scheme, last)] else [];
      assert ProviderRegistrations(providers, schemeOf) == ProviderRegistrations(init, schemeOf) + added;
      assert multiset(ProviderRegistrations(providers, schemeOf))[x] ==
        multiset(ProviderRegistrations(init, schemeOf))[x] + multiset(added)[x];
      SplitLast(providers);
      if last == p {
        assert multiset(added)[x] == if scheme != "" then 1 else 0;
      } else {
        assert multiset(added)[x] == 0;
      }
    }
  }

  // ---------------------------------------------------------------------------
  // Namespaces
  // ---------------------------------------------------------------------------

  /** The filter on the common assembly's namespaces: not null or blank, and not the profiler's. */
  predicate KeptNamespace(ns: Option<string>)
  {
    !IsNullOrWhiteSpace(ns) && !StartsWith(ns.value, "JetBrains.Profiler")
  }

  /** `Where(...).Select(x => x.Namespace)` over the common assembly's types. */
  function SelectedNamespaces(types: seq<TypeInfo>): (r: seq<string>)
    ensures forall i :: 0 <= i < |r| ==>
              KeptNamespace(Some(r[i])) && exists j :: 0 <= j < |types| && types[j].namespace == Some(r[i])
    ensures forall j :: 0 <= j < |types| && KeptNamespace(types[j].namespace) ==> types[j].namespace.value in r
  {
    if |types| == 0 then []
    else
      var init, last := types[..|types| - 1], types[|types| - 1];
      var r := SelectedNamespaces(init) + (if KeptNamespace(last.namespace) then [last.namespace.value] else []);
      assert forall j :: 0 <= j < |init| ==> init[j] == types[j];
      r
  }

  /**
   * The namespaces of the common assembly that are added: each one at most
   * once, exactly those of some type that the filter keeps.
   */
  function CommonNamespaces(types: seq<TypeInfo>): (r: seq<string>)
    ensures NoDuplicates(r)
    ensures forall i :: 0 <= i < |r| ==>
              KeptNamespace(Some(r[i])) && exists j :: 0 <= j < |types| && types[j].namespace == Some(r[i])
    ensures forall j :: 0 <= j < |types| && KeptNamespace(types[j].namespace) ==> types[j].namespace.value in r
  {
    var selected := SelectedNamespaces(types);
    var r := Distinct(selected);
    assert forall i :: 0 <= i < |r| ==> r[i] in selected;
    r
  }

  /** The module namespaces, added as they are: no filter, no de-duplication, null included. */
  function ModuleNamespaces(types: seq<TypeInfo>): (r: seq<Option<string>>)
    ensures |r| == |types|
    ensures forall i :: 0 <= i < |types| ==> r[i] == types[i].namespace
  {
    seq(|types|, i requires 0 <= i < |types| => types[i].namespace)
  }

  /** Namespace strings as the (nullable) entries of the engine's namespace list. */
  function NonNull(names: seq<string>): (r: seq<Option<string>>)
    ensures |r| == |names|
    ensures forall i :: 0 <= i < |names| ==> r[i] == Some(names[i])
  {
    seq(|names|, i requires 0 <= i < |names| => Some(names[i]))
  }

  // ---------------------------------------------------------------------------
  // Default bootstrapper configurators
  // ---------------------------------------------------------------------------

  /** The catalog configurators as the objects stored in the collection. */
  function AsConfigurators(found: seq<CatalogConfigurator>): (r: seq<AppConfigurator>)
    ensures |r| == |found|
    ensures forall i :: 0 <= i < |found| ==> r[i] == ConfiguratorObject(FromCatalog(found[i]))
  {
    seq(|found|, i requires 0 <= i < |found| => ConfiguratorObject(FromCatalog(found[i])))
  }

  /** Converting one more catalog configurator extends the converted sequence by it. */
  lemma AsConfiguratorsSnoc(found: seq<CatalogConfigurator>, i: nat)
    requires i < |found|
    ensures AsConfigurators(found[..i + 1]) == AsConfigurators(found[..i]) + [ConfiguratorObject(FromCatalog(found[i]))]
  {
  }

  /** Adding the next catalog configurator extends the run of adds for `t` by one. */
  lemma AddNextConfigurator(start: map<TypeInfo, seq<AppConfigurator>>, t: TypeInfo, found: seq<CatalogConfigurator>, i: nat,
                            before: map<TypeInfo, seq<AppConfigurator>>, after: map<TypeInfo, seq<AppConfigurator>>)
    requires i < |found|
    requires before == AppendedAll(start, t, AsConfigurators(found[..i]))
    requires after == Appended(before, t, ConfiguratorObject(FromCatalog(found[i])))
    ensures after == AppendedAll(start, t, AsConfigurators(found[..i + 1]))
  {
    AsConfiguratorsSnoc(found, i);
    AppendedAllSnoc(start, t, AsConfigurators(found[..i]), ConfiguratorObject(FromCatalog(found[i])));
  }

  /** How many catalog configurators, from the first, can be cast to `IConfigurator<IBootstrapper>`. */
  function CastableCount(found: seq<CatalogConfigurator>): (n: nat)
    ensures n <= |found|
    ensures forall i :: 0 <= i < n ==> found[i].alsoConfiguresBootstrapper
    ensures n < |found| ==> !found[n].alsoConfiguresBootstrapper
  {
    if |found| == 0 || !found[0].alsoConfiguresBootstrapper then 0
    else 1 + CastableCount(found[1..])
  }

  /** The castable prefix ends at the first configurator the cast rejects. */
  lemma {:induction false} CastableCountAt(found: seq<CatalogConfigurator>, n: nat)
    requires n <= |found|
    requires forall j :: 0 <= j < n ==> found[j].alsoConfiguresBootstrapper
    requires n < |found| ==> !found[n].alsoConfiguresBootstrapper
    ensures CastableCount(found) == n
  {
    if n > 0 {
      CastableCountAt(found[1..], n - 1);
    }
  }

  /**
   * The dictionary after `AddDefaultConfigurators`: every catalog configurator
   * is added for `IConfigurableBootstrapper`, then again for `IBootstrapper`
   * up to the first one the cast rejects.
   */
  function DefaultConfiguratorsAdded(m: map<TypeInfo, seq<AppConfigurator>>, found: seq<CatalogConfigurator>): map<TypeInfo, seq<AppConfigurator>>
  {
    var first := AppendedAll(m, IConfigurableBootstrapper, AsConfigurators(found));
    AppendedAll(first, IBootstrapper, AsConfigurators(found[..CastableCount(found)]))
  }

  /**
   * After `AddDefaultConfigurators` the list for `IConfigurableBootstrapper`
   * ends with all catalog configurators in catalog order, the list for
   * `IBootstrapper` ends with those before the first failed cast, and all
   * other lists are unchanged.
   */
  lemma DefaultConfiguratorsLists(m: map<TypeInfo, seq<AppConfigurator>>, found: seq<CatalogConfigurator>)
    ensures Lookup(DefaultConfiguratorsAdded(m, found), IConfigurableBootstrapper) ==
              Lookup(m, IConfigurableBootstrapper) + AsConfigurators(found)
    ensures Lookup(DefaultConfiguratorsAdded(m, found), IBootstrapper) ==
              Lookup(m, IBootstrapper) + AsConfigurators(found[..CastableCount(found)])
    ensures forall k :: k in m && k != IConfigurableBootstrapper && k != IBootstrapper ==>
              k in DefaultConfiguratorsAdded(m, found) && DefaultConfiguratorsAdded(m, found)[k] == m[k]
  {
  }

  // ---------------------------------------------------------------------------
  // The engine collections the configurators fill
  // ---------------------------------------------------------------------------

  class Engine {
    /** `Shortcodes`, as the registrations made so far. */
    var shortcodes: seq<Shortcode>
    /** `FileSystem.FileProviders`, as the (scheme, provider) registrations made so far. */
    var fileProviders: seq<(string, FileProvider)>
    /** `Namespaces` */
    var namespaces: seq<Option<string>>

    constructor ()
      ensures shortcodes == [] && fileProviders == [] && namespaces == []
    {
      shortcodes, fileProviders, namespaces := [], [], [];
    }

    /** The body `AddDefaultShortcodes` configures: each catalogued type by type, and `Meta` also as "=". */
    method AddShortcodes(types: seq<TypeInfo>)
      modifies this
      ensures shortcodes == old(shortcodes) + ShortcodeRegistrations(types)
      ensures fileProviders == old(fileProviders) && namespaces == old(namespaces)
    {
      var i := 0;
      while i < |types|
        invariant 0 <= i <= |types|
        invariant shortcodes == old(shortcodes) + ShortcodeRegistrations(types[..i])
        invariant fileProviders == old(fileProviders) && namespaces == old(namespaces)
      {
        var shortcode := types[i];
        assert types[..i + 1][..i] == types[..i];
        shortcodes := shortcodes + [ByType(shortcode)];
        if shortcode == Meta {
          shortcodes := shortcodes + [Named("=", shortcode)];
        }
        i := i + 1;
      }
      assert types[..i] == types;
    }

    /**
     * The body `AddDefaultFileProviders` configures: each provider under the
     * scheme `schemeOf` derives from its type name, unless that is empty.
     * With `SchemeAsWritten` this is the loop as the code has it; with
     * `Scheme`, the loop as evidently intended.
     */
    method AddFileProviders(providers: seq<FileProvider>, schemeOf: string -> string)
      modifies this
      ensures fileProviders == old(fileProviders) + ProviderRegistrations(providers, schemeOf)
      ensures shortcodes == old(shortcodes) && namespaces == old(namespaces)
    {
      var i := 0;
      while i < |providers|
        invariant 0 <= i <= |providers|
        invariant fileProviders == old(fileProviders) + ProviderRegistrations(providers[..i], schemeOf)
        invariant shortcodes == old(shortcodes) && namespaces == old(namespaces)
      {
        var fileProvider := providers[i];
        assert providers[..i + 1][..i] == providers[..i];
        var scheme := schemeOf(fileProvider.providerType.name);
        if scheme != "" {
          fileProviders := fileProviders + [(scheme, fileProvider)];
        }
        i := i + 1;
      }
      assert providers[..i] == providers;
    }

    /**
     * The body `AddDefaultNamespaces` configures: the filtered, distinct
     * namespaces of the common assembly, then the namespace of every catalogued
     * module.
     */
    method AddNamespaces(commonTypes: seq<TypeInfo>, moduleTypes: seq<TypeInfo>)
      modifies this
      ensures namespaces == old(namespaces) + NonNull(CommonNamespaces(commonTypes)) + ModuleNamespaces(moduleTypes)
      ensures shortcodes == old(shortcodes) && fileProviders == old(fileProviders)
    {
      namespaces := namespaces + NonNull(CommonNamespaces(commonTypes));
      namespaces := namespaces + ModuleNamespaces(moduleTypes);
    }
  }

  // ---------------------------------------------------------------------------
  // The bootstrapper and its fluent helpers
  // ---------------------------------------------------------------------------

  class Bootstrapper {
    /** `Configurators` */
    const configurators: ConfiguratorCollection<Action, ConfiguratorInstance>
    /** `ClassCatalog` */
    const catalog: ClassCatalog
    /** The command `SetDefaultCommand` chose, if any. */
    var defaultCommand: Option<TypeInfo>

    constructor (catalog: ClassCatalog)
      ensures this.catalog == catalog && defaultCommand == None
      ensures fresh(configurators) && configurators.configurators == map[]
    {
      this.catalog := catalog;
      configurators := new ConfiguratorCollection();
      defaultCommand := None;
    }

    /** `AddCommand<TCommand>(name)`: appends one command configurator and returns this bootstrapper. */
    method AddCommand(command: TypeInfo, name: string) returns (b: Bootstrapper)
      modifies configurators
      ensures b == this
      ensures configurators.configurators ==
                Appended(old(configurators.configurators), CommandConfigurator,
                         ConfiguratorObject(AddCommandConfigurator(command, name)))
    {
      configurators.Add(CommandConfigurator, ConfiguratorObject(AddCommandConfigurator(command, name)));
      b := this;
    }

    /** `Configure<T>(action)`: appends the action for `t` and returns this bootstrapper. */
    method Configure(t: TypeInfo, action: Action) returns (b: Bootstrapper)
      modifies configurators
      ensures b == this
      ensures configurators.configurators == Appended(old(configurators.configurators), t, DelegateConfigurator(action))
    {
      configurators.AddAction(t, action);
      b := this;
    }

    /** `AddConfigurator<T, TConfigurator>()`: appends a new `TConfigurator` for `t`. */
    method AddConfiguratorOfType(t: TypeInfo, configuratorType: TypeInfo) returns (b: Bootstrapper)
      modifies configurators
      ensures b == this
      ensures configurators.configurators ==
                Appended(old(configurators.configurators), t, ConfiguratorObject(Created(configuratorType)))
    {
      configurators.AddCreated(t, Created(configuratorType));
      b := this;
    }

    /** `AddConfigurator<T>(configurator)`: appends the given configurator for `t`. */
    method AddConfigurator(t: TypeInfo, configurator: nat) returns (b: Bootstrapper)
      modifies configurators
      ensures b == this
      ensures configurators.configurators ==
                Appended(old(configurators.configurators), t, ConfiguratorObject(Given(configurator)))
    {
      configurators.Add(t, ConfiguratorObject(Given(configurator)));
      b := this;
    }

    /** Every `AddPipeline` overload: one engine configurator that adds the pipeline. */
    method AddPipeline(source: PipelineSource) returns (b: Bootstrapper)
      modifies configurators
      ensures b == this
      ensures configurators.configurators ==
                Appended(old(configurators.configurators), IEngine, DelegateConfigurator(AddPipelineTo(source)))
    {
      b := Configure(IEngine, AddPipelineTo(source));
    }

    /** `AddDefaultShortcodes`: one engine configurator running the shortcode loop. */
    method AddDefaultShortcodes() returns (b: Bootstrapper)
      modifies configurators
      ensures b == this
      ensures configurators.configurators ==
                Appended(old(configurators.configurators), IEngine, DelegateConfigurator(RegisterShortcodes))
    {
      b := Configure(IEngine, RegisterShortcodes);
    }

    /** `AddDefaultFileProviders`: one engine configurator running the file-provider loop. */
    method AddDefaultFileProviders() returns (b: Bootstrapper)
      modifies configurators
      ensures b == this
      ensures configurators.configurators ==
                Appended(old(configurators.configurators), IEngine, DelegateConfigurator(RegisterFileProviders))
    {
      b := Configure(IEngine, RegisterFileProviders);
    }

    /** `AddDefaultNamespaces`: one engine configurator adding the namespaces. */
    method AddDefaultNamespaces() returns (b: Bootstrapper)
      modifies configurators
      ensures b == this
      ensures configurators.configurators ==
                Appended(old(configurators.configurators), IEngine, DelegateConfigurator(RegisterNamespaces))
    {
      b := Configure(IEngine, RegisterNamespaces);
    }

    /**
     * `AddDefaultCommands`: `BuildCommand` becomes the default, then "build"
     * and "preview" are registered, in that order, and nothing else changes.
     */
    method AddDefaultCommands() returns (b: Bootstrapper)
      modifies this, configurators
      ensures b == this
      ensures defaultCommand == Some(BuildCommand)
      ensures Lookup(configurators.configurators, CommandConfigurator) ==
                Lookup(old(configurators.configurators), CommandConfigurator) +
                [ConfiguratorObject(AddCommandConfigurator(BuildCommand, "build")),
                 ConfiguratorObject(AddCommandConfigurator(PreviewCommand, "preview"))]
      ensures configurators.configurators.Keys == old(configurators.configurators).Keys + {CommandConfigurator}
      ensures forall k :: k in old(configurators.configurators) && k != CommandConfigurator ==>
                configurators.configurators[k] == old(configurators.configurators)[k]
    {
      defaultCommand := Some(BuildCommand);
      var _ := AddCommand(BuildCommand, "build");
      var _ := AddCommand(PreviewCommand, "preview");
      b := this;
    }

    /**
     * `AddDefaultConfigurators`: adds every catalogued bootstrapper
     * configurator for `IConfigurableBootstrapper`, then walks the same
     * catalog query again casting each to `IConfigurator<IBootstrapper>` and
     * adding it for `IBootstrapper`; the first failed cast throws, leaving the
     * ones added before it.
     */
    method AddDefaultConfigurators() returns (b: Bootstrapper, error: Option<Error>)
      modifies configurators
      ensures b == this
      ensures configurators.configurators ==
                DefaultConfiguratorsAdded(old(configurators.configurators), catalog.bootstrapperConfigurators)
      ensures error.None? <==> CastableCount(catalog.bootstrapperConfigurators) == |catalog.bootstrapperConfigurators|
      ensures error.Some? ==>
                error.value == InvalidCast(catalog.bootstrapperConfigurators[CastableCount(catalog.bootstrapperConfigurators)].configuratorType.name)
    {
      b := this;
      AddAllConfigurators(IConfigurableBootstrapper, catalog.bootstrapperConfigurators);
      error := AddCastableConfigurators(IBootstrapper, catalog.bootstrapperConfigurators);
    }

    /** The first walk of `AddDefaultConfigurators`: every configurator in `found` is added for `t`, in order. */
    method AddAllConfigurators(t: TypeInfo, found: seq<CatalogConfigurator>)
      modifies configurators
      ensures configurators.configurators == AppendedAll(old(configurators.configurators), t, AsConfigurators(found))
    {
      ghost var start := configurators.configurators;
      var i := 0;
      while i < |found|
        invariant 0 <= i <= |found|
        invariant configurators.configurators == AppendedAll(start, t, AsConfigurators(found[..i]))
      {
        ghost var before := configurators.configurators;
        configurators.Add(t, ConfiguratorObject(FromCatalog(found[i])));
        AddNextConfigurator(start, t, found, i, before, configurators.configurators);
        i := i + 1;
      }
      assert found[..i] == found;
    }

    /**
     * The second walk of `AddDefaultConfigurators`: each configurator in
     * `found` is cast and added for `t`, until the first cast that fails,
     * which is reported with the configurator's type name.
     */
    method AddCastableConfigurators(t: TypeInfo, found: seq<CatalogConfigurator>) returns (error: Option<Error>)
      modifies configurators
      ensures configurators.configurators == AppendedAll(old(configurators.configurators), t, AsConfigurators(found[..CastableCount(found)]))
      ensures error.None? <==> CastableCount(found) == |found|
      ensures error.Some? ==> error.value == InvalidCast(found[CastableCount(found)].configuratorType.name)
    {
      ghost var start := configurators.configurators;
      var i := 0;
      while i < |found|
        invariant 0 <= i <= |found|
        invariant forall j :: 0 <= j < i ==> found[j].alsoConfiguresBootstrapper
        invariant configurators.configurators == AppendedAll(start, t, AsConfigurators(found[..i]))
      {
        if !found[i].alsoConfiguresBootstrapper {
          CastableCountAt(found, i);
          return Some(InvalidCast(found[i].configuratorType.name));
        }
        ghost var before := configurators.configurators;
        configurators.Add(t, ConfiguratorObject(FromCatalog(found[i])));
        AddNextConfigurator(start, t, found, i, before, configurators.configurators);
        i := i + 1;
      }
      CastableCountAt(found, i);
      return None;
    }
  }
}
