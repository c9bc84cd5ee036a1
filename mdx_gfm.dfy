/** The `gfm` automigration fix of the Storybook CLI.

    `Check` decides whether a project still needs GitHub-flavoured markdown
    support added after the move to MDX2 (Storybook 7.0), and `Project.Run`
    performs the remediation: it installs `@storybook/addon-gfm` as a dev
    dependency and appends it to the `addons` list of the main configuration.
    Loading and persisting the configuration, running the package manager and
    comparing version strings are collaborators; here they are plain values
    (`MainConfig`, `Version`) and fields of `Project`. */
module MdxGfm {
  import opened Wrappers
  import opened Semver

  const GfmAddon := "@storybook/addon-gfm"
  const DocsAddon := "@storybook/addon-docs"

  /** The first release that compiles MDX with MDX2. */
  const Threshold := Version(7, 0, 0)

  /** A remark plugin as configured in the main configuration; only how many
      there are matters to the fix. */
  type RemarkPlugin = string

  datatype MdxCompileOptions = MdxCompileOptions(remarkPlugins: Option<seq<RemarkPlugin>>)

  datatype MdxPluginOptions = MdxPluginOptions(mdxCompileOptions: Option<MdxCompileOptions>)

  datatype AddonOptions = AddonOptions(mdxPluginOptions: Option<MdxPluginOptions>)

  /** An entry of the `addons` list: a bare package name, or a preset record
      `{ name, options }`. */
  datatype Addon =
    | Named(id: string)
    | Preset(name: string, options: Option<AddonOptions>)

  datatype Features = Features(legacyMdx1: Option<bool>)

  /** The two fields of the main configuration the fix reads; `None` stands
      for a field that is not set. */
  datatype MainConfig = MainConfig(features: Option<Features>, addons: Option<seq<Addon>>)

  /** The options object a fix hands from `check` to `run`; this fix returns
      the empty object `{}`, that is `Options(None)`. */
  datatype Options = Options(value: Option<bool>)

  /** `mainConfig.addons` read on an absent configuration throws. */
  datatype CheckError = MainConfigMissing

  /** Spreading an `addons` field that is not set throws. */
  datatype RunError = AddonsNotIterable

  /** One call of the package manager's `addDependencies`. */
  datatype InstallRequest = InstallRequest(installAsDevDependencies: bool, packages: seq<string>)

  const GfmInstall := InstallRequest(true, [GfmAddon])

  // ---------------------------------------------------------------------
  // check
  // ---------------------------------------------------------------------

  /** `mainConfig?.features?.legacyMdx1 === true`: only the boolean `true`
      counts; an absent configuration, absent features or an absent or false
      flag do not. */
  predicate UsesLegacyMdx1(mainConfig: Option<MainConfig>) {
    && mainConfig.Some?
    && mainConfig.value.features.Some?
    && mainConfig.value.features.value.legacyMdx1 == Some(true)
  }

  /** `options?.mdxPluginOptions?.mdxCompileOptions?.remarkPlugins` */
  function RemarkPlugins(options: Option<AddonOptions>): Option<seq<RemarkPlugin>> {
    match options
    case None => None
    case Some(o) =>
      match o.mdxPluginOptions
      case None => None
      case Some(p) =>
        match p.mdxCompileOptions
        case None => None
        case Some(c) => c.remarkPlugins
  }

  /** `remarkPlugins?.length > 0`, where `undefined > 0` is false. */
  predicate HasRemarkPlugins(options: Option<AddonOptions>) {
    match RemarkPlugins(options)
    case None => false
    case Some(plugins) => |plugins| > 0
  }

  /** The callback given to `addons.find`: does this entry already provide
      GFM? The first test is strict equality with a string, which a preset
      record never passes. */
  function CoversGfm(item: Addon): (r: bool)
    ensures r <==> || item == Named(GfmAddon)
                   || (item.Preset? && item.name == DocsAddon && HasRemarkPlugins(item.options))
  {
    if item.Named? && item.id == GfmAddon then true
    else if item.Named? then false
    else if item.name == DocsAddon then HasRemarkPlugins(item.options)
    else false
  }

  /** JavaScript truthiness of an entry: the empty string is falsy, every
      record is truthy. */
  predicate Truthy(item: Addon) {
    item.Named? ==> item.id != ""
  }

  /** `k` is the index of the first element of `s` that satisfies `p`. */
  ghost predicate FirstMatch<T>(s: seq<T>, p: T -> bool, k: int) {
    && 0 <= k < |s|
    && p(s[k])
    && forall j :: 0 <= j < k ==> !p(s[j])
  }

  /** `Array.prototype.find`: the first element satisfying `p`, or
      `undefined`. */
  function Find<T>(s: seq<T>, p: T -> bool): (r: Option<T>)
    ensures r.None? <==> forall i :: 0 <= i < |s| ==> !p(s[i])
    ensures r.Some? ==> exists k :: FirstMatch(s, p, k) && s[k] == r.value
  {
    if s == [] then None
    else if p(s[0]) then
      assert FirstMatch(s, p, 0);
      Some(s[0])
    else
      assert forall k :: FirstMatch(s[1..], p, k) ==> FirstMatch(s, p, k + 1);
      Find(s[1..], p)
  }

  /** Some entry of a present `addons` list provides GFM. */
  ghost predicate SomeEntryCovers(addons: Option<seq<Addon>>) {
    addons.Some? && exists i :: 0 <= i < |addons.value| && CoversGfm(addons.value[i])
  }

  /** The `check` hook: `Ok(None)` is "not applicable" (`null`),
      `Ok(Some(Options(None)))` is "applicable" (`{}`), `Err` is an
      exception. The version gate comes first, so an old version is never
      applicable whatever the configuration holds, even when there is none. */
  function Check(version: Version, mainConfig: Option<MainConfig>): (r: Result<Option<Options>, CheckError>)
    ensures !Gte(version, Threshold) ==> r == Ok(None)
    ensures r.Err? <==> Gte(version, Threshold) && !UsesLegacyMdx1(mainConfig) && mainConfig.None?
    ensures r == Ok(None) <==>
              || !Gte(version, Threshold)
              || UsesLegacyMdx1(mainConfig)
              || (mainConfig.Some? && SomeEntryCovers(mainConfig.value.addons))
    ensures r.Ok? && r.value.Some? ==> r.value.value == Options(None)
  {
    if !Gte(version, Threshold) then Ok(None)
    else
      var usesMdx1 := UsesLegacyMdx1(mainConfig);
      if usesMdx1 then Ok(None)
      else if mainConfig.None? then Err(MainConfigMissing)
      else
        var found := match mainConfig.value.addons
          case None => None
          case Some(items) => Find(items, CoversGfm);
        var skip := match found
          case None => false
          case Some(item) => Truthy(item);
        if skip then Ok(None) else Ok(Some(Options(None)))
  }

  /** The gate at 7.0.0 is a gate on the major version. */
  lemma ThresholdIsMajorSeven(version: Version)
    ensures Gte(version, Threshold) <==> version.major >= 7
  {
  }

  /** With the legacy flag set the fix is skipped, also when `addons` is
      empty or absent; an unset or false flag is no reason to skip. */
  lemma LegacyFlagSkips(version: Version, config: MainConfig)
    ensures config.features.Some? && config.features.value.legacyMdx1 == Some(true) ==>
              Check(version, Some(config)) == Ok(None)
    ensures Gte(version, Threshold) && config.addons == None &&
            (config.features.None? || config.features.value.legacyMdx1 != Some(true)) ==>
              Check(version, Some(config)) == Ok(Some(Options(None)))
  {
  }

  /** The bare string `@storybook/addon-gfm` anywhere in `addons` makes the
      fix not applicable. */
  lemma GfmNameSkips(version: Version, config: MainConfig)
    requires config.addons.Some? && Named(GfmAddon) in config.addons.value
    ensures Check(version, Some(config)) == Ok(None)
  {
  }

  /** A docs preset with at least one remark plugin anywhere in `addons`
      makes the fix not applicable. */
  lemma DocsWithRemarkPluginsSkips(version: Version, config: MainConfig, options: Option<AddonOptions>)
    requires config.addons.Some? && Preset(DocsAddon, options) in config.addons.value
    requires RemarkPlugins(options).Some? && |RemarkPlugins(options).value| > 0
    ensures Check(version, Some(config)) == Ok(None)
  {
  }

  /** Appending an entry that does not provide GFM never changes the
      decision. */
  lemma {:induction false} AppendNonCoveringKeepsCheck(version: Version, config: MainConfig, item: Addon)
    requires config.addons.Some? && !CoversGfm(item)
    ensures Check(version, Some(config.(addons := Some(config.addons.value + [item])))) == Check(version, Some(config))
  {
    var before := config.addons.value;
    var after := before + [item];
    if exists i :: 0 <= i < |after| && CoversGfm(after[i]) {
      var i :| 0 <= i < |after| && CoversGfm(after[i]);
      assert i < |before| && after[i] == before[i];
    }
    if exists i :: 0 <= i < |before| && CoversGfm(before[i]) {
      var i :| 0 <= i < |before| && CoversGfm(before[i]);
      assert after[i] == before[i];
    }
  }

  /** Entries that never provide GFM: any other bare string, a preset record
      named `@storybook/addon-gfm` (it is not the string), a preset with any
      other name than the docs addon, and the docs preset without remark
      plugins. Adding one of them leaves the decision as it was. */
  lemma OtherEntriesNeverSkip(version: Version, config: MainConfig, item: Addon)
    requires config.addons.Some?
    requires || (item.Named? && item.id != GfmAddon)
             || (item.Preset? && item.name != DocsAddon)
             || (item.Preset? && !HasRemarkPlugins(item.options))
    ensures Check(version, Some(config.(addons := Some(config.addons.value + [item])))) == Check(version, Some(config))
  {
    AppendNonCoveringKeepsCheck(version, config, item);
  }

  /** Every entry `find` can return is truthy, so `!!find(...)` is exactly
      "some entry provides GFM". */
  lemma CoveringEntryIsTruthy(item: Addon)
    requires CoversGfm(item)
    ensures Truthy(item)
  {
  }

  // ---------------------------------------------------------------------
  // run
  // ---------------------------------------------------------------------

  /** The configuration mutation `run` performs through `updateMainConfig`:
      the existing `addons` followed by the bare name `@storybook/addon-gfm`,
      without deduplication. Spreading an unset `addons` field throws. */
  function AppendGfm(config: MainConfig): (r: Result<MainConfig, RunError>)
    ensures r.Err? <==> config.addons.None?
    ensures r.Ok? ==>
              var before := config.addons.value;
              && r.value.features == config.features
              && r.value.addons.Some?
              && |r.value.addons.value| == |before| + 1
              && r.value.addons.value[..|before|] == before
              && r.value.addons.value[|before|] == Named(GfmAddon)
  {
    match config.addons
    case None => Err(AddonsNotIterable)
    case Some(existing) => Ok(config.(addons := Some(existing + [Named(GfmAddon)])))
  }

  /** After the mutation the fix is no longer applicable: `check` run again
      on the updated configuration says "skip". */
  lemma AppendGfmDisablesFix(version: Version, config: MainConfig)
    requires AppendGfm(config).Ok?
    ensures Check(version, Some(AppendGfm(config).value)) == Ok(None)
  {
  }

  /** The mutation is not idempotent: each application adds one more
      occurrence of `@storybook/addon-gfm`, whatever the list held. */
  lemma AppendGfmAddsOneOccurrence(config: MainConfig)
    requires config.addons.Some?
    ensures AppendGfm(config).Ok?
    ensures multiset(AppendGfm(config).value.addons.value)[Named(GfmAddon)]
            == multiset(config.addons.value)[Named(GfmAddon)] + 1
  {
  }

  /** A configuration without an `addons` field is judged applicable by
      `check`, yet `run` throws on it after the dependency is installed. */
  lemma ApplicableWithoutAddonsRunFails(version: Version, features: Option<Features>)
    requires Gte(version, Threshold)
    requires features.None? || features.value.legacyMdx1 != Some(true)
    ensures Check(version, Some(MainConfig(features, None))) == Ok(Some(Options(None)))
    ensures AppendGfm(MainConfig(features, None)) == Err(AddonsNotIterable)
  {
  }

  /** The state `run` works on: the project's main configuration and the
      dependency installs requested from its package manager. */
  class Project {
    var mainConfig: MainConfig
    var installs: seq<InstallRequest>

    constructor (mainConfig: MainConfig)
      ensures this.mainConfig == mainConfig && installs == []
    {
      this.mainConfig := mainConfig;
      installs := [];
    }

    /** The package manager's `addDependencies`, recorded as a request. */
    method AddDependencies(request: InstallRequest)
      modifies this`installs
      ensures installs == old(installs) + [request]
    {
      installs := installs + [request];
    }

    /** The callback run inside `updateMainConfig`: read `addons`, build the
        extended list, and write it back unless `dryRun`. */
    method UpdateAddons(dryRun: bool) returns (outcome: Outcome<RunError>)
      modifies this`mainConfig
      ensures match AppendGfm(old(mainConfig))
              case Ok(updated) =>
                outcome == Pass && mainConfig == (if dryRun then old(mainConfig) else updated)
              case Err(e) =>
                outcome == Fail(e) && mainConfig == old(mainConfig)
    {
      match mainConfig.addons
      case None =>
        outcome := Fail(AddonsNotIterable);
      case Some(existingAddons) =>
        var updatedAddons := existingAddons + [Named(GfmAddon)];
        if !dryRun {
          mainConfig := mainConfig.(addons := Some(updatedAddons));
        }
        outcome := Pass;
    }

    /** The `run` hook. A dry run changes nothing. Otherwise the GFM addon is
        installed as a dev dependency exactly once unless `skipInstall`, and
        `addons` becomes `AppendGfm` of the old configuration; when that
        throws, the install has already happened and the configuration is
        left as it was. */
    method Run(dryRun: bool, skipInstall: bool) returns (outcome: Outcome<RunError>)
      modifies this
      ensures dryRun ==>
                outcome == Pass && mainConfig == old(mainConfig) && installs == old(installs)
      ensures !dryRun ==>
                installs == old(installs) + (if skipInstall then [] else [GfmInstall])
      ensures !dryRun ==>
                match AppendGfm(old(mainConfig))
                case Ok(updated) => outcome == Pass && mainConfig == updated
                case Err(e) => outcome == Fail(e) && mainConfig == old(mainConfig)
    {
      outcome := Pass;
      if !dryRun {
        if !skipInstall {
          AddDependencies(GfmInstall);
        }
        outcome := UpdateAddons(dryRun);
      }
    }
  }
}
