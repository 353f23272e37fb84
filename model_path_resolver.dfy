/**
 * Resolution of the four artifact paths (per-call overrides over version
 * defaults) and validation of their accessibility under a strategy.
 */
module ModelPathResolver {
  import opened Wrappers
  import opened PathText
  import opened Roles
  import opened ModelVersion
  import opened LoadStrategy
  import opened ResolvedTypes
  import opened Storage
  import PathConfig
  import Config

  /** `config?.pathConfig?.<role>`. */
  function Override(config: Option<Config.OcrConfig>, role: Role): Option<string> {
    if config.Some? && config.value.pathConfig.Some? then config.value.pathConfig.value.Get(role) else None
  }

  /** The version's file name for a role. */
  function DefaultName(version: OcrModelVersion, role: Role): (n: string)
    ensures IsBareFileName(n)
  {
    match role
    case Det => version.DetModelName()
    case Cls => version.ClsModelName()
    case Rec => version.RecModelName()
    case Keys => version.KeysName()
  }

  /** An override that is present and not blank. */
  predicate IsEffective(customPath: Option<string>) {
    customPath.Some? && !IsBlank(customPath.value)
  }

  /**
   * `resolveSinglePath`: a non-blank override is used as given, and is absolute
   * when it starts with `/`; a missing or blank one gives the version's relative
   * file name.
   */
  function ResolveSinglePath(customPath: Option<string>, defaultName: string): (r: ResolvedPath)
    ensures IsEffective(customPath) ==>
      r.path == customPath.value && r.source == CustomConfig && (r.isAbsolute <==> StartsWithSlash(customPath.value))
    ensures !IsEffective(customPath) ==> r.path == defaultName && !r.isAbsolute && r.source == VersionDefault
  {
    var effectivePath := if customPath.Some? && !IsBlank(customPath.value) then customPath else None;
    if effectivePath.Some? then
      ResolvedPath(effectivePath.value, StartsWithSlash(effectivePath.value), CustomConfig)
    else
      ResolvedPath(defaultName, false, VersionDefault)
  }

  /** `resolve`: every role is resolved from its own override and its own version default name. */
  function Resolve(config: Option<Config.OcrConfig>, version: OcrModelVersion): (r: ResolvedPaths)
    ensures forall role: Role :: r.Get(role) == ResolveSinglePath(Override(config, role), DefaultName(version, role))
  {
    var det := ResolveSinglePath(Override(config, Det), version.DetModelName());
    var cls := ResolveSinglePath(Override(config, Cls), version.ClsModelName());
    var rec := ResolveSinglePath(Override(config, Rec), version.RecModelName());
    var keys := ResolveSinglePath(Override(config, Keys), version.KeysName());
    ResolvedPaths(det, cls, rec, keys)
  }

  /**
   * What every resolved role satisfies: never GLOBAL_CONFIG; CUSTOM_CONFIG exactly
   * where a non-blank override was given; `isAbsolute` exactly when the path
   * starts with `/`.
   */
  lemma ResolvedPathWellFormed(config: Option<Config.OcrConfig>, version: OcrModelVersion, role: Role)
    ensures Resolve(config, version).Get(role).source != GlobalConfig
    ensures Resolve(config, version).Get(role).source == CustomConfig <==> IsEffective(Override(config, role))
    ensures Resolve(config, version).Get(role).isAbsolute <==> StartsWithSlash(Resolve(config, version).Get(role).path)
  {
    var _ := DefaultName(version, role);
  }

  /** A blank override behaves exactly like no override at all. */
  lemma BlankOverrideIsAbsent(blank: string, defaultName: string)
    requires IsBlank(blank)
    ensures ResolveSinglePath(Some(blank), defaultName) == ResolveSinglePath(None, defaultName)
    ensures ResolveSinglePath(None, defaultName) == ResolvedPath(defaultName, false, VersionDefault)
  {
  }

  /** With no configuration, or one without path overrides, every role takes the version default. */
  lemma NoOverridesMeansVersionDefaults(config: Option<Config.OcrConfig>, version: OcrModelVersion, role: Role)
    requires config.None? || config.value.pathConfig.None?
    ensures Resolve(config, version).Get(role) == ResolvedPath(DefaultName(version, role), false, VersionDefault)
  {
  }

  /** Each role depends on its own override only: changing the others does not affect it. */
  lemma RolesResolvedIndependently(c1: Option<Config.OcrConfig>, c2: Option<Config.OcrConfig>, version: OcrModelVersion, role: Role)
    requires Override(c1, role) == Override(c2, role)
    ensures Resolve(c1, version).Get(role) == Resolve(c2, version).Get(role)
  {
  }

  /** An absolute resolved path can only come from a custom override: catalog names are relative. */
  lemma AbsoluteOnlyFromOverride(config: Option<Config.OcrConfig>, version: OcrModelVersion, role: Role)
    requires Resolve(config, version).Get(role).isAbsolute
    ensures Resolve(config, version).Get(role).source == CustomConfig
    ensures Override(config, role) == Some(Resolve(config, version).Get(role).path)
  {
  }

  /** `canLoadFromFile`: `exists() && canRead()` of the addressed file; absolute paths verbatim, relative ones under `filesDir/models/`. */
  predicate CanLoadFromFile(ctx: Context, rp: ResolvedPath)
    ensures CanLoadFromFile(ctx, rp) <==>
      var file := if rp.isAbsolute then rp.path else ModelsDirFile(ctx.filesDir, rp.path);
      file in ctx.files && ctx.files[file].CanRead()
  {
    var file := FileFor(ctx.filesDir, rp);
    FileExists(ctx, file) && ctx.files[file].CanRead()
  }

  /** `canLoadFromAssets`: false for an absolute path, before the assets are looked at; otherwise the asset opens. */
  predicate CanLoadFromAssets(ctx: Context, rp: ResolvedPath)
    ensures rp.isAbsolute ==> !CanLoadFromAssets(ctx, rp)
    ensures !rp.isAbsolute ==> (CanLoadFromAssets(ctx, rp) <==> rp.path in ctx.assets && ctx.assets[rp.path].Opens())
  {
    if rp.isAbsolute then false else OpenAsset(ctx, rp.path).Some?
  }

  /** The accessibility test of one source. */
  predicate SourceLoadable(ctx: Context, rp: ResolvedPath, source: Source) {
    match source
    case LocalFiles => CanLoadFromFile(ctx, rp)
    case Assets => CanLoadFromAssets(ctx, rp)
  }

  /** `canLoadPath`: either source for the two fallback strategies, one source for the `_ONLY` ones. */
  predicate CanLoadPath(ctx: Context, rp: ResolvedPath, strategy: OcrLoadStrategy)
    ensures CanLoadPath(ctx, rp, strategy) ==> CanLoadFromFile(ctx, rp) || CanLoadFromAssets(ctx, rp)
    ensures !strategy.AllowsFallback() ==>
      (CanLoadPath(ctx, rp, strategy) <==> SourceLoadable(ctx, rp, strategy.AttemptOrder()[0]))
  {
    match strategy
    case FileFirst | AssetsFirst => CanLoadFromFile(ctx, rp) || CanLoadFromAssets(ctx, rp)
    case FileOnly => CanLoadFromFile(ctx, rp)
    case AssetsOnly => CanLoadFromAssets(ctx, rp)
  }

  /** A path can be loaded under a strategy exactly when some source in its documented attempt order can serve it. */
  lemma CanLoadPathFollowsAttemptOrder(ctx: Context, rp: ResolvedPath, strategy: OcrLoadStrategy)
    ensures CanLoadPath(ctx, rp, strategy) <==>
      exists i :: 0 <= i < |strategy.AttemptOrder()| && SourceLoadable(ctx, rp, strategy.AttemptOrder()[i])
  {
    var order := strategy.AttemptOrder();
    assert SourceLoadable(ctx, rp, order[0]) ==> exists i :: 0 <= i < |order| && SourceLoadable(ctx, rp, order[i]);
  }

  /** Every role passes exactly when each of the four resolved paths does. */
  lemma EveryRolePasses(ctx: Context, paths: ResolvedPaths, strategy: OcrLoadStrategy)
    ensures (forall role: Role :: CanLoadPath(ctx, paths.Get(role), strategy)) <==>
      && CanLoadPath(ctx, paths.detPath, strategy) && CanLoadPath(ctx, paths.clsPath, strategy)
      && CanLoadPath(ctx, paths.recPath, strategy) && CanLoadPath(ctx, paths.keysPath, strategy)
  {
    assert paths.Get(Det) == paths.detPath && paths.Get(Cls) == paths.clsPath;
    assert paths.Get(Rec) == paths.recPath && paths.Get(Keys) == paths.keysPath;
  }

  /** Assets never satisfy an absolute path, whatever they hold. */
  lemma AssetsNeverServeAbsolute(ctx: Context, rp: ResolvedPath, assets: map<string, Entry>)
    requires rp.isAbsolute
    ensures !CanLoadFromAssets(ctx.(assets := assets), rp)
    ensures CanLoadPath(ctx, rp, FileFirst) == CanLoadPath(ctx.(assets := assets), rp, FileFirst)
    ensures CanLoadPath(ctx, rp, AssetsFirst) == CanLoadPath(ctx.(assets := assets), rp, AssetsFirst)
  {
  }

  /**
   * The validator's message for a role that cannot be loaded. It begins with
   * "Cannot load " and the role's tag, so messages of different roles differ.
   */
  function ErrorMessage(role: Role, rp: ResolvedPath, strategy: OcrLoadStrategy): (m: string)
    ensures |m| > 12 + |role.Tag()| && m[..12 + |role.Tag()|] == "Cannot load " + role.Tag()
    ensures m[12] == role.Tag()[0]
  {
    "Cannot load " + role.Tag() + " model from " + rp.path + " with strategy " + strategy.Name()
  }

  /** The message contributed by one role: none when it can be loaded. */
  function RoleFailure(ctx: Context, paths: ResolvedPaths, strategy: OcrLoadStrategy, role: Role): seq<string> {
    if CanLoadPath(ctx, paths.Get(role), strategy) then [] else [ErrorMessage(role, paths.Get(role), strategy)]
  }

  /**
   * The messages of the failing roles among `roles`, in their order: at most one
   * per role, and none exactly when every role can be loaded.
   */
  function Failures(ctx: Context, paths: ResolvedPaths, strategy: OcrLoadStrategy, roles: seq<Role>): (errors: seq<string>)
    ensures |errors| <= |roles|
    ensures errors == [] <==> forall i :: 0 <= i < |roles| ==> CanLoadPath(ctx, paths.Get(roles[i]), strategy)
    decreases |roles|
  {
    if roles == [] then []
    else Failures(ctx, paths, strategy, roles[..|roles| - 1]) + RoleFailure(ctx, paths, strategy, roles[|roles| - 1])
  }

  /** One more role adds its own failure, if any, at the end. */
  lemma FailuresStep(ctx: Context, paths: ResolvedPaths, strategy: OcrLoadStrategy, roles: seq<Role>, i: nat)
    requires i < |roles|
    ensures Failures(ctx, paths, strategy, roles[..i + 1])
         == Failures(ctx, paths, strategy, roles[..i]) + RoleFailure(ctx, paths, strategy, roles[i])
  {
    assert roles[..i + 1][..i] == roles[..i];
  }

  /** The failures of all four roles are the per-role failures in the order det, cls, rec, keys. */
  lemma {:induction false} FailuresInRoleOrder(ctx: Context, paths: ResolvedPaths, strategy: OcrLoadStrategy)
    ensures Failures(ctx, paths, strategy, AllRoles)
         == RoleFailure(ctx, paths, strategy, Det) + RoleFailure(ctx, paths, strategy, Cls)
          + RoleFailure(ctx, paths, strategy, Rec) + RoleFailure(ctx, paths, strategy, Keys)
  {
    var f := (roles: seq<Role>) => Failures(ctx, paths, strategy, roles);
    assert f([Det]) == RoleFailure(ctx, paths, strategy, Det) by { assert [Det][..0] == []; }
    assert f([Det, Cls]) == f([Det]) + RoleFailure(ctx, paths, strategy, Cls) by { assert [Det, Cls][..1] == [Det]; }
    assert f([Det, Cls, Rec]) == f([Det, Cls]) + RoleFailure(ctx, paths, strategy, Rec) by { assert [Det, Cls, Rec][..2] == [Det, Cls]; }
    assert f(AllRoles) == f([Det, Cls, Rec]) + RoleFailure(ctx, paths, strategy, Keys) by { assert AllRoles[..3] == [Det, Cls, Rec]; }
  }

  /** No failure among the four roles exactly when every role can be loaded. */
  lemma {:induction false} NoFailuresIffAllLoadable(ctx: Context, paths: ResolvedPaths, strategy: OcrLoadStrategy)
    ensures Failures(ctx, paths, strategy, AllRoles) == [] <==> forall role: Role :: CanLoadPath(ctx, paths.Get(role), strategy)
  {
    if Failures(ctx, paths, strategy, AllRoles) == [] {
      forall role: Role ensures CanLoadPath(ctx, paths.Get(role), strategy) {
        AllRolesEnumerates(role);
        var i :| 0 <= i < |AllRoles| && AllRoles[i] == role;
      }
    }
  }

  /**
   * `validate`: checks every role, without stopping at the first failure.
   * Success exactly when every role can be loaded; otherwise a non-empty list
   * with one message per failing role, in the order det, cls, rec, keys.
   */
  method Validate(ctx: Context, paths: ResolvedPaths, strategy: OcrLoadStrategy) returns (result: ValidationResult)
    ensures result.Success? <==> forall role: Role :: CanLoadPath(ctx, paths.Get(role), strategy)
    ensures result.Error? ==> result.errors != []
    ensures result.Error? ==>
      result.errors == RoleFailure(ctx, paths, strategy, Det) + RoleFailure(ctx, paths, strategy, Cls)
                     + RoleFailure(ctx, paths, strategy, Rec) + RoleFailure(ctx, paths, strategy, Keys)
  {
    var errors: seq<string> := [];
    for i := 0 to |AllRoles|
      invariant errors == Failures(ctx, paths, strategy, AllRoles[..i])
    {
      var role := AllRoles[i];
      var resolvedPath := paths.Get(role);
      FailuresStep(ctx, paths, strategy, AllRoles, i);
      if !CanLoadPath(ctx, resolvedPath, strategy) {
        errors := errors + [ErrorMessage(role, resolvedPath, strategy)];
      }
    }
    assert AllRoles[..|AllRoles|] == AllRoles;
    FailuresInRoleOrder(ctx, paths, strategy);
    NoFailuresIffAllLoadable(ctx, paths, strategy);
    if errors == [] {
      result := ValidationResult.Success;
    } else {
      result := Error(errors);
    }
  }
}
