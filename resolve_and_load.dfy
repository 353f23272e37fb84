/**
 * How the resolver, the validator and the loader fit together: loading implies
 * validation always, validation predicts loading exactly on entries that behave
 * alike under checking and loading, and resolved paths address the stores as documented.
 */
module ResolveAndLoad {
  import opened Wrappers
  import opened PathText
  import opened Roles
  import opened ModelVersion
  import opened LoadStrategy
  import opened ResolvedTypes
  import opened Storage
  import opened ModelPathResolver
  import opened ModelLoader
  import Config

  /**
   * The file check is implied by both file probes, and on a uniform entry it
   * agrees with them exactly. Without uniformity it can pass where the probes fail.
   */
  lemma FileProbesImplyCheck(ctx: Context, rp: ResolvedPath)
    ensures TryLoadFromFile(ctx, rp).Some? ==> CanLoadFromFile(ctx, rp)
    ensures TryLoadKeysFromFile(ctx, rp).Some? ==> CanLoadFromFile(ctx, rp)
    ensures UniformAt(ctx, rp) ==>
      (CanLoadFromFile(ctx, rp) <==> TryLoadFromFile(ctx, rp).Some?) && (CanLoadFromFile(ctx, rp) <==> TryLoadKeysFromFile(ctx, rp).Some?)
  {
  }

  /**
   * The assets check opens the asset just as the reader probe does, so the two
   * agree; the byte probe implies `canLoadFromAssets`, and agrees with it on a uniform entry.
   */
  lemma AssetsCheckMatchesReaderProbe(ctx: Context, rp: ResolvedPath)
    ensures CanLoadFromAssets(ctx, rp) <==> TryLoadKeysFromAssets(ctx, rp).Some?
    ensures TryLoadFromAssets(ctx, rp).Some? ==> CanLoadFromAssets(ctx, rp)
    ensures UniformAt(ctx, rp) ==> (CanLoadFromAssets(ctx, rp) <==> TryLoadFromAssets(ctx, rp).Some?)
  {
  }

  /** What the source guarantees in general: a path from which `loadModel` or `loadKeys` returns passes `canLoadPath`. */
  lemma {:induction false} LoadReturnsImpliesCanLoadPath(ctx: Context, rp: ResolvedPath, strategy: OcrLoadStrategy)
    ensures LoadModel(ctx, rp, strategy).Returned? ==> CanLoadPath(ctx, rp, strategy)
    ensures LoadKeys(ctx, rp, strategy).Returned? ==> CanLoadPath(ctx, rp, strategy)
  {
    FileProbesImplyCheck(ctx, rp);
    AssetsCheckMatchesReaderProbe(ctx, rp);
    ByteChainsOfEachStrategy(ctx, rp);
    ReaderChainsOfEachStrategy(ctx, rp);
  }

  /** On uniform entries the converse holds too: `canLoadPath` holds exactly when `loadModel`, and `loadKeys`, would return. */
  lemma {:induction false} CanLoadPathIffLoadReturns(ctx: Context, rp: ResolvedPath, strategy: OcrLoadStrategy)
    requires UniformAt(ctx, rp)
    ensures CanLoadPath(ctx, rp, strategy) <==> LoadModel(ctx, rp, strategy).Returned?
    ensures CanLoadPath(ctx, rp, strategy) <==> LoadKeys(ctx, rp, strategy).Returned?
  {
    FileProbesImplyCheck(ctx, rp);
    AssetsCheckMatchesReaderProbe(ctx, rp);
    ByteChainsOfEachStrategy(ctx, rp);
    ReaderChainsOfEachStrategy(ctx, rp);
  }

  /**
   * A local file that opens but whose read throws passes `canLoadPath`, yet
   * `loadModel` throws under FILE_ONLY while `loadKeys` returns a reader whose
   * reading will fail.
   */
  lemma {:induction false} CheckPassesWhereReadFails(ctx: Context, rp: ResolvedPath)
    requires FileFor(ctx.filesDir, rp) in ctx.files && ctx.files[FileFor(ctx.filesDir, rp)] == ReadFails
    ensures CanLoadPath(ctx, rp, FileOnly)
    ensures LoadModel(ctx, rp, FileOnly) == Threw(ModelLoadException(FailureMessage("model", rp.path, FileOnly)))
    ensures LoadKeys(ctx, rp, FileOnly) == Returned(BufferedReader(None))
  {
    ByteChainsOfEachStrategy(ctx, rp);
    ReaderChainsOfEachStrategy(ctx, rp);
  }

  /**
   * A local entry that `canRead()` accepts but that cannot be opened (a
   * directory) passes `canLoadPath`, yet both loaders throw under FILE_ONLY.
   */
  lemma {:induction false} CheckPassesWhereOpenFails(ctx: Context, rp: ResolvedPath)
    requires FileFor(ctx.filesDir, rp) in ctx.files && ctx.files[FileFor(ctx.filesDir, rp)] == OpenFails(true)
    ensures CanLoadPath(ctx, rp, FileOnly)
    ensures LoadModel(ctx, rp, FileOnly).Threw? && LoadKeys(ctx, rp, FileOnly).Threw?
  {
    ByteChainsOfEachStrategy(ctx, rp);
    ReaderChainsOfEachStrategy(ctx, rp);
  }

  /**
   * An asset that opens but whose read throws passes `canLoadPath`, yet `loadModel`
   * throws under ASSETS_ONLY while `loadKeys` returns a reader whose reading will fail.
   */
  lemma {:induction false} AssetCheckPassesWhereReadFails(ctx: Context, rp: ResolvedPath)
    requires !rp.isAbsolute && rp.path in ctx.assets && ctx.assets[rp.path] == ReadFails
    ensures CanLoadPath(ctx, rp, AssetsOnly)
    ensures LoadModel(ctx, rp, AssetsOnly) == Threw(ModelLoadException(FailureMessage("model", rp.path, AssetsOnly)))
    ensures LoadKeys(ctx, rp, AssetsOnly) == Returned(BufferedReader(None))
  {
    ByteChainsOfEachStrategy(ctx, rp);
    ReaderChainsOfEachStrategy(ctx, rp);
  }

  /**
   * Loading all four artifacts (the three models by `loadModel`, the dictionary
   * by `loadKeys`) implies that every role passes `validate`.
   */
  lemma {:induction false} LoadingImpliesValidation(ctx: Context, paths: ResolvedPaths, strategy: OcrLoadStrategy)
    requires LoadModel(ctx, paths.detPath, strategy).Returned?
    requires LoadModel(ctx, paths.clsPath, strategy).Returned?
    requires LoadModel(ctx, paths.recPath, strategy).Returned?
    requires LoadKeys(ctx, paths.keysPath, strategy).Returned?
    ensures forall role: Role :: CanLoadPath(ctx, paths.Get(role), strategy)
  {
    LoadReturnsImpliesCanLoadPath(ctx, paths.detPath, strategy);
    LoadReturnsImpliesCanLoadPath(ctx, paths.clsPath, strategy);
    LoadReturnsImpliesCanLoadPath(ctx, paths.recPath, strategy);
    LoadReturnsImpliesCanLoadPath(ctx, paths.keysPath, strategy);
    forall role: Role
      ensures CanLoadPath(ctx, paths.Get(role), strategy)
    {
      match role
      case Det => assert paths.Get(role) == paths.detPath;
      case Cls => assert paths.Get(role) == paths.clsPath;
      case Rec => assert paths.Get(role) == paths.recPath;
      case Keys => assert paths.Get(role) == paths.keysPath;
    }
  }

  /** On uniform entries the converse holds: when all four paths pass `canLoadPath`, all four artifacts load. */
  lemma {:induction false} ValidationImpliesLoading(ctx: Context, paths: ResolvedPaths, strategy: OcrLoadStrategy)
    requires UniformAt(ctx, paths.detPath) && UniformAt(ctx, paths.clsPath)
    requires UniformAt(ctx, paths.recPath) && UniformAt(ctx, paths.keysPath)
    requires CanLoadPath(ctx, paths.detPath, strategy) && CanLoadPath(ctx, paths.clsPath, strategy)
    requires CanLoadPath(ctx, paths.recPath, strategy) && CanLoadPath(ctx, paths.keysPath, strategy)
    ensures LoadModel(ctx, paths.detPath, strategy).Returned?
    ensures LoadModel(ctx, paths.clsPath, strategy).Returned?
    ensures LoadModel(ctx, paths.recPath, strategy).Returned?
    ensures LoadKeys(ctx, paths.keysPath, strategy).Returned?
  {
    assert LoadModel(ctx, paths.detPath, strategy).Returned? by {
      CanLoadPathIffLoadReturns(ctx, paths.detPath, strategy);
    }
    assert LoadModel(ctx, paths.clsPath, strategy).Returned? by {
      CanLoadPathIffLoadReturns(ctx, paths.clsPath, strategy);
    }
    assert LoadModel(ctx, paths.recPath, strategy).Returned? by {
      CanLoadPathIffLoadReturns(ctx, paths.recPath, strategy);
    }
    assert LoadKeys(ctx, paths.keysPath, strategy).Returned? by {
      CanLoadPathIffLoadReturns(ctx, paths.keysPath, strategy);
    }
  }

  /**
   * On uniform entries `validate` predicts loading exactly: every role passes
   * exactly when all three models and the dictionary load.
   */
  lemma {:induction false} ValidationPredictsLoading(ctx: Context, paths: ResolvedPaths, strategy: OcrLoadStrategy)
    requires UniformAt(ctx, paths.detPath) && UniformAt(ctx, paths.clsPath)
    requires UniformAt(ctx, paths.recPath) && UniformAt(ctx, paths.keysPath)
    ensures (forall role: Role :: CanLoadPath(ctx, paths.Get(role), strategy)) <==>
      && LoadModel(ctx, paths.detPath, strategy).Returned?
      && LoadModel(ctx, paths.clsPath, strategy).Returned?
      && LoadModel(ctx, paths.recPath, strategy).Returned?
      && LoadKeys(ctx, paths.keysPath, strategy).Returned?
  {
    if LoadModel(ctx, paths.detPath, strategy).Returned? && LoadModel(ctx, paths.clsPath, strategy).Returned?
       && LoadModel(ctx, paths.recPath, strategy).Returned? && LoadKeys(ctx, paths.keysPath, strategy).Returned? {
      LoadingImpliesValidation(ctx, paths, strategy);
    }
    EveryRolePasses(ctx, paths, strategy);
    if && CanLoadPath(ctx, paths.detPath, strategy) && CanLoadPath(ctx, paths.clsPath, strategy)
       && CanLoadPath(ctx, paths.recPath, strategy) && CanLoadPath(ctx, paths.keysPath, strategy) {
      ValidationImpliesLoading(ctx, paths, strategy);
    }
  }

  /**
   * A custom absolute override is never served from the assets: after
   * resolution, ASSETS_ONLY throws without looking at them.
   */
  lemma {:induction false} AbsoluteOverrideFailsAssetsOnly(ctx: Context, config: Option<Config.OcrConfig>, version: OcrModelVersion, role: Role, p: string)
    requires Override(config, role) == Some(p) && StartsWithSlash(p)
    ensures Resolve(config, version).Get(role) == ResolvedPath(p, true, CustomConfig)
    ensures LoadModel(ctx, Resolve(config, version).Get(role), AssetsOnly)
         == Threw(ModelLoadException(FailureMessage("model", p, AssetsOnly)))
  {
    SlashIsNotBlank(p);
    AbsolutePathFailsAssetsOnly(ctx, Resolve(config, version).Get(role));
  }

  /**
   * A version-default path is looked up as `filesDir/models/<name>` in the
   * local files and as `<name>` in the assets.
   */
  lemma {:induction false} DefaultPathAddressesBothStores(ctx: Context, version: OcrModelVersion, role: Role)
    ensures FileFor(ctx.filesDir, Resolve(None, version).Get(role)) == ModelsDirFile(ctx.filesDir, DefaultName(version, role))
    ensures TryLoadFromFile(ctx, Resolve(None, version).Get(role)) == ReadFile(ctx, ModelsDirFile(ctx.filesDir, DefaultName(version, role)))
    ensures TryLoadFromAssets(ctx, Resolve(None, version).Get(role)) == ReadAsset(ctx, DefaultName(version, role))
  {
    NoOverridesMeansVersionDefaults(None, version, role);
  }

  /** With no configuration, V3's detector resolves to its bundled relative file name. */
  lemma V3DefaultDetector()
    ensures Resolve(None, V3).detPath == ResolvedPath("ch_PP-OCRv3_det_infer.onnx", false, VersionDefault)
  {
    assert Resolve(None, V3).Get(Det) == Resolve(None, V3).detPath;
  }

  /** A blank recognizer override falls back to the version's recognizer name. */
  lemma BlankRecognizerOverride(version: OcrModelVersion)
    ensures Resolve(Some(Config.OcrConfig(Some(PathConfig.OcrPathConfig(None, None, Some(""), None)), FileFirst)), version).recPath
         == ResolvedPath(version.RecModelName(), false, VersionDefault)
  {
    var c := Some(Config.OcrConfig(Some(PathConfig.OcrPathConfig(None, None, Some(""), None)), FileFirst));
    assert Resolve(c, version).Get(Rec) == Resolve(c, version).recPath;
  }
}
