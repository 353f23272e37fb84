/**
 * Loading of model bytes and dictionary readers from the two stores, under a
 * loading strategy. A single probe never fails: every error becomes `None`.
 * Only when every source the strategy tries yields nothing does loading fail,
 * with a `ModelLoadException`.
 */
module ModelLoader {
  import opened Wrappers
  import opened LoadStrategy
  import opened ResolvedTypes
  import opened Storage

  /** What a load can throw: the loader's own exception, or an I/O error the deprecated loaders let through. */
  datatype LoadFailure = ModelLoadException(message: string) | IoException(path: string)

  /** The exception message for a failed load of `artifact` ("model" or "keys"). */
  function FailureMessage(artifact: string, path: string, strategy: OcrLoadStrategy): (m: string)
    ensures |m| > 15 + |artifact| + |path| && m[..15 + |artifact|] == "Failed to load " + artifact
    ensures m[|m| - |path|..] == path
  {
    match strategy
    case FileFirst | AssetsFirst => "Failed to load " + artifact + " from " + path
    case FileOnly => "Failed to load " + artifact + " from file: " + path
    case AssetsOnly => "Failed to load " + artifact + " from assets: " + path
  }

  /** `probe ?: throw ModelLoadException(message)`. */
  function OrThrow<T>(probe: Option<T>, message: string): Outcome<T, LoadFailure> {
    match probe
    case Some(v) => Returned(v)
    case None => Threw(ModelLoadException(message))
  }

  /** `first ?: second`. */
  function OrElse<T>(first: Option<T>, second: Option<T>): (r: Option<T>)
    ensures first.Some? ==> r == first
    ensures first.None? ==> r == second
  {
    if first.Some? then first else second
  }

  /**
   * `tryLoadFromFile`: the bytes of the addressed file (verbatim when absolute,
   * under `filesDir/models/` when relative) when it exists and reads in full;
   * a missing file, a failed open and a failed read all give `None`.
   */
  function TryLoadFromFile(ctx: Context, rp: ResolvedPath): (r: Option<seq<byte>>)
    ensures r.Some? <==>
      var file := if rp.isAbsolute then rp.path else ModelsDirFile(ctx.filesDir, rp.path);
      file in ctx.files && ctx.files[file].Readable?
    ensures r.Some? ==> ctx.files[FileFor(ctx.filesDir, rp)] == Readable(r.value)
  {
    ReadFile(ctx, FileFor(ctx.filesDir, rp))
  }

  /** `tryLoadFromAssets`: `None` for an absolute path before the assets are opened; otherwise the asset's bytes, or `None` on any failure. */
  function TryLoadFromAssets(ctx: Context, rp: ResolvedPath): (r: Option<seq<byte>>)
    ensures rp.isAbsolute ==> r.None?
    ensures r.Some? <==> !rp.isAbsolute && rp.path in ctx.assets && ctx.assets[rp.path].Readable?
    ensures r.Some? ==> ctx.assets[rp.path] == Readable(r.value)
  {
    if rp.isAbsolute then None else ReadAsset(ctx, rp.path)
  }

  /**
   * `tryLoadKeysFromFile`: a reader whenever the addressed file opens, even when
   * reading it will fail; reading it to the end gives what the byte probe gives.
   */
  function TryLoadKeysFromFile(ctx: Context, rp: ResolvedPath): (r: Option<BufferedReader>)
    ensures r.Some? <==>
      var file := if rp.isAbsolute then rp.path else ModelsDirFile(ctx.filesDir, rp.path);
      file in ctx.files && ctx.files[file].Opens()
    ensures r.Some? ==> r.value.text == TryLoadFromFile(ctx, rp)
    ensures TryLoadFromFile(ctx, rp).Some? ==> r == Some(BufferedReader(TryLoadFromFile(ctx, rp)))
  {
    OpenFile(ctx, FileFor(ctx.filesDir, rp))
  }

  /** `tryLoadKeysFromAssets`: a reader whenever the asset opens; reading it to the end gives what the byte probe gives. */
  function TryLoadKeysFromAssets(ctx: Context, rp: ResolvedPath): (r: Option<BufferedReader>)
    ensures r.Some? <==> !rp.isAbsolute && rp.path in ctx.assets && ctx.assets[rp.path].Opens()
    ensures r.Some? ==> r.value.text == TryLoadFromAssets(ctx, rp)
    ensures TryLoadFromAssets(ctx, rp).Some? ==> r == Some(BufferedReader(TryLoadFromAssets(ctx, rp)))
  {
    if rp.isAbsolute then None else OpenAsset(ctx, rp.path)
  }

  /** The byte probe of one source. */
  function Probe(ctx: Context, rp: ResolvedPath, source: Source): Option<seq<byte>> {
    match source
    case LocalFiles => TryLoadFromFile(ctx, rp)
    case Assets => TryLoadFromAssets(ctx, rp)
  }

  /** The reader probe of one source. */
  function ReaderProbe(ctx: Context, rp: ResolvedPath, source: Source): Option<BufferedReader> {
    match source
    case LocalFiles => TryLoadKeysFromFile(ctx, rp)
    case Assets => TryLoadKeysFromAssets(ctx, rp)
  }

  /**
   * Reference semantics of a fallback chain: the first present result, and
   * `None` exactly when no result is present.
   */
  function FirstSome<T>(results: seq<Option<T>>): (r: Option<T>)
    ensures r.None? <==> forall i :: 0 <= i < |results| ==> results[i].None?
    ensures r.Some? ==> exists k :: 0 <= k < |results| && results[k] == r
                                   && forall j :: 0 <= j < k ==> results[j].None?
  {
    if results == [] then None
    else if results[0].Some? then results[0]
    else
      var rest := FirstSome(results[1..]);
      if rest.Some? then
        ghost var k :| 0 <= k < |results[1..]| && results[1..][k] == rest
                     && forall j :: 0 <= j < k ==> results[1..][j].None?;
        assert results[k + 1] == rest;
        rest
      else rest
  }

  /** A chain of two is `first ?: second`. */
  lemma FirstSomeOfTwo<T>(first: Option<T>, second: Option<T>)
    ensures FirstSome([first, second]) == OrElse(first, second)
  {
    assert [first, second][1..] == [second];
    assert [second][1..] == [];
  }

  /** A chain of one is its only result. */
  lemma FirstSomeOfOne<T>(only: Option<T>)
    ensures FirstSome([only]) == only
  {
    assert [only][1..] == [];
  }

  /** The byte probes of the sources in `order`, in that order. */
  function Probes(ctx: Context, rp: ResolvedPath, order: seq<Source>): seq<Option<seq<byte>>> {
    seq(|order|, i requires 0 <= i < |order| => Probe(ctx, rp, order[i]))
  }

  /** The reader probes of the sources in `order`, in that order. */
  function ReaderProbes(ctx: Context, rp: ResolvedPath, order: seq<Source>): seq<Option<BufferedReader>> {
    seq(|order|, i requires 0 <= i < |order| => ReaderProbe(ctx, rp, order[i]))
  }

  /** The bytes of the first source in `order` that yields any. */
  function FirstAvailable(ctx: Context, rp: ResolvedPath, order: seq<Source>): (r: Option<seq<byte>>)
    ensures r.None? <==> forall i :: 0 <= i < |order| ==> Probe(ctx, rp, order[i]).None?
    ensures r.Some? ==> exists k :: 0 <= k < |order| && Probe(ctx, rp, order[k]) == r
                                   && forall j :: 0 <= j < k ==> Probe(ctx, rp, order[j]).None?
  {
    var ps := Probes(ctx, rp, order);
    assert forall i :: 0 <= i < |order| ==> ps[i] == Probe(ctx, rp, order[i]);
    FirstSome(ps)
  }

  /** The reader of the first source in `order` that opens. */
  function FirstReader(ctx: Context, rp: ResolvedPath, order: seq<Source>): (r: Option<BufferedReader>)
    ensures r.None? <==> forall i :: 0 <= i < |order| ==> ReaderProbe(ctx, rp, order[i]).None?
    ensures r.Some? ==> exists k :: 0 <= k < |order| && ReaderProbe(ctx, rp, order[k]) == r
                                   && forall j :: 0 <= j < k ==> ReaderProbe(ctx, rp, order[j]).None?
  {
    var ps := ReaderProbes(ctx, rp, order);
    assert forall i :: 0 <= i < |order| ==> ps[i] == ReaderProbe(ctx, rp, order[i]);
    FirstSome(ps)
  }

  /** Each strategy's chain of byte probes, as `loadModel` writes it out. */
  lemma ByteChainsOfEachStrategy(ctx: Context, rp: ResolvedPath)
    ensures FirstAvailable(ctx, rp, FileFirst.AttemptOrder()) == OrElse(TryLoadFromFile(ctx, rp), TryLoadFromAssets(ctx, rp))
    ensures FirstAvailable(ctx, rp, AssetsFirst.AttemptOrder()) == OrElse(TryLoadFromAssets(ctx, rp), TryLoadFromFile(ctx, rp))
    ensures FirstAvailable(ctx, rp, FileOnly.AttemptOrder()) == TryLoadFromFile(ctx, rp)
    ensures FirstAvailable(ctx, rp, AssetsOnly.AttemptOrder()) == TryLoadFromAssets(ctx, rp)
  {
    var f, a := TryLoadFromFile(ctx, rp), TryLoadFromAssets(ctx, rp);
    assert Probes(ctx, rp, [LocalFiles, Assets]) == [f, a];
    assert Probes(ctx, rp, [Assets, LocalFiles]) == [a, f];
    assert Probes(ctx, rp, [LocalFiles]) == [f];
    assert Probes(ctx, rp, [Assets]) == [a];
    FirstSomeOfTwo(f, a);
    FirstSomeOfTwo(a, f);
    FirstSomeOfOne(f);
    FirstSomeOfOne(a);
  }

  /** Each strategy's chain of reader probes, as `loadKeys` writes it out. */
  lemma ReaderChainsOfEachStrategy(ctx: Context, rp: ResolvedPath)
    ensures FirstReader(ctx, rp, FileFirst.AttemptOrder()) == OrElse(TryLoadKeysFromFile(ctx, rp), TryLoadKeysFromAssets(ctx, rp))
    ensures FirstReader(ctx, rp, AssetsFirst.AttemptOrder()) == OrElse(TryLoadKeysFromAssets(ctx, rp), TryLoadKeysFromFile(ctx, rp))
    ensures FirstReader(ctx, rp, FileOnly.AttemptOrder()) == TryLoadKeysFromFile(ctx, rp)
    ensures FirstReader(ctx, rp, AssetsOnly.AttemptOrder()) == TryLoadKeysFromAssets(ctx, rp)
  {
    var f, a := TryLoadKeysFromFile(ctx, rp), TryLoadKeysFromAssets(ctx, rp);
    assert ReaderProbes(ctx, rp, [LocalFiles, Assets]) == [f, a];
    assert ReaderProbes(ctx, rp, [Assets, LocalFiles]) == [a, f];
    assert ReaderProbes(ctx, rp, [LocalFiles]) == [f];
    assert ReaderProbes(ctx, rp, [Assets]) == [a];
    FirstSomeOfTwo(f, a);
    FirstSomeOfTwo(a, f);
    FirstSomeOfOne(f);
    FirstSomeOfOne(a);
  }

  /**
   * `loadModel(context, resolvedPath, strategy)`: returns the bytes of the
   * first source in the strategy's documented attempt order that yields any.
   * It throws only when every source the strategy tries yields nothing, and
   * then only a `ModelLoadException` naming the path.
   */
  function LoadModel(ctx: Context, rp: ResolvedPath, strategy: OcrLoadStrategy): (r: Outcome<seq<byte>, LoadFailure>)
    ensures r.Returned? <==> FirstAvailable(ctx, rp, strategy.AttemptOrder()).Some?
    ensures r.Returned? ==> Some(r.value) == FirstAvailable(ctx, rp, strategy.AttemptOrder())
    ensures r.Threw? ==> r.error == ModelLoadException(FailureMessage("model", rp.path, strategy))
  {
    ByteChainsOfEachStrategy(ctx, rp);
    match strategy
    case FileFirst =>
      OrThrow(OrElse(TryLoadFromFile(ctx, rp), TryLoadFromAssets(ctx, rp)), FailureMessage("model", rp.path, strategy))
    case AssetsFirst =>
      OrThrow(OrElse(TryLoadFromAssets(ctx, rp), TryLoadFromFile(ctx, rp)), FailureMessage("model", rp.path, strategy))
    case FileOnly =>
      OrThrow(TryLoadFromFile(ctx, rp), FailureMessage("model", rp.path, strategy))
    case AssetsOnly =>
      OrThrow(TryLoadFromAssets(ctx, rp), FailureMessage("model", rp.path, strategy))
  }

  /**
   * `loadKeys(context, resolvedPath, strategy)`: the same chain over the reader
   * probes. It returns the reader of the first source in the attempt order that
   * opens, and otherwise throws a `ModelLoadException` naming the path.
   */
  function LoadKeys(ctx: Context, rp: ResolvedPath, strategy: OcrLoadStrategy): (r: Outcome<BufferedReader, LoadFailure>)
    ensures r.Returned? <==> FirstReader(ctx, rp, strategy.AttemptOrder()).Some?
    ensures r.Returned? ==> Some(r.value) == FirstReader(ctx, rp, strategy.AttemptOrder())
    ensures r.Threw? ==> r.error == ModelLoadException(FailureMessage("keys", rp.path, strategy))
  {
    ReaderChainsOfEachStrategy(ctx, rp);
    match strategy
    case FileFirst =>
      OrThrow(OrElse(TryLoadKeysFromFile(ctx, rp), TryLoadKeysFromAssets(ctx, rp)), FailureMessage("keys", rp.path, strategy))
    case AssetsFirst =>
      OrThrow(OrElse(TryLoadKeysFromAssets(ctx, rp), TryLoadKeysFromFile(ctx, rp)), FailureMessage("keys", rp.path, strategy))
    case FileOnly =>
      OrThrow(TryLoadKeysFromFile(ctx, rp), FailureMessage("keys", rp.path, strategy))
    case AssetsOnly =>
      OrThrow(TryLoadKeysFromAssets(ctx, rp), FailureMessage("keys", rp.path, strategy))
  }

  /**
   * Loading keys is at least as permissive as loading a model: whenever the
   * model bytes load, a reader is returned; and a returned reader that reads in
   * full reads exactly the bytes `loadModel` returns.
   */
  lemma KeysLoadWheneverModelLoads(ctx: Context, rp: ResolvedPath, strategy: OcrLoadStrategy)
    ensures LoadModel(ctx, rp, strategy).Returned? ==> LoadKeys(ctx, rp, strategy).Returned?
    ensures LoadKeys(ctx, rp, strategy).Returned? && LoadKeys(ctx, rp, strategy).value.text.Some? ==>
      LoadModel(ctx, rp, strategy) == Returned(LoadKeys(ctx, rp, strategy).value.text.value)
  {
    ByteChainsOfEachStrategy(ctx, rp);
    ReaderChainsOfEachStrategy(ctx, rp);
  }

  /** On uniform entries, `loadKeys` has exactly the shape of `loadModel`: same success, same content. */
  lemma KeysMatchModelOnUniformEntries(ctx: Context, rp: ResolvedPath, strategy: OcrLoadStrategy)
    requires UniformAt(ctx, rp)
    ensures LoadKeys(ctx, rp, strategy).Returned? <==> LoadModel(ctx, rp, strategy).Returned?
    ensures LoadKeys(ctx, rp, strategy).Returned? ==>
      LoadKeys(ctx, rp, strategy).value == BufferedReader(Some(LoadModel(ctx, rp, strategy).value))
  {
    ByteChainsOfEachStrategy(ctx, rp);
    ReaderChainsOfEachStrategy(ctx, rp);
  }

  /** FILE_FIRST: a readable local file wins, whatever the assets hold. */
  lemma LocalFileWinsUnderFileFirst(ctx: Context, rp: ResolvedPath, bytes: seq<byte>, assets: map<string, Entry>)
    requires TryLoadFromFile(ctx, rp) == Some(bytes)
    ensures LoadModel(ctx.(assets := assets), rp, FileFirst) == Returned(bytes)
  {
  }

  /** ASSETS_FIRST: an asset that reads in full wins, whatever the local files hold. */
  lemma AssetWinsUnderAssetsFirst(ctx: Context, rp: ResolvedPath, bytes: seq<byte>, files: map<string, Entry>)
    requires TryLoadFromAssets(ctx, rp) == Some(bytes)
    ensures LoadModel(ctx.(files := files), rp, AssetsFirst) == Returned(bytes)
  {
  }

  /** FILE_ONLY never consults the assets, and ASSETS_ONLY never consults the local files. */
  lemma OnlyStrategiesIgnoreTheOtherStore(ctx: Context, rp: ResolvedPath, files: map<string, Entry>, assets: map<string, Entry>)
    ensures LoadModel(ctx, rp, FileOnly) == LoadModel(ctx.(assets := assets), rp, FileOnly)
    ensures LoadModel(ctx, rp, AssetsOnly) == LoadModel(ctx.(files := files), rp, AssetsOnly)
  {
  }

  /** An absolute path never depends on the assets, under any strategy, for models and keys alike. */
  lemma AbsolutePathIgnoresAssets(ctx: Context, rp: ResolvedPath, strategy: OcrLoadStrategy, assets: map<string, Entry>)
    requires rp.isAbsolute
    ensures LoadModel(ctx, rp, strategy) == LoadModel(ctx.(assets := assets), rp, strategy)
    ensures LoadKeys(ctx, rp, strategy) == LoadKeys(ctx.(assets := assets), rp, strategy)
  {
    var other := ctx.(assets := assets);
    assert TryLoadFromFile(ctx, rp) == TryLoadFromFile(other, rp);
    assert TryLoadFromAssets(ctx, rp) == None == TryLoadFromAssets(other, rp);
    assert TryLoadKeysFromFile(ctx, rp) == TryLoadKeysFromFile(other, rp);
    assert TryLoadKeysFromAssets(ctx, rp) == None == TryLoadKeysFromAssets(other, rp);
  }

  /** Under ASSETS_ONLY an absolute path always fails, naming the assets in its message. */
  lemma AbsolutePathFailsAssetsOnly(ctx: Context, rp: ResolvedPath)
    requires rp.isAbsolute
    ensures LoadModel(ctx, rp, AssetsOnly) == Threw(ModelLoadException(FailureMessage("model", rp.path, AssetsOnly)))
  {
  }

  /**
   * An artifact present only in the assets: FILE_ONLY fails where ASSETS_ONLY
   * succeeds, and both fallback strategies return the asset.
   */
  lemma AssetOnlyArtifact(ctx: Context, rp: ResolvedPath, bytes: seq<byte>)
    requires !rp.isAbsolute
    requires rp.path in ctx.assets && ctx.assets[rp.path] == Readable(bytes)
    requires ModelsDirFile(ctx.filesDir, rp.path) !in ctx.files
    ensures LoadModel(ctx, rp, FileOnly) == Threw(ModelLoadException(FailureMessage("model", rp.path, FileOnly)))
    ensures LoadModel(ctx, rp, AssetsOnly) == Returned(bytes)
    ensures LoadModel(ctx, rp, FileFirst) == Returned(bytes) && LoadModel(ctx, rp, AssetsFirst) == Returned(bytes)
  {
  }

  /** With neither source able to open the path, every strategy fails, for models and keys alike. */
  lemma NothingAvailableFailsEverywhere(ctx: Context, rp: ResolvedPath, strategy: OcrLoadStrategy)
    requires TryLoadKeysFromFile(ctx, rp).None? && TryLoadKeysFromAssets(ctx, rp).None?
    ensures LoadModel(ctx, rp, strategy).Threw? && LoadKeys(ctx, rp, strategy).Threw?
  {
  }

  /**
   * Deprecated `loadModel(context, modelName)`: the file `filesDir/models/<name>`
   * if it exists, whose failure to open or read is thrown, not swallowed;
   * otherwise the asset, whose absence or failure is thrown as an I/O error.
   */
  function LoadModelLegacy(ctx: Context, modelName: string): (r: Outcome<seq<byte>, LoadFailure>)
    ensures r.Threw? ==> r.error.IoException?
    ensures FileExists(ctx, ModelsDirFile(ctx.filesDir, modelName)) ==>
      r == (if ctx.files[ModelsDirFile(ctx.filesDir, modelName)].Readable?
            then Returned(ctx.files[ModelsDirFile(ctx.filesDir, modelName)].content)
            else Threw(IoException(ModelsDirFile(ctx.filesDir, modelName))))
    ensures !FileExists(ctx, ModelsDirFile(ctx.filesDir, modelName)) ==>
      r == (if modelName in ctx.assets && ctx.assets[modelName].Readable?
            then Returned(ctx.assets[modelName].content)
            else Threw(IoException(modelName)))
  {
    var file := ModelsDirFile(ctx.filesDir, modelName);
    if FileExists(ctx, file) then
      match ReadFile(ctx, file)
      case Some(bytes) => Returned(bytes)
      case None => Threw(IoException(file))
    else
      match ReadAsset(ctx, modelName)
      case Some(bytes) => Returned(bytes)
      case None => Threw(IoException(modelName))
  }

  /**
   * Deprecated `loadKeys(context, keysName)`: the same choice of source, yielding
   * a reader once the chosen entry opens and an I/O error when it does not, the
   * asset's absence included. Whenever the model loader returns, this
   * returns a reader over the same bytes; whenever this throws, the model loader
   * throws the same error; a reader it returns reads what the model loader returns.
   */
  function LoadKeysLegacy(ctx: Context, keysName: string): (r: Outcome<BufferedReader, LoadFailure>)
    ensures r.Threw? ==> r.error.IoException?
    ensures FileExists(ctx, ModelsDirFile(ctx.filesDir, keysName)) ==>
      r == (if ctx.files[ModelsDirFile(ctx.filesDir, keysName)].Opens()
            then Returned(BufferedReader(ReadBytes(ctx.files[ModelsDirFile(ctx.filesDir, keysName)])))
            else Threw(IoException(ModelsDirFile(ctx.filesDir, keysName))))
    ensures !FileExists(ctx, ModelsDirFile(ctx.filesDir, keysName)) ==>
      r == (if keysName in ctx.assets && ctx.assets[keysName].Opens()
            then Returned(BufferedReader(ReadBytes(ctx.assets[keysName])))
            else Threw(IoException(keysName)))
    ensures LoadModelLegacy(ctx, keysName).Returned? ==> r == Returned(BufferedReader(Some(LoadModelLegacy(ctx, keysName).value)))
    ensures r.Threw? ==> r == Threw(LoadModelLegacy(ctx, keysName).error)
    ensures r.Returned? && r.value.text.Some? ==> LoadModelLegacy(ctx, keysName) == Returned(r.value.text.value)
  {
    var file := ModelsDirFile(ctx.filesDir, keysName);
    if FileExists(ctx, file) then
      match OpenFile(ctx, file)
      case Some(reader) => Returned(reader)
      case None => Threw(IoException(file))
    else
      match OpenAsset(ctx, keysName)
      case Some(reader) => Returned(reader)
      case None => Threw(IoException(keysName))
  }

  /** Whenever the deprecated loader succeeds, FILE_FIRST on the same relative name returns the same bytes. */
  lemma LegacyAgreesWithFileFirst(ctx: Context, modelName: string, source: PathSource)
    requires LoadModelLegacy(ctx, modelName).Returned?
    ensures LoadModel(ctx, ResolvedPath(modelName, false, source), FileFirst) == LoadModelLegacy(ctx, modelName)
  {
  }

  /**
   * Where they differ: an existing local file that cannot be read in full makes
   * the deprecated loader throw, while FILE_FIRST falls back to the asset.
   */
  lemma LegacyDoesNotFallBackPastUnreadableFile(ctx: Context, modelName: string, source: PathSource, bytes: seq<byte>)
    requires ModelsDirFile(ctx.filesDir, modelName) in ctx.files
    requires !ctx.files[ModelsDirFile(ctx.filesDir, modelName)].Readable?
    requires modelName in ctx.assets && ctx.assets[modelName] == Readable(bytes)
    ensures LoadModelLegacy(ctx, modelName) == Threw(IoException(ModelsDirFile(ctx.filesDir, modelName)))
    ensures LoadModel(ctx, ResolvedPath(modelName, false, source), FileFirst) == Returned(bytes)
  {
  }
}
