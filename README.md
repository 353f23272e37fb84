# OCR model artifact resolution and loading, in Dafny

This project models how the Android OCR library finds and opens the four
artifacts an OCR engine needs: the text detector (det), the angle
classifier (cls), the recognizer (rec) and the character dictionary (keys).

- **Catalog.** An `OcrModelVersion` (V3, V4, V5) supplies a default file
  name for each role.
- **Configuration.** An `OcrPathConfig` may override any role's path. It is
  assembled by a builder with per-role setters, `allPaths` and
  `fromVersion`. An `OcrConfig` pairs it with an `OcrLoadStrategy`.
  `OcrConfigManager` keeps a process-wide default configuration.
- **Resolution.** `ModelPathResolver.resolve` turns the overrides and the
  version defaults into four `ResolvedPath`s. A non-blank override wins, and
  it is absolute when it starts with `/`. Otherwise the resolver uses the
  version's relative file name.
- **Validation.** `validate` checks every role against the strategy before
  anything is loaded and collects one message per role that cannot be
  loaded.
- **Loading.** `ModelLoader` reads bytes, or a dictionary reader, from the
  app's private files (relative paths live under `filesDir/models/`) or the
  bundled assets. It tries them in the strategy's order and throws a
  `ModelLoadException` only when every source it tries fails.

Stores are abstract. The file system is a map from absolute file name to
entry and the assets are a map from asset name to entry. An entry is in one
of four states:

- readable, with its bytes;
- opens, but reading it throws;
- cannot be opened, and `File.canRead()` reports true (a directory);
- cannot be opened, and `File.canRead()` reports false (no permission).

The accessibility checks (`canRead()` for files, opening for assets), the
byte probes (`readBytes`) and the dictionary probes (`bufferedReader`) each
see a different part of these states. When loading returns, `canLoadPath`
passes. The converse holds only on uniform entries, which either read in
full or are refused by `canRead()`; for an asset, whose check only opens it,
uniform means it reads in full or cannot be opened. Separate lemmas exhibit an entry that
passes a check and still fails to load.

Kotlin's `null` is `Option`, and a call that may throw returns `Outcome`
(`Returned`/`Threw`). A `?:` chain of probes is an instance of `FirstSome`,
the first present result in a sequence of attempts. `orThrow` turns an
absent result into the thrown `ModelLoadException`. Every builder is a class
whose setters update its fields in place. Each setter is specified against
`ApplyOp`, a function on values, and the properties of a whole
configuration block are proved about `ApplyOps`. `validate` is a loop over
the four roles, proved against the recursive function `Failures`.

Validation errors are plain strings
`"Cannot load <role> model from <path> with strategy <STRATEGY>"`. A load
failure carries only a message, such as `"Failed to load model from <path>"`.

## Model

| member | source | states |
|---|---|---|
| ModelVersion.OcrModelVersion.Name | OcrLibrary/src/main/java/com/benjaminwan/ocrlibrary/OcrModelVersion.kt:13-42 | the enum name of each entry, two characters long |
| ModelVersion.OcrModelVersion.VersionName | OcrLibrary/src/main/java/com/benjaminwan/ocrlibrary/OcrModelVersion.kt:14-34 | the display name is "PP-OCRv" followed by the digit of the enum name |
| ModelVersion.OcrModelVersion.DetUrl | OcrLibrary/src/main/java/com/benjaminwan/ocrlibrary/OcrModelVersion.kt:19-39 | the detector download locator: empty for V3, a ModelScope URL for V4 and V5 (definition only) |
| ModelVersion.OcrModelVersion.RecUrl | OcrLibrary/src/main/java/com/benjaminwan/ocrlibrary/OcrModelVersion.kt:20-40 | the recognizer download locator: empty for V3, a ModelScope URL for V4 and V5 (definition only) |
| ModelVersion.OcrModelVersion.KeysUrl | OcrLibrary/src/main/java/com/benjaminwan/ocrlibrary/OcrModelVersion.kt:21-41 | a dictionary download locator exists exactly for V5 |
| ModelVersion.OcrModelVersion.DetModelName | OcrLibrary/src/main/java/com/benjaminwan/ocrlibrary/OcrModelVersion.kt:15-35 | each version's detector file name is relative and non-blank |
| ModelVersion.OcrModelVersion.RecModelName | OcrLibrary/src/main/java/com/benjaminwan/ocrlibrary/OcrModelVersion.kt:16-36 | each version's recognizer file name is relative and non-blank |
| ModelVersion.OcrModelVersion.ClsModelName | OcrLibrary/src/main/java/com/benjaminwan/ocrlibrary/OcrModelVersion.kt:17-37 | the classifier file name is relative and non-blank |
| ModelVersion.OcrModelVersion.KeysName | OcrLibrary/src/main/java/com/benjaminwan/ocrlibrary/OcrModelVersion.kt:18-38 | each version's dictionary file name is relative and non-blank |
| ModelVersion.Find | OcrLibrary/src/main/java/com/benjaminwan/ocrlibrary/OcrModelVersion.kt:46 | returns the first entry with the given name, and None exactly when no entry has it |
| ModelVersion.FromName | OcrLibrary/src/main/java/com/benjaminwan/ocrlibrary/OcrModelVersion.kt:45-47 | total: the version whose enum name matches, and V3 when none matches |
| ModelVersion.NamesDistinct | OcrLibrary/src/main/java/com/benjaminwan/ocrlibrary/OcrModelVersion.kt:13-42 | two versions have the same name exactly when they are the same version |
| ModelVersion.FromNameRoundTrip | OcrLibrary/src/main/java/com/benjaminwan/ocrlibrary/OcrModelVersion.kt:45-47 | looking up a version by its own name gives that version back |
| ModelVersion.PreferenceDefaultNamesV3 | app/src/main/java/com/benjaminwan/ocr/storage/PreferencesManager.kt:22 | the stored preference default "V3" selects V3 |
| ModelVersion.ClassifierShared | OcrLibrary/src/main/java/com/benjaminwan/ocrlibrary/OcrModelVersion.kt:17-37 | every version uses the same classifier file |
| ModelVersion.V3IsBundled | OcrLibrary/src/main/java/com/benjaminwan/ocrlibrary/OcrModelVersion.kt:19-21 | V3 has no download locators: its models ship in the assets |
| ModelVersion.V4SharesV3Dictionary | OcrLibrary/src/main/java/com/benjaminwan/ocrlibrary/OcrModelVersion.kt:18-31 | V4 reuses V3's dictionary file name |
| LoadStrategy.OcrLoadStrategy.Name | OcrLibrary/src/main/java/com/benjaminwan/ocrlibrary/config/OcrLoadStrategy.kt:8-46 | the enum constant names FILE_FIRST, ASSETS_FIRST, FILE_ONLY, ASSETS_ONLY (definition only) |
| LoadStrategy.OcrLoadStrategy.AttemptOrder | OcrLibrary/src/main/java/com/benjaminwan/ocrlibrary/config/OcrLoadStrategy.kt:8-46 | one or two sources with no repeat; two sources exactly for the fallback strategies |
| LoadStrategy.NamesDistinct | OcrLibrary/src/main/java/com/benjaminwan/ocrlibrary/config/OcrLoadStrategy.kt:8-46 | strategy names identify strategies |
| LoadStrategy.OnlyStrategiesUseOneSource | OcrLibrary/src/main/java/com/benjaminwan/ocrlibrary/config/OcrLoadStrategy.kt:9-45 | FILE_ONLY tries local files only and ASSETS_ONLY tries assets only; the fallback strategies begin with the source their name puts first |
| Roles.Role.Tag | OcrLibrary/src/main/java/com/benjaminwan/ocrlibrary/config/ModelPathResolver.kt:121-126 | the role labels "det", "cls", "rec", "keys" used in messages (definition only) |
| Roles.AllRolesEnumerates | OcrLibrary/src/main/java/com/benjaminwan/ocrlibrary/config/ModelPathResolver.kt:121-126 | the validated role list contains every role once, four in all |
| Roles.TagDeterminesRole | OcrLibrary/src/main/java/com/benjaminwan/ocrlibrary/config/ModelPathResolver.kt:121-126 | the first letter of a role label identifies the role |
| PathText.IsWs | OcrLibrary/src/main/java/com/benjaminwan/ocrlibrary/config/ModelPathResolver.kt:83 | the JVM whitespace set that `isBlank` skips, as a table of code points (definition only) |
| PathText.IsBlank | OcrLibrary/src/main/java/com/benjaminwan/ocrlibrary/config/ModelPathResolver.kt:83 | a string is blank when every character is whitespace, the empty string included (definition only) |
| PathText.SlashIsNotBlank | OcrLibrary/src/main/java/com/benjaminwan/ocrlibrary/config/ModelPathResolver.kt:83-86 | a path starting with `/` is never blank, so it always survives the blank filter |
| PathText.TrimEndSlash | OcrLibrary/src/main/java/com/benjaminwan/ocrlibrary/config/OcrPathConfig.kt:115 | the result is a prefix of the input, does not end with `/`, and only `/` characters were removed |
| PathText.TrimEndSlashIgnoresTrailingSlash | OcrLibrary/src/main/java/com/benjaminwan/ocrlibrary/config/OcrPathConfig.kt:115 | one more trailing `/` does not change the trimmed base |
| PathText.TrimEndSlashIdempotent | OcrLibrary/src/main/java/com/benjaminwan/ocrlibrary/config/OcrPathConfig.kt:115 | trimming twice gives the same as trimming once |
| PathText.JoinPath | OcrLibrary/src/main/java/com/benjaminwan/ocrlibrary/config/OcrPathConfig.kt:115-119 | the joined path ends with `/` and the name, and the base part does not end with `/` |
| PathText.JoinPathTrimmedBase | OcrLibrary/src/main/java/com/benjaminwan/ocrlibrary/config/OcrPathConfig.kt:141-148 | joining under an already trimmed base gives the same path, so `fromVersion`'s second trim is harmless |
| PathText.JoinPathAbsoluteIff | OcrLibrary/src/main/java/com/benjaminwan/ocrlibrary/config/OcrPathConfig.kt:115-119 | a joined path starts with `/` exactly when the base does, or the base is empty or slashes only |
| Storage.ModelsDirFile | OcrLibrary/src/main/java/com/benjaminwan/ocrlibrary/ModelLoader.kt:111 | a relative name is looked up as `filesDir/models/<name>` (definition only) |
| Storage.DistinctPathsDistinctFiles | OcrLibrary/src/main/java/com/benjaminwan/ocrlibrary/ModelLoader.kt:108-112 | two distinct paths of the same kind (both absolute or both relative) address two distinct local files |
| Storage.ReaderReadsTheSameBytes | OcrLibrary/src/main/java/com/benjaminwan/ocrlibrary/ModelLoader.kt:157-176 | a reader reads what `readBytes` would; an entry that reads in full also opens and passes `canRead()`; on an entry that reads in full or cannot be opened, opening and reading agree; on a uniform entry the three agree |
| PathConfig.OcrPathConfig.With | OcrLibrary/src/main/java/com/benjaminwan/ocrlibrary/config/OcrPathConfig.kt:57-84 | setting one role's path changes that role and keeps the other three |
| PathConfig.AllPathsConfig | OcrLibrary/src/main/java/com/benjaminwan/ocrlibrary/config/OcrPathConfig.kt:108-121 | `allPaths`: every role becomes "trimmed base/name" (definition only) |
| PathConfig.ApplyOp | OcrLibrary/src/main/java/com/benjaminwan/ocrlibrary/config/OcrPathConfig.kt:57-149 | one builder call as a function on the configuration: a setter, `allPaths` or `fromVersion` (definition only) |
| PathConfig.ApplyOps | OcrLibrary/src/main/java/com/benjaminwan/ocrlibrary/config/OcrPathConfig.kt:57-149 | a sequence of builder calls applied left to right (definition only) |
| PathConfig.UntouchedRoleKept | OcrLibrary/src/main/java/com/benjaminwan/ocrlibrary/config/OcrPathConfig.kt:57-84 | builder calls that do not write a role leave its path unchanged |
| PathConfig.ApplyOpsAppend | OcrLibrary/src/main/java/com/benjaminwan/ocrlibrary/config/OcrPathConfig.kt:57-121 | running two call sequences one after the other equals running their concatenation |
| PathConfig.LastWriteWins | OcrLibrary/src/main/java/com/benjaminwan/ocrlibrary/config/OcrPathConfig.kt:57-84 | after a setter, the role keeps that path until a later call writes the role again |
| PathConfig.SetterChangesOnlyItsRole | OcrLibrary/src/main/java/com/benjaminwan/ocrlibrary/config/OcrPathConfig.kt:57-84 | a single-role setter writes its own role and leaves the others as they were |
| PathConfig.AllPathsOverwrites | OcrLibrary/src/main/java/com/benjaminwan/ocrlibrary/config/OcrPathConfig.kt:108-121 | `allPaths` overwrites every role, whatever was set before, with "`trimmed base`/`name`" |
| PathConfig.AllPathsIgnoresTrailingSlash | OcrLibrary/src/main/java/com/benjaminwan/ocrlibrary/config/OcrPathConfig.kt:115 | `allPaths("x/", …)` builds the same configuration as `allPaths("x", …)` |
| PathConfig.FromVersionIsAllPaths | OcrLibrary/src/main/java/com/benjaminwan/ocrlibrary/config/OcrPathConfig.kt:140-149 | `fromVersion(base, v)` equals `allPaths` with the version's four file names |
| PathConfig.Builder.constructor | OcrLibrary/src/main/java/com/benjaminwan/ocrlibrary/config/OcrPathConfig.kt:49-52 | a fresh builder has no path set |
| PathConfig.Builder.Build | OcrLibrary/src/main/java/com/benjaminwan/ocrlibrary/config/OcrPathConfig.kt:154-156 | the built record holds exactly the builder's four current fields |
| PathConfig.Builder.DetModelPath | OcrLibrary/src/main/java/com/benjaminwan/ocrlibrary/config/OcrPathConfig.kt:57-60 | sets the detector path in place and returns the same builder |
| PathConfig.Builder.ClsModelPath | OcrLibrary/src/main/java/com/benjaminwan/ocrlibrary/config/OcrPathConfig.kt:65-68 | sets the classifier path in place and returns the same builder |
| PathConfig.Builder.RecModelPath | OcrLibrary/src/main/java/com/benjaminwan/ocrlibrary/config/OcrPathConfig.kt:73-76 | sets the recognizer path in place and returns the same builder |
| PathConfig.Builder.KeysPath | OcrLibrary/src/main/java/com/benjaminwan/ocrlibrary/config/OcrPathConfig.kt:81-84 | sets the dictionary path in place and returns the same builder |
| PathConfig.Builder.AllPaths | OcrLibrary/src/main/java/com/benjaminwan/ocrlibrary/config/OcrPathConfig.kt:108-121 | sets all four paths under the trimmed base and returns the same builder |
| PathConfig.Builder.FromVersion | OcrLibrary/src/main/java/com/benjaminwan/ocrlibrary/config/OcrPathConfig.kt:140-149 | trims the base and delegates to `allPaths` with the version's file names |
| PathConfig.Builder.Perform | OcrLibrary/src/main/java/com/benjaminwan/ocrlibrary/config/OcrPathConfig.kt:57-149 | one call of a configuration block, made on the builder through its own setter: the new state is that call applied to the old one |
| PathConfig.Builder.Apply | OcrLibrary/src/main/java/com/benjaminwan/ocrlibrary/config/OcrConfig.kt:68-71 | running a configuration block on the builder gives the block's calls applied in order |
| PathConfig.BuildFromBlock | OcrLibrary/src/main/java/com/benjaminwan/ocrlibrary/config/OcrConfig.kt:68-71 | a block run on a fresh builder builds the block's calls applied to the empty configuration |
| Config.Builder.constructor | OcrLibrary/src/main/java/com/benjaminwan/ocrlibrary/config/OcrConfig.kt:40-41 | a fresh builder holds no path configuration and FILE_FIRST |
| Config.Builder.Build | OcrLibrary/src/main/java/com/benjaminwan/ocrlibrary/config/OcrConfig.kt:86-88 | the built record holds exactly the current path configuration and strategy |
| Config.Builder.SetPathConfig | OcrLibrary/src/main/java/com/benjaminwan/ocrlibrary/config/OcrConfig.kt:48-51 | replaces the path configuration and keeps the strategy |
| Config.Builder.PathConfigBlock | OcrLibrary/src/main/java/com/benjaminwan/ocrlibrary/config/OcrConfig.kt:68-71 | replaces the path configuration with the block's result and keeps the strategy |
| Config.Builder.SetLoadStrategy | OcrLibrary/src/main/java/com/benjaminwan/ocrlibrary/config/OcrConfig.kt:78-81 | replaces the strategy and keeps the path configuration |
| Config.BuildDefault | OcrLibrary/src/main/java/com/benjaminwan/ocrlibrary/config/OcrConfig.kt:22-25 | a fresh builder builds the same record as the record's defaults: no overrides, FILE_FIRST |
| Config.BuildWith | OcrLibrary/src/main/java/com/benjaminwan/ocrlibrary/config/OcrConfig.kt:48-81 | for the one call sequence strategy s1, paths pc1, strategy s2, paths pc2, the built record holds pc2 and s2: the last call of each kind wins |
| ConfigManager.OcrConfigManager.constructor | OcrLibrary/src/main/java/com/benjaminwan/ocrlibrary/config/OcrConfigManager.kt:33 | initially no global configuration is set |
| ConfigManager.OcrConfigManager.SetGlobalConfig | OcrLibrary/src/main/java/com/benjaminwan/ocrlibrary/config/OcrConfigManager.kt:44-46 | the new configuration replaces whatever was set |
| ConfigManager.OcrConfigManager.GetGlobalConfig | OcrLibrary/src/main/java/com/benjaminwan/ocrlibrary/config/OcrConfigManager.kt:54 | returns the current value, None when unset |
| ConfigManager.OcrConfigManager.ClearGlobalConfig | OcrLibrary/src/main/java/com/benjaminwan/ocrlibrary/config/OcrConfigManager.kt:62-64 | after clearing, nothing is set |
| ConfigManager.OcrConfigManager.HasGlobalConfig | OcrLibrary/src/main/java/com/benjaminwan/ocrlibrary/config/OcrConfigManager.kt:72 | true exactly when a configuration is set |
| ConfigManager.LastWriteWins | OcrLibrary/src/main/java/com/benjaminwan/ocrlibrary/config/OcrConfigManager.kt:44-72 | a read starts with nothing, returns the last value set, and returns nothing again after a clear |
| ModelPathResolver.Override | OcrLibrary/src/main/java/com/benjaminwan/ocrlibrary/config/ModelPathResolver.kt:36-64 | a role's override: the configuration's path for that role, None when there is no configuration or no path configuration (definition only) |
| ModelPathResolver.IsEffective | OcrLibrary/src/main/java/com/benjaminwan/ocrlibrary/config/ModelPathResolver.kt:83 | an override counts when it is present and not blank (definition only) |
| ModelPathResolver.DefaultName | OcrLibrary/src/main/java/com/benjaminwan/ocrlibrary/config/ModelPathResolver.kt:45-66 | the default of every role is a relative, non-blank catalog name |
| ModelPathResolver.ResolveSinglePath | OcrLibrary/src/main/java/com/benjaminwan/ocrlibrary/config/ModelPathResolver.kt:77-101 | a non-blank override is used as given, is CUSTOM_CONFIG, and is absolute exactly when it starts with `/`; otherwise the default name, relative, VERSION_DEFAULT |
| ModelPathResolver.Resolve | OcrLibrary/src/main/java/com/benjaminwan/ocrlibrary/config/ModelPathResolver.kt:31-67 | each role is resolved from its own override and its own version default |
| ModelPathResolver.ResolvedPathWellFormed | OcrLibrary/src/main/java/com/benjaminwan/ocrlibrary/config/ResolvedPath.kt:26-61 | a resolved path is never GLOBAL_CONFIG, is CUSTOM_CONFIG exactly when a non-blank override was given, and is absolute exactly when it starts with `/` |
| ModelPathResolver.BlankOverrideIsAbsent | OcrLibrary/src/main/java/com/benjaminwan/ocrlibrary/config/ModelPathResolver.kt:83 | a blank override resolves exactly like no override |
| ModelPathResolver.NoOverridesMeansVersionDefaults | OcrLibrary/src/main/java/com/benjaminwan/ocrlibrary/config/ModelPathResolver.kt:36-99 | with no configuration or no path overrides, every role takes the relative version default |
| ModelPathResolver.RolesResolvedIndependently | OcrLibrary/src/main/java/com/benjaminwan/ocrlibrary/config/ModelPathResolver.kt:45-66 | a role's resolution depends only on that role's override |
| ModelPathResolver.AbsoluteOnlyFromOverride | OcrLibrary/src/main/java/com/benjaminwan/ocrlibrary/config/ModelPathResolver.kt:77-101 | an absolute resolved path is always a custom override, taken verbatim |
| ModelPathResolver.CanLoadFromFile | OcrLibrary/src/main/java/com/benjaminwan/ocrlibrary/config/ModelPathResolver.kt:179-186 | holds exactly when the addressed file (verbatim if absolute, under `filesDir/models/` if relative) exists and `canRead()` reports true |
| ModelPathResolver.CanLoadFromAssets | OcrLibrary/src/main/java/com/benjaminwan/ocrlibrary/config/ModelPathResolver.kt:195-205 | false for an absolute path; for a relative one, holds exactly when the named asset exists and opens |
| ModelPathResolver.CanLoadPath | OcrLibrary/src/main/java/com/benjaminwan/ocrlibrary/config/ModelPathResolver.kt:153-170 | a passing path passes the file check or the assets check; under FILE_ONLY or ASSETS_ONLY it passes exactly when that one source's check does |
| ModelPathResolver.CanLoadPathFollowsAttemptOrder | OcrLibrary/src/main/java/com/benjaminwan/ocrlibrary/config/ModelPathResolver.kt:153-170 | a path can be loaded exactly when some source in the strategy's attempt order can serve it |
| ModelPathResolver.AssetsNeverServeAbsolute | OcrLibrary/src/main/java/com/benjaminwan/ocrlibrary/config/ModelPathResolver.kt:195-199 | for an absolute path, no asset content affects `canLoadPath` |
| ModelPathResolver.ErrorMessage | OcrLibrary/src/main/java/com/benjaminwan/ocrlibrary/config/ModelPathResolver.kt:128 | every message starts with "Cannot load " followed by the full role label, and its first label letter identifies the role |
| ModelPathResolver.Failures | OcrLibrary/src/main/java/com/benjaminwan/ocrlibrary/config/ModelPathResolver.kt:121-134 | at most one message per role, and no message exactly when every listed role can be loaded |
| ModelPathResolver.FailuresStep | OcrLibrary/src/main/java/com/benjaminwan/ocrlibrary/config/ModelPathResolver.kt:126-134 | each role appends its own failure, if any, after those of the earlier roles |
| ModelPathResolver.FailuresInRoleOrder | OcrLibrary/src/main/java/com/benjaminwan/ocrlibrary/config/ModelPathResolver.kt:121-126 | the messages come in the order det, cls, rec, keys |
| ModelPathResolver.NoFailuresIffAllLoadable | OcrLibrary/src/main/java/com/benjaminwan/ocrlibrary/config/ModelPathResolver.kt:121-140 | no message exactly when every role can be loaded |
| ModelPathResolver.EveryRolePasses | OcrLibrary/src/main/java/com/benjaminwan/ocrlibrary/config/ModelPathResolver.kt:121-126 | every role passes exactly when the detector, classifier, recognizer and dictionary paths each pass |
| ModelPathResolver.Validate | OcrLibrary/src/main/java/com/benjaminwan/ocrlibrary/config/ModelPathResolver.kt:113-141 | Success exactly when every role can be loaded; otherwise a non-empty list with one message per failing role, in role order, none skipped |
| ModelLoader.FailureMessage | OcrLibrary/src/main/java/com/benjaminwan/ocrlibrary/ModelLoader.kt:41-94 | every load failure message starts with "Failed to load " and the artifact kind, and ends with the path |
| ModelLoader.OrElse | OcrLibrary/src/main/java/com/benjaminwan/ocrlibrary/ModelLoader.kt:40-46 | the second probe is used only when the first yields nothing |
| ModelLoader.TryLoadFromFile | OcrLibrary/src/main/java/com/benjaminwan/ocrlibrary/ModelLoader.kt:106-125 | yields bytes exactly when the addressed file (verbatim if absolute, under `filesDir/models/` if relative) exists and reads in full, and then yields that file's bytes; any failure gives None |
| ModelLoader.TryLoadFromAssets | OcrLibrary/src/main/java/com/benjaminwan/ocrlibrary/ModelLoader.kt:134-148 | None for an absolute path; for a relative one, yields bytes exactly when the asset exists and reads in full, and then yields its bytes |
| ModelLoader.TryLoadKeysFromFile | OcrLibrary/src/main/java/com/benjaminwan/ocrlibrary/ModelLoader.kt:157-176 | yields a reader exactly when the addressed file exists and opens; the reader reads what the byte probe would, so it exists whenever the byte probe yields bytes |
| ModelLoader.TryLoadKeysFromAssets | OcrLibrary/src/main/java/com/benjaminwan/ocrlibrary/ModelLoader.kt:185-199 | None for an absolute path; otherwise a reader exactly when the asset exists and opens, reading what the byte probe would |
| ModelLoader.FirstSome | OcrLibrary/src/main/java/com/benjaminwan/ocrlibrary/config/OcrLoadStrategy.kt:8-46 | a fallback chain: None exactly when every attempt yields nothing, otherwise the first attempt that yields something |
| ModelLoader.FirstAvailable | OcrLibrary/src/main/java/com/benjaminwan/ocrlibrary/config/OcrLoadStrategy.kt:8-46 | the content of the first source in the order that yields any, and None exactly when none does |
| ModelLoader.FirstReader | OcrLibrary/src/main/java/com/benjaminwan/ocrlibrary/config/OcrLoadStrategy.kt:8-46 | the reader of the first source in the order that opens, and None exactly when none does |
| ModelLoader.FirstSomeOfTwo | OcrLibrary/src/main/java/com/benjaminwan/ocrlibrary/ModelLoader.kt:38-47 | with two attempts, the chain is "first, else second" |
| ModelLoader.FirstSomeOfOne | OcrLibrary/src/main/java/com/benjaminwan/ocrlibrary/ModelLoader.kt:48-55 | with one attempt, only that attempt counts |
| ModelLoader.ByteChainsOfEachStrategy | OcrLibrary/src/main/java/com/benjaminwan/ocrlibrary/ModelLoader.kt:38-55 | each strategy's `when` branch for models equals the byte probes tried in its attempt order |
| ModelLoader.ReaderChainsOfEachStrategy | OcrLibrary/src/main/java/com/benjaminwan/ocrlibrary/ModelLoader.kt:78-95 | each strategy's `when` branch for keys equals the reader probes tried in its attempt order |
| ModelLoader.LoadModel | OcrLibrary/src/main/java/com/benjaminwan/ocrlibrary/ModelLoader.kt:30-57 | returns exactly when some source in the strategy's attempt order yields content, and returns the first such content; otherwise throws ModelLoadException with the strategy's message |
| ModelLoader.LoadKeys | OcrLibrary/src/main/java/com/benjaminwan/ocrlibrary/ModelLoader.kt:70-97 | returns exactly when some source in the strategy's attempt order opens, and returns the first such reader; otherwise throws ModelLoadException with the strategy's "keys" message |
| ModelLoader.KeysLoadWheneverModelLoads | OcrLibrary/src/main/java/com/benjaminwan/ocrlibrary/ModelLoader.kt:30-97 | whenever the model loader returns, the keys loader returns too; a keys reader that reads in full reads exactly what the model loader returns |
| ModelLoader.KeysMatchModelOnUniformEntries | OcrLibrary/src/main/java/com/benjaminwan/ocrlibrary/ModelLoader.kt:30-97 | on uniform entries, loading keys returns exactly when loading the model returns, with a reader over the same bytes |
| ModelLoader.LocalFileWinsUnderFileFirst | OcrLibrary/src/main/java/com/benjaminwan/ocrlibrary/ModelLoader.kt:38-42 | under FILE_FIRST, a readable local file is returned whatever the assets hold |
| ModelLoader.AssetWinsUnderAssetsFirst | OcrLibrary/src/main/java/com/benjaminwan/ocrlibrary/ModelLoader.kt:43-47 | under ASSETS_FIRST, an asset that reads in full is returned whatever the local files hold |
| ModelLoader.OnlyStrategiesIgnoreTheOtherStore | OcrLibrary/src/main/java/com/benjaminwan/ocrlibrary/ModelLoader.kt:48-55 | FILE_ONLY does not depend on the assets, and ASSETS_ONLY does not depend on the local files |
| ModelLoader.AbsolutePathIgnoresAssets | OcrLibrary/src/main/java/com/benjaminwan/ocrlibrary/ModelLoader.kt:134-139 | for an absolute path, the model loader and the keys loader each give the same outcome whatever the assets hold |
| ModelLoader.AbsolutePathFailsAssetsOnly | OcrLibrary/src/main/java/com/benjaminwan/ocrlibrary/ModelLoader.kt:134-139 | an absolute path under ASSETS_ONLY always throws the ASSETS_ONLY model message |
| ModelLoader.AssetOnlyArtifact | OcrLibrary/src/main/java/com/benjaminwan/ocrlibrary/ModelLoader.kt:38-55 | an artifact readable only in the assets: FILE_ONLY throws the FILE_ONLY message, and the other three strategies return the asset |
| ModelLoader.NothingAvailableFailsEverywhere | OcrLibrary/src/main/java/com/benjaminwan/ocrlibrary/ModelLoader.kt:30-97 | when neither source yields a reader, every strategy throws for models and keys alike |
| ModelLoader.LoadModelLegacy | OcrLibrary/src/main/java/com/benjaminwan/ocrlibrary/ModelLoader.kt:214-223 | throws only I/O errors; an existing file gives its bytes if it reads in full and an I/O error on that file otherwise; a missing file gives the asset's bytes, or an I/O error on the asset name |
| ModelLoader.LoadKeysLegacy | OcrLibrary/src/main/java/com/benjaminwan/ocrlibrary/ModelLoader.kt:236-245 | throws only I/O errors; an existing file gives a reader if it opens and an I/O error on that file otherwise; a missing file gives a reader on the asset if it opens, or an I/O error on the asset name; it returns a reader over the same bytes whenever the deprecated model loader returns, and throws the model loader's error whenever it throws |
| ModelLoader.LegacyAgreesWithFileFirst | OcrLibrary/src/main/java/com/benjaminwan/ocrlibrary/ModelLoader.kt:214-223 | whenever the deprecated loader succeeds, FILE_FIRST on the same relative name returns the same bytes |
| ModelLoader.LegacyDoesNotFallBackPastUnreadableFile | OcrLibrary/src/main/java/com/benjaminwan/ocrlibrary/ModelLoader.kt:214-223 | an existing but unreadable file makes the deprecated loader throw, where FILE_FIRST falls back to the asset |
| ResolveAndLoad.FileProbesImplyCheck | OcrLibrary/src/main/java/com/benjaminwan/ocrlibrary/config/ModelPathResolver.kt:179-186 | whenever either file probe yields something, the file check passes; on uniform entries `canLoadFromFile` holds exactly when each probe yields something |
| ResolveAndLoad.AssetsCheckMatchesReaderProbe | OcrLibrary/src/main/java/com/benjaminwan/ocrlibrary/config/ModelPathResolver.kt:195-205 | the assets check passes exactly when the reader probe yields a reader; a byte probe result implies it; on uniform entries it also matches the byte probe |
| ResolveAndLoad.LoadReturnsImpliesCanLoadPath | OcrLibrary/src/main/java/com/benjaminwan/ocrlibrary/config/ModelPathResolver.kt:153-170 | whenever loading a path as a model or as keys returns, the path passes `canLoadPath` under the same strategy |
| ResolveAndLoad.CanLoadPathIffLoadReturns | OcrLibrary/src/main/java/com/benjaminwan/ocrlibrary/config/ModelPathResolver.kt:153-170 | on uniform entries, a path passes `canLoadPath` exactly when loading it as a model, or as keys, returns under the same strategy |
| ResolveAndLoad.CheckPassesWhereReadFails | OcrLibrary/src/main/java/com/benjaminwan/ocrlibrary/config/ModelPathResolver.kt:179-186 | a local file that opens but whose read throws passes the FILE_ONLY check, yet the model loader throws and the keys loader returns a reader that cannot read |
| ResolveAndLoad.CheckPassesWhereOpenFails | OcrLibrary/src/main/java/com/benjaminwan/ocrlibrary/config/ModelPathResolver.kt:179-186 | a local file that passes `canRead()` but cannot be opened (a directory) passes the FILE_ONLY check, yet both loaders throw |
| ResolveAndLoad.AssetCheckPassesWhereReadFails | OcrLibrary/src/main/java/com/benjaminwan/ocrlibrary/config/ModelPathResolver.kt:195-205 | an asset that opens but whose read throws passes the ASSETS_ONLY check, yet the model loader throws |
| ResolveAndLoad.LoadingImpliesValidation | OcrLibrary/src/main/java/com/benjaminwan/ocrlibrary/config/ModelPathResolver.kt:113-141 | when all three models and the dictionary load, every role passes validation |
| ResolveAndLoad.ValidationImpliesLoading | OcrLibrary/src/main/java/com/benjaminwan/ocrlibrary/config/ModelPathResolver.kt:113-141 | on uniform entries, when every role's path passes, all three models and the dictionary load |
| ResolveAndLoad.ValidationPredictsLoading | OcrLibrary/src/main/java/com/benjaminwan/ocrlibrary/config/ModelPathResolver.kt:113-141 | on uniform entries, all roles pass validation exactly when all three models and the dictionary load |
| ResolveAndLoad.AbsoluteOverrideFailsAssetsOnly | OcrLibrary/src/main/java/com/benjaminwan/ocrlibrary/ModelLoader.kt:134-139 | a custom absolute override resolves verbatim as absolute, and under ASSETS_ONLY loading it throws |
| ResolveAndLoad.DefaultPathAddressesBothStores | OcrLibrary/src/main/java/com/benjaminwan/ocrlibrary/config/ModelPathResolver.kt:93-99 | a version default addresses `filesDir/models/<name>` locally and `<name>` in the assets, and the probes read exactly those |
| ResolveAndLoad.V3DefaultDetector | OcrLibrary/src/main/java/com/benjaminwan/ocrlibrary/OcrModelVersion.kt:15 | with no configuration, V3's detector resolves to its relative catalog name |
| ResolveAndLoad.BlankRecognizerOverride | OcrLibrary/src/main/java/com/benjaminwan/ocrlibrary/config/ModelPathResolver.kt:83 | an empty recognizer override falls back to the version's recognizer name |

## Left out

- Android's `Context`, `File` and `AssetManager` are not modelled. Stores are maps from names to entries in one of the four states above, and `filesDir` is a parameter.
- `java.io.File` path normalisation (`..`, duplicate slashes) is not modelled. Paths are compared as strings.
- Asset names are not constrained to be relative. A key such as "/x" in the asset map opens like any other, although the resolver never asks for it.
- A `java.lang.Error`, such as an `OutOfMemoryError` from `readBytes` on a file larger than an array can hold, escapes the probes, which catch only `Exception` (ModelLoader.kt:121, :144). The model has no size bound, so every read that can fail returns None.
- A `BufferedReader` is modelled by the bytes it reads, or by None when reading throws. Character decoding is not modelled.
- Logging (`Logger`) is left out, because it has no effect on results.
- `@Volatile` and concurrent access to `OcrConfigManager` are left out. The cell is modelled for a single thread.
- The three-tier merge with the global configuration lives in `OcrEngine`, which is not part of this model. GLOBAL_CONFIG is therefore never produced, and the resolver sees only the per-call configuration.
- `ModelDownloader`, `GalleryViewModel` and the preference store are not part of this model, beyond the "V3" default version name.
- `ModelLoadException` is folded into `LoadFailure` together with the I/O errors the deprecated loaders let through. Its cause chain is not kept.
- Whitespace for `isBlank` is the JVM's `Character.isWhitespace` or `isSpaceChar` set, written out as a fixed table of code points.
- A Kotlin DSL block is modelled as the sequence of builder calls it makes, in order.
- ResolveAndLoad.CanLoadPathIffLoadReturns: holds only on uniform entries. The direction that holds for every entry is `LoadReturnsImpliesCanLoadPath`.
- ResolveAndLoad.ValidationPredictsLoading: holds only on uniform entries. The direction that holds for every entry is `LoadingImpliesValidation`.
- ResolveAndLoad.ValidationImpliesLoading: holds only on uniform entries, as `CheckPassesWhereReadFails` and `CheckPassesWhereOpenFails` show.
- ModelLoader.KeysMatchModelOnUniformEntries: holds only on uniform entries. For every entry, `KeysLoadWheneverModelLoads` states the one direction that holds.
- ModelVersion.OcrModelVersion.DetUrl, ModelVersion.OcrModelVersion.RecUrl: the locators are constants with no stated property. They are used only by the downloader, which is not part of this model.
