/**
 * The two storage backends, as finite maps. The local file store is keyed by the
 * full file path; the bundled assets are keyed by a relative name. Each entry
 * records what the three kinds of access see of it: the accessibility check
 * (`File.canRead()`), opening a stream, and reading the stream to the end.
 */
module Storage {
  import opened Wrappers
  import opened ResolvedTypes

  type byte = bv8

  /**
   * One name in a store.
   * - `Readable`: opens and reads in full.
   * - `ReadFails`: opens, but reading its bytes throws (an I/O error after the open).
   * - `OpenFails`: exists, but opening a stream throws. `canRead` is what
   *   `File.canRead()` reports: true for a directory, false for a file without
   *   read permission. For an asset it plays no part.
   */
  datatype Entry =
    | Readable(content: seq<byte>)
    | ReadFails
    | OpenFails(canRead: bool)
  {
    /** `File.canRead()`: every entry that can be opened is readable by permission. */
    predicate CanRead() {
      !OpenFails? || canRead
    }

    /** Opening a stream on the entry succeeds. */
    predicate Opens() {
      !OpenFails?
    }

    /** Opening and reading agree: the entry reads in full, or it cannot be opened at all. */
    predicate ReadsWhenOpened() {
      Readable? || OpenFails?
    }

    /** Checking and reading agree: the entry reads in full, or it is refused before it is opened. */
    predicate Uniform() {
      Readable? || this == OpenFails(false)
    }
  }

  /** A reader over an opened entry; `text` is what reading it to the end yields, `None` when that throws. */
  datatype BufferedReader = BufferedReader(text: Option<seq<byte>>)

  /** What the loader sees of an Android `Context`: its `filesDir` and both stores. */
  datatype Context = Context(filesDir: string, files: map<string, Entry>, assets: map<string, Entry>)

  /** `File(filesDir, "models/<name>")`. */
  function ModelsDirFile(filesDir: string, name: string): string {
    filesDir + "/models/" + name
  }

  /** The local file a resolved path names: the path itself when absolute, under `filesDir/models/` otherwise. */
  function FileFor(filesDir: string, rp: ResolvedPath): string {
    if rp.isAbsolute then rp.path else ModelsDirFile(filesDir, rp.path)
  }

  /** Distinct relative paths name distinct files, and so do distinct absolute ones: no two artifacts share a file. */
  lemma {:induction false} DistinctPathsDistinctFiles(filesDir: string, rp1: ResolvedPath, rp2: ResolvedPath)
    requires rp1.isAbsolute == rp2.isAbsolute && rp1.path != rp2.path
    ensures FileFor(filesDir, rp1) != FileFor(filesDir, rp2)
  {
    if !rp1.isAbsolute {
      var prefix := filesDir + "/models/";
      assert FileFor(filesDir, rp1)[|prefix|..] == rp1.path;
      assert FileFor(filesDir, rp2)[|prefix|..] == rp2.path;
    }
  }

  /** `readBytes()` on a stream opened on the entry, with a failure swallowed into `None`. */
  function ReadBytes(e: Entry): Option<seq<byte>> {
    if e.Readable? then Some(e.content) else None
  }

  /** `bufferedReader()`: a reader when the entry opens, `None` when opening throws. */
  function OpenReader(e: Entry): Option<BufferedReader> {
    if e.Opens() then Some(BufferedReader(ReadBytes(e))) else None
  }

  /**
   * A reader reads what `readBytes` reads; an entry that reads opens and passes
   * `canRead()`; on a uniform entry `canRead()`, the open and the read all agree,
   * and on an entry that reads when opened, the open and the read agree.
   */
  lemma ReaderReadsTheSameBytes(e: Entry)
    ensures OpenReader(e).Some? ==> OpenReader(e).value.text == ReadBytes(e)
    ensures ReadBytes(e).Some? ==> OpenReader(e).Some? && e.CanRead()
    ensures e.Uniform() ==> (e.CanRead() <==> ReadBytes(e).Some?) && (e.Opens() <==> ReadBytes(e).Some?)
    ensures e.ReadsWhenOpened() ==> (e.Opens() <==> ReadBytes(e).Some?)
  {
  }

  /** `file.exists()`. */
  predicate FileExists(ctx: Context, file: string) {
    file in ctx.files
  }

  /** `file.readBytes()` on an existing file, every failure swallowed into `None`. */
  function ReadFile(ctx: Context, file: string): Option<seq<byte>> {
    if file in ctx.files then ReadBytes(ctx.files[file]) else None
  }

  /** `file.bufferedReader()` on an existing file, every failure swallowed into `None`. */
  function OpenFile(ctx: Context, file: string): Option<BufferedReader> {
    if file in ctx.files then OpenReader(ctx.files[file]) else None
  }

  /** `assets.open(name).readBytes()`, every failure swallowed into `None`. */
  function ReadAsset(ctx: Context, name: string): Option<seq<byte>> {
    if name in ctx.assets then ReadBytes(ctx.assets[name]) else None
  }

  /** `assets.open(name).bufferedReader()`, every failure swallowed into `None`. */
  function OpenAsset(ctx: Context, name: string): Option<BufferedReader> {
    if name in ctx.assets then OpenReader(ctx.assets[name]) else None
  }

  /**
   * The entries a resolved path can reach behave alike under checking and
   * loading: its local file is uniform, and its asset, when it is relative,
   * reads whenever it opens (the assets check only opens, so `canRead` plays no part).
   */
  predicate UniformAt(ctx: Context, rp: ResolvedPath) {
    && (FileFor(ctx.filesDir, rp) in ctx.files ==> ctx.files[FileFor(ctx.filesDir, rp)].Uniform())
    && (!rp.isAbsolute && rp.path in ctx.assets ==> ctx.assets[rp.path].ReadsWhenOpened())
  }
}
