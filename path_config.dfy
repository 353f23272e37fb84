/** Per-role path overrides and the builder that assembles them. */
module PathConfig {
  import opened Wrappers
  import opened PathText
  import opened Roles
  import opened ModelVersion

  /** One optional path per role; `None` is Kotlin's `null`. */
  datatype OcrPathConfig = OcrPathConfig(
    detModelPath: Option<string>,
    clsModelPath: Option<string>,
    recModelPath: Option<string>,
    keysPath: Option<string>)
  {
    /** The override of one role. */
    function Get(role: Role): Option<string> {
      match role
      case Det => detModelPath
      case Cls => clsModelPath
      case Rec => recModelPath
      case Keys => keysPath
    }

    /** This configuration with the path of `role` replaced; the other three roles keep theirs. */
    function With(role: Role, path: string): (c: OcrPathConfig)
      ensures c.Get(role) == Some(path)
      ensures forall r :: r != role ==> c.Get(r) == Get(r)
    {
      match role
      case Det => this.(detModelPath := Some(path))
      case Cls => this.(clsModelPath := Some(path))
      case Rec => this.(recModelPath := Some(path))
      case Keys => this.(keysPath := Some(path))
    }
  }

  /** `OcrPathConfig()`: every path `null`. */
  const Empty: OcrPathConfig := OcrPathConfig(None, None, None, None)

  /** One call made on a builder: a single-role setter, `allPaths` or `fromVersion`. */
  datatype PathConfigOp =
    | SetPath(role: Role, path: string)
    | AllPaths(baseDir: string, detName: string, clsName: string, recName: string, keysName: string)
    | FromVersion(baseDir: string, version: OcrModelVersion)

  /** The roles an operation writes: its own role for a setter, all four otherwise. */
  predicate Touches(op: PathConfigOp, role: Role) {
    !op.SetPath? || op.role == role
  }

  /** Every role set to its file name under `baseDir` (trailing `/` removed). */
  function AllPathsConfig(baseDir: string, detName: string, clsName: string, recName: string, keysName: string): OcrPathConfig {
    OcrPathConfig(Some(JoinPath(baseDir, detName)), Some(JoinPath(baseDir, clsName)),
                  Some(JoinPath(baseDir, recName)), Some(JoinPath(baseDir, keysName)))
  }

  /** The configuration after one builder call, on values. */
  function ApplyOp(c: OcrPathConfig, op: PathConfigOp): OcrPathConfig {
    match op
    case SetPath(role, path) => c.With(role, path)
    case AllPaths(baseDir, d, cl, r, k) => AllPathsConfig(baseDir, d, cl, r, k)
    case FromVersion(baseDir, v) =>
      AllPathsConfig(TrimEndSlash(baseDir), v.DetModelName(), v.ClsModelName(), v.RecModelName(), v.KeysName())
  }

  /** The configuration after a sequence of builder calls, in call order. */
  function ApplyOps(c: OcrPathConfig, ops: seq<PathConfigOp>): OcrPathConfig
    decreases |ops|
  {
    if ops == [] then c else ApplyOp(ApplyOps(c, ops[..|ops| - 1]), ops[|ops| - 1])
  }

  /** Calls that do not write `role` leave its path as it was. */
  lemma {:induction false} UntouchedRoleKept(c: OcrPathConfig, ops: seq<PathConfigOp>, role: Role)
    requires forall i :: 0 <= i < |ops| ==> !Touches(ops[i], role)
    ensures ApplyOps(c, ops).Get(role) == c.Get(role)
    decreases |ops|
  {
    if ops != [] {
      UntouchedRoleKept(c, ops[..|ops| - 1], role);
    }
  }

  /** Applying `before` then `after` is applying their concatenation. */
  lemma {:induction false} ApplyOpsAppend(c: OcrPathConfig, before: seq<PathConfigOp>, after: seq<PathConfigOp>)
    ensures ApplyOps(c, before + after) == ApplyOps(ApplyOps(c, before), after)
    decreases |after|
  {
    if after == [] {
      assert before + after == before;
    } else {
      assert (before + after)[..|before + after| - 1] == before + after[..|after| - 1];
      ApplyOpsAppend(c, before, after[..|after| - 1]);
    }
  }

  /**
   * Last write wins: after `SetPath(role, p)`, the role keeps `p` until a later
   * call writes that role again.
   */
  lemma {:induction false} LastWriteWins(c: OcrPathConfig, before: seq<PathConfigOp>, role: Role, p: string, after: seq<PathConfigOp>)
    requires forall i :: 0 <= i < |after| ==> !Touches(after[i], role)
    ensures ApplyOps(c, before + [SetPath(role, p)] + after).Get(role) == Some(p)
  {
    ApplyOpsAppend(c, before + [SetPath(role, p)], after);
    ApplyOpsAppend(c, before, [SetPath(role, p)]);
    assert ApplyOps(ApplyOps(c, before), [SetPath(role, p)]).Get(role) == Some(p) by {
      assert [SetPath(role, p)][..0] == [];
    }
    UntouchedRoleKept(ApplyOps(c, before + [SetPath(role, p)]), after, role);
  }

  /** A single-role setter changes its own role only. */
  lemma SetterChangesOnlyItsRole(c: OcrPathConfig, role: Role, p: string, other: Role)
    ensures ApplyOp(c, SetPath(role, p)).Get(role) == Some(p)
    ensures other != role ==> ApplyOp(c, SetPath(role, p)).Get(other) == c.Get(other)
  {
  }

  /** `allPaths` overwrites every role, whatever was set before. */
  lemma AllPathsOverwrites(c: OcrPathConfig, baseDir: string, d: string, cl: string, r: string, k: string)
    ensures ApplyOp(c, AllPaths(baseDir, d, cl, r, k)) == ApplyOp(Empty, AllPaths(baseDir, d, cl, r, k))
    ensures ApplyOp(c, AllPaths(baseDir, d, cl, r, k)).Get(Det) == Some(TrimEndSlash(baseDir) + "/" + d)
    ensures ApplyOp(c, AllPaths(baseDir, d, cl, r, k)).Get(Keys) == Some(TrimEndSlash(baseDir) + "/" + k)
  {
  }

  /** `allPaths("x/", …)` and `allPaths("x", …)` build the same configuration. */
  lemma {:induction false} AllPathsIgnoresTrailingSlash(c: OcrPathConfig, baseDir: string, d: string, cl: string, r: string, k: string)
    ensures ApplyOp(c, AllPaths(baseDir + "/", d, cl, r, k)) == ApplyOp(c, AllPaths(baseDir, d, cl, r, k))
  {
    TrimEndSlashIgnoresTrailingSlash(baseDir);
  }

  /** `fromVersion(base, v)` is `allPaths` with the version's four file names; trimming twice is harmless. */
  lemma {:induction false} FromVersionIsAllPaths(c: OcrPathConfig, baseDir: string, v: OcrModelVersion)
    ensures ApplyOp(c, FromVersion(baseDir, v))
         == ApplyOp(c, AllPaths(baseDir, v.DetModelName(), v.ClsModelName(), v.RecModelName(), v.KeysName()))
  {
    TrimEndSlashIdempotent(baseDir);
  }

  /** A path builder: four mutable optional paths, each setter returning the builder for chaining. */
  class Builder {
    var detModelPath: Option<string>
    var clsModelPath: Option<string>
    var recModelPath: Option<string>
    var keysPath: Option<string>

    /** A fresh builder has no path set. */
    constructor ()
      ensures Build() == Empty
    {
      detModelPath, clsModelPath, recModelPath, keysPath := None, None, None, None;
    }

    /** `build()`: the record holds exactly the four current fields. */
    function Build(): (c: OcrPathConfig)
      reads this
      ensures c.Get(Det) == detModelPath && c.Get(Cls) == clsModelPath
      ensures c.Get(Rec) == recModelPath && c.Get(Keys) == keysPath
    {
      OcrPathConfig(detModelPath, clsModelPath, recModelPath, keysPath)
    }

    method DetModelPath(path: string) returns (self: Builder)
      modifies this
      ensures self == this
      ensures Build() == ApplyOp(old(Build()), SetPath(Det, path))
    {
      detModelPath := Some(path);
      self := this;
    }

    method ClsModelPath(path: string) returns (self: Builder)
      modifies this
      ensures self == this
      ensures Build() == ApplyOp(old(Build()), SetPath(Cls, path))
    {
      clsModelPath := Some(path);
      self := this;
    }

    method RecModelPath(path: string) returns (self: Builder)
      modifies this
      ensures self == this
      ensures Build() == ApplyOp(old(Build()), SetPath(Rec, path))
    {
      recModelPath := Some(path);
      self := this;
    }

    method KeysPath(path: string) returns (self: Builder)
      modifies this
      ensures self == this
      ensures Build() == ApplyOp(old(Build()), SetPath(Keys, path))
    {
      keysPath := Some(path);
      self := this;
    }

    /** `allPaths`: every role becomes `"$base/$name"` with `base = baseDir.trimEnd('/')`. */
    method AllPaths(baseDir: string, detName: string, clsName: string, recName: string, keysName: string) returns (self: Builder)
      modifies this
      ensures self == this
      ensures Build() == ApplyOp(old(Build()), PathConfigOp.AllPaths(baseDir, detName, clsName, recName, keysName))
    {
      var base := TrimEndSlash(baseDir);
      detModelPath := Some(base + "/" + detName);
      clsModelPath := Some(base + "/" + clsName);
      recModelPath := Some(base + "/" + recName);
      keysPath := Some(base + "/" + keysName);
      self := this;
    }

    /** `fromVersion`: trims the base, then calls `allPaths` with the version's file names. */
    method FromVersion(baseDir: string, version: OcrModelVersion) returns (self: Builder)
      modifies this
      ensures self == this
      ensures Build() == ApplyOp(old(Build()), PathConfigOp.FromVersion(baseDir, version))
    {
      var base := TrimEndSlash(baseDir);
      self := AllPaths(base, version.DetModelName(), version.ClsModelName(), version.RecModelName(), version.KeysName());
    }

    /** Performs one builder call. */
    method Perform(op: PathConfigOp)
      modifies this
      ensures Build() == ApplyOp(old(Build()), op)
    {
      var self: Builder;
      match op
      case SetPath(role, path) =>
        match role {
          case Det => self := DetModelPath(path);
          case Cls => self := ClsModelPath(path);
          case Rec => self := RecModelPath(path);
          case Keys => self := KeysPath(path);
        }
      case AllPaths(baseDir, d, cl, r, k) => self := AllPaths(baseDir, d, cl, r, k);
      case FromVersion(baseDir, v) => self := FromVersion(baseDir, v);
    }

    /** `apply(block)`: runs the calls of a configuration block on this builder, in order. */
    method Apply(block: seq<PathConfigOp>)
      modifies this
      ensures Build() == ApplyOps(old(Build()), block)
    {
      for i := 0 to |block|
        invariant Build() == ApplyOps(old(Build()), block[..i])
      {
        assert block[..i + 1][..i] == block[..i];
        Perform(block[i]);
      }
      assert block[..|block|] == block;
    }
  }

  /** `OcrPathConfig.builder().apply(block).build()`. */
  method BuildFromBlock(block: seq<PathConfigOp>) returns (c: OcrPathConfig)
    ensures c == ApplyOps(Empty, block)
  {
    var b := new Builder();
    b.Apply(block);
    c := b.Build();
  }
}
