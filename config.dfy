/** The top-level configuration: optional path overrides and a loading strategy. */
module Config {
  import opened Wrappers
  import opened LoadStrategy
  import PathConfig

  datatype OcrConfig = OcrConfig(pathConfig: Option<PathConfig.OcrPathConfig>, loadStrategy: OcrLoadStrategy)

  /** `OcrConfig()`: no path overrides, strategy FILE_FIRST. */
  const Default: OcrConfig := OcrConfig(None, DefaultStrategy)

  /** A configuration builder with chained setters. */
  class Builder {
    var pathConfig: Option<PathConfig.OcrPathConfig>
    var loadStrategy: OcrLoadStrategy

    /** A fresh builder holds the record's defaults. */
    constructor ()
      ensures Build() == Default
    {
      pathConfig, loadStrategy := None, FileFirst;
    }

    /** `build()`: exactly the current path configuration and strategy. */
    function Build(): (c: OcrConfig)
      reads this
      ensures c.pathConfig == pathConfig && c.loadStrategy == loadStrategy
    {
      OcrConfig(pathConfig, loadStrategy)
    }

    /** `pathConfig(pathConfig)`: replaces the path configuration only. */
    method SetPathConfig(pc: PathConfig.OcrPathConfig) returns (self: Builder)
      modifies this
      ensures self == this
      ensures pathConfig == Some(pc) && loadStrategy == old(loadStrategy)
    {
      pathConfig := Some(pc);
      self := this;
    }

    /** `pathConfig { block }`: the block runs on a fresh path builder, whose result replaces the path configuration. */
    method PathConfigBlock(block: seq<PathConfig.PathConfigOp>) returns (self: Builder)
      modifies this
      ensures self == this
      ensures pathConfig == Some(PathConfig.ApplyOps(PathConfig.Empty, block)) && loadStrategy == old(loadStrategy)
    {
      var pc := PathConfig.BuildFromBlock(block);
      pathConfig := Some(pc);
      self := this;
    }

    /** `loadStrategy(strategy)`: replaces the strategy only. */
    method SetLoadStrategy(strategy: OcrLoadStrategy) returns (self: Builder)
      modifies this
      ensures self == this
      ensures loadStrategy == strategy && pathConfig == old(pathConfig)
    {
      loadStrategy := strategy;
      self := this;
    }
  }

  /** The builder and the record agree on the defaults: a fresh builder builds `OcrConfig()`. */
  method BuildDefault() returns (c: OcrConfig)
    ensures c == Default && c.loadStrategy == FileFirst && c.pathConfig.None?
  {
    var b := new Builder();
    c := b.Build();
  }

  /**
   * The call sequence strategy `s1`, paths `pc1`, strategy `s2`, paths `pc2`:
   * the last call of each kind wins, and the two kinds do not interfere.
   */
  method BuildWith(pc1: PathConfig.OcrPathConfig, s1: OcrLoadStrategy, pc2: PathConfig.OcrPathConfig, s2: OcrLoadStrategy)
    returns (c: OcrConfig)
    ensures c == OcrConfig(Some(pc2), s2)
  {
    var b := new Builder();
    var _ := b.SetLoadStrategy(s1);
    var _ := b.SetPathConfig(pc1);
    var _ := b.SetLoadStrategy(s2);
    var _ := b.SetPathConfig(pc2);
    c := b.Build();
  }
}
