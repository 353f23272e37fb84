/** The process-wide default configuration cell. */
module ConfigManager {
  import opened Wrappers
  import opened Config

  class OcrConfigManager {
    var globalConfig: Option<OcrConfig>

    /** Initially no global configuration is set. */
    constructor ()
      ensures globalConfig == None
    {
      globalConfig := None;
    }

    /** `setGlobalConfig`: replaces whatever was set before. */
    method SetGlobalConfig(config: OcrConfig)
      modifies this
      ensures globalConfig == Some(config)
    {
      globalConfig := Some(config);
    }

    /** `getGlobalConfig`: the current value, `None` when unset. */
    method GetGlobalConfig() returns (config: Option<OcrConfig>)
      ensures config == globalConfig
    {
      config := globalConfig;
    }

    /** `clearGlobalConfig`. */
    method ClearGlobalConfig()
      modifies this
      ensures globalConfig == None
    {
      globalConfig := None;
    }

    /** `hasGlobalConfig`: true exactly when `getGlobalConfig` would return a value. */
    method HasGlobalConfig() returns (has: bool)
      ensures has <==> globalConfig.Some?
    {
      has := globalConfig.Some?;
    }
  }

  /** A run of the cell: unset at first, last write wins, cleared afterwards. */
  method LastWriteWins(c1: OcrConfig, c2: OcrConfig) returns (first: Option<OcrConfig>, afterSets: Option<OcrConfig>, afterClear: Option<OcrConfig>, hasAfterClear: bool)
    ensures first == None
    ensures afterSets == Some(c2)
    ensures afterClear == None && !hasAfterClear
  {
    var m := new OcrConfigManager();
    first := m.GetGlobalConfig();
    m.SetGlobalConfig(c1);
    m.SetGlobalConfig(c2);
    afterSets := m.GetGlobalConfig();
    m.ClearGlobalConfig();
    afterClear := m.GetGlobalConfig();
    hasAfterClear := m.HasGlobalConfig();
  }
}
