/** The four loading strategies and the order of sources each one documents. */
module LoadStrategy {

  /** The two storage backends a strategy can consult. */
  datatype Source = LocalFiles | Assets

  datatype OcrLoadStrategy = FileFirst | AssetsFirst | FileOnly | AssetsOnly {

    /** The enum constant's name, as it appears in messages. */
    function Name(): string {
      match this
      case FileFirst => "FILE_FIRST"
      case AssetsFirst => "ASSETS_FIRST"
      case FileOnly => "FILE_ONLY"
      case AssetsOnly => "ASSETS_ONLY"
    }

    /**
     * The documented attempt order: `filesDir/models/<name>` then `assets/<name>`
     * for FILE_FIRST, the reverse for ASSETS_FIRST, one source for the `_ONLY`
     * strategies. No source is tried twice.
     */
    function AttemptOrder(): (order: seq<Source>)
      ensures 1 <= |order| <= 2
      ensures |order| == 2 ==> order[0] != order[1]
      ensures |order| == 2 <==> this.AllowsFallback()
    {
      match this
      case FileFirst => [LocalFiles, Assets]
      case AssetsFirst => [Assets, LocalFiles]
      case FileOnly => [LocalFiles]
      case AssetsOnly => [Assets]
    }

    /** FILE_FIRST and ASSETS_FIRST fall back to the other source; the `_ONLY` ones do not. */
    predicate AllowsFallback() {
      FileFirst? || AssetsFirst?
    }
  }

  /** The documented default strategy. */
  const DefaultStrategy: OcrLoadStrategy := FileFirst

  /** Strategy names are pairwise distinct, so a message names its strategy unambiguously. */
  lemma NamesDistinct(s: OcrLoadStrategy, t: OcrLoadStrategy)
    ensures s.Name() == t.Name() <==> s == t
  {
  }

  /** An `_ONLY` strategy consults one source, and which one is in its name. */
  lemma OnlyStrategiesUseOneSource()
    ensures FileOnly.AttemptOrder() == [LocalFiles]
    ensures AssetsOnly.AttemptOrder() == [Assets]
    ensures FileFirst.AttemptOrder()[0] == LocalFiles && AssetsFirst.AttemptOrder()[0] == Assets
  {
  }
}
