/** The values the resolver produces and the validator returns. */
module ResolvedTypes {
  import opened Roles

  /** Which configuration tier produced a resolved path. */
  datatype PathSource = CustomConfig | GlobalConfig | VersionDefault

  /** One resolved path; `isAbsolute` is documented as "the path starts with `/`". */
  datatype ResolvedPath = ResolvedPath(path: string, isAbsolute: bool, source: PathSource)

  /** Exactly one resolved path per role; never partially populated. */
  datatype ResolvedPaths = ResolvedPaths(detPath: ResolvedPath, clsPath: ResolvedPath, recPath: ResolvedPath, keysPath: ResolvedPath) {

    /** The entry of one role. */
    function Get(role: Role): ResolvedPath {
      match role
      case Det => detPath
      case Cls => clsPath
      case Rec => recPath
      case Keys => keysPath
    }
  }

  /** `Success`, or `Error` holding the messages of the roles that failed. */
  datatype ValidationResult = Success | Error(errors: seq<string>)
}
