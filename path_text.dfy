/** The string operations the path configuration and the resolver rely on. */
module PathText {

  /**
   * Kotlin's `Char.isWhitespace()` on the JVM: `Character.isWhitespace(c) ||
   * Character.isSpaceChar(c)`, written out as the table of code points it accepts.
   */
  predicate IsWs(c: char) {
    || c == '\t' || c == '\n' || c == '\U{000B}' || c == '\U{000C}' || c == '\r'
    || ('\U{001C}' <= c <= '\U{001F}')
    || c == ' ' || c == '\U{00A0}' || c == '\U{1680}'
    || ('\U{2000}' <= c <= '\U{200A}')
    || c == '\U{2028}' || c == '\U{2029}' || c == '\U{202F}' || c == '\U{205F}' || c == '\U{3000}'
  }

  /** `isBlank()`: empty, or whitespace only. */
  predicate IsBlank(s: string) {
    forall i :: 0 <= i < |s| ==> IsWs(s[i])
  }

  /** `startsWith("/")`. */
  predicate StartsWithSlash(s: string) {
    |s| > 0 && s[0] == '/'
  }

  /** A string that starts with the root separator is never blank. */
  lemma SlashIsNotBlank(s: string)
    requires StartsWithSlash(s)
    ensures !IsBlank(s)
  {
    assert !IsWs(s[0]);
  }

  /**
   * `trimEnd('/')`: drops every trailing `/`. The result is a prefix of `s`, it
   * does not end with `/`, and what was removed consists of `/` only.
   */
  function TrimEndSlash(s: string): (r: string)
    ensures |r| <= |s| && r == s[..|r|]
    ensures r == [] || r[|r| - 1] != '/'
    ensures forall i :: |r| <= i < |s| ==> s[i] == '/'
    decreases |s|
  {
    if |s| > 0 && s[|s| - 1] == '/' then TrimEndSlash(s[..|s| - 1]) else s
  }

  /** Trimming twice is trimming once. */
  lemma TrimEndSlashIdempotent(s: string)
    ensures TrimEndSlash(TrimEndSlash(s)) == TrimEndSlash(s)
  {
  }

  /** A trailing `/` makes no difference to the trimmed base. */
  lemma {:induction false} TrimEndSlashIgnoresTrailingSlash(s: string)
    ensures TrimEndSlash(s + "/") == TrimEndSlash(s)
  {
    assert (s + "/")[..|s|] == s;
  }

  /** `"$base/$name"` where `base = baseDir.trimEnd('/')`. */
  function JoinPath(baseDir: string, name: string): (r: string)
    ensures |r| > |name| && r[|r| - |name|..] == name && r[|r| - |name| - 1] == '/'
    ensures var base := r[..|r| - |name| - 1]; base == [] || base[|base| - 1] != '/'
  {
    TrimEndSlash(baseDir) + "/" + name
  }

  /** Joining under an already trimmed base gives the same path. */
  lemma {:induction false} JoinPathTrimmedBase(baseDir: string, name: string)
    ensures JoinPath(TrimEndSlash(baseDir), name) == JoinPath(baseDir, name)
  {
    TrimEndSlashIdempotent(baseDir);
  }

  /**
   * A joined path is absolute exactly when the base is, or when the base
   * consists of slashes only (the empty base included): `"" + "/" + name`.
   */
  lemma {:induction false} JoinPathAbsoluteIff(baseDir: string, name: string)
    ensures StartsWithSlash(JoinPath(baseDir, name)) <==> (StartsWithSlash(baseDir) || TrimEndSlash(baseDir) == [])
  {
    var t := TrimEndSlash(baseDir);
    if t != [] {
      assert JoinPath(baseDir, name)[0] == t[0] == baseDir[0];
    } else if |baseDir| > 0 {
      assert baseDir[0] == '/';
    }
  }
}
