/**
 * The name guard both commands run before touching the filesystem:
 * `!name || name.trim() == ""`. A name is an optional string (the command
 * line argument may be missing); `trim` is ECMAScript's String.prototype.trim.
 */
module Names {
  import opened Wrappers

  /** The characters `trim` strips: ECMAScript WhiteSpace and LineTerminator code points. */
  predicate IsTrimmable(c: char) {
    || c == '\t' || c == '\n' || c == '\U{000B}' || c == '\U{000C}' || c == '\r'
    || c == ' ' || c == '\U{00A0}' || c == '\U{1680}'
    || ('\U{2000}' <= c <= '\U{200A}')
    || c == '\U{2028}' || c == '\U{2029}' || c == '\U{202F}' || c == '\U{205F}'
    || c == '\U{3000}' || c == '\U{FEFF}'
  }

  /** Drops the trimmable prefix: the result is a suffix of `s` that starts with a kept character. */
  function TrimStart(s: string): (r: string)
    ensures |r| <= |s| && r == s[|s| - |r|..]
    ensures forall i :: 0 <= i < |s| - |r| ==> IsTrimmable(s[i])
    ensures r != [] ==> !IsTrimmable(r[0])
  {
    if s != [] && IsTrimmable(s[0]) then TrimStart(s[1..]) else s
  }

  /** Drops the trimmable suffix: the result is a prefix of `s` that ends with a kept character. */
  function TrimEnd(s: string): (r: string)
    ensures |r| <= |s| && r == s[..|r|]
    ensures forall i :: |r| <= i < |s| ==> IsTrimmable(s[i])
    ensures r != [] ==> !IsTrimmable(r[|r| - 1])
  {
    if s != [] && IsTrimmable(s[|s| - 1]) then TrimEnd(s[..|s| - 1]) else s
  }

  /** String.prototype.trim: both ends stripped, so a non-empty result starts and ends with a kept character. */
  function Trim(s: string): (r: string)
    ensures |r| <= |s|
    ensures r != [] ==> !IsTrimmable(r[0]) && !IsTrimmable(r[|r| - 1])
  {
    TrimEnd(TrimStart(s))
  }

  /**
   * The guard's condition: the name is missing, empty, or empty once trimmed;
   * that is, a present name is refused exactly when every one of its
   * characters is trimmable.
   */
  predicate IsMissingOrBlank(name: Option<string>): (r: bool)
    ensures r <==> name.None? || forall i :: 0 <= i < |name.value| ==> IsTrimmable(name.value[i])
  {
    name.None? || name.value == "" || Trim(name.value) == ""
  }
}
