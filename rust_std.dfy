/**
 * The parts of the Rust standard library that the region reconciler relies on:
 * `Option`, `str::starts_with`, `str::trim` and `Path::file_name`.
 *
 * `str::trim` is modelled exactly over the Unicode `White_Space` property.
 * `Path::file_name` is modelled for Unix-style paths: the path is split at
 * every `/`, empty components and `.` components are dropped, and the file
 * name is the last remaining component unless it is `..`.
 */
module RustStd {

  datatype Option<T> = None | Some(value: T) {

    /** `Option::unwrap_or` */
    function UnwrapOr(default: T): T {
      match this
      case Some(v) => v
      case None => default
    }

    /** `Option::or`: this value when there is one, otherwise `other` */
    function Or(other: Option<T>): Option<T> {
      if Some? then this else other
    }
  }

  /** `str::starts_with` with a string pattern */
  predicate StartsWith(s: string, prefix: string) {
    prefix <= s
  }

  // ---------------------------------------------------------------------------
  // str::trim
  // ---------------------------------------------------------------------------

  /** `char::is_whitespace`: the characters with the Unicode `White_Space` property */
  predicate IsWhitespace(c: char) {
    || ('\t' <= c <= '\r')
    || c == ' '
    || c == '\U{85}'
    || c == '\U{A0}'
    || c == '\U{1680}'
    || ('\U{2000}' <= c <= '\U{200A}')
    || c == '\U{2028}'
    || c == '\U{2029}'
    || c == '\U{202F}'
    || c == '\U{205F}'
    || c == '\U{3000}'
  }

  /** `str::trim_start`: the longest suffix of `s` that does not start with whitespace */
  function TrimStart(s: string): (r: string)
    ensures |r| <= |s| && r == s[|s| - |r|..]
    ensures forall k :: 0 <= k < |s| - |r| ==> IsWhitespace(s[k])
    ensures r != [] ==> !IsWhitespace(r[0])
  {
    if s != [] && IsWhitespace(s[0]) then TrimStart(s[1..]) else s
  }

  /** `str::trim_end`: the longest prefix of `s` that does not end with whitespace */
  function TrimEnd(s: string): (r: string)
    ensures |r| <= |s| && r == s[..|r|]
    ensures forall k :: |r| <= k < |s| ==> IsWhitespace(s[k])
    ensures r != [] ==> !IsWhitespace(r[|r| - 1])
  {
    if s != [] && IsWhitespace(s[|s| - 1]) then TrimEnd(s[..|s| - 1]) else s
  }

  /** `str::trim`: `s` without its leading and trailing whitespace */
  function Trim(s: string): (r: string)
    ensures |r| <= |s|
    ensures r != [] ==> !IsWhitespace(r[0]) && !IsWhitespace(r[|r| - 1])
  {
    TrimEnd(TrimStart(s))
  }

  /**
   * The trimmed string is the slice of `s` that starts after the leading
   * whitespace, and everything of `s` outside that slice is whitespace.
   */
  lemma TrimSlice(s: string)
    ensures var r, start := Trim(s), |s| - |TrimStart(s)|;
      && start + |r| <= |s|
      && r == s[start..start + |r|]
      && (forall k :: 0 <= k < start ==> IsWhitespace(s[k]))
      && (forall k :: start + |r| <= k < |s| ==> IsWhitespace(s[k]))
  {
    var t := TrimStart(s);
    var r := TrimEnd(t);
    var start := |s| - |t|;
    assert t == s[start..];
    forall k | start + |r| <= k < |s|
      ensures IsWhitespace(s[k])
    {
      assert s[k] == t[k - start];
    }
  }

  /** Trimming a string that has no whitespace at either end gives it back. */
  lemma TrimOfTrimmed(s: string)
    requires s != [] ==> !IsWhitespace(s[0]) && !IsWhitespace(s[|s| - 1])
    ensures Trim(s) == s
  {
    assert TrimStart(s) == s;
    assert TrimEnd(s) == s;
  }

  // ---------------------------------------------------------------------------
  // Path::file_name
  // ---------------------------------------------------------------------------

  /** The index of the last `c` in `s`, or -1 when there is none. */
  function LastIndexOf(s: string, c: char): (i: int)
    ensures -1 <= i < |s|
    ensures 0 <= i ==> s[i] == c
    ensures forall k :: i < k < |s| ==> s[k] != c
  {
    if s == [] then -1
    else if s[|s| - 1] == c then |s| - 1
    else LastIndexOf(s[..|s| - 1], c)
  }

  /** The pieces of `p` between the `/` separators, in order. */
  function Split(p: string): (parts: seq<string>)
    ensures |parts| >= 1
    ensures forall k :: 0 <= k < |parts| ==> '/' !in parts[k]
    decreases |p|
  {
    var i := LastIndexOf(p, '/');
    if i < 0 then [p] else Split(p[..i]) + [p[i + 1..]]
  }

  /** The pieces joined back together with `/` between them. */
  function Join(parts: seq<string>): string
    requires |parts| >= 1
  {
    if |parts| == 1 then parts[0] else Join(parts[..|parts| - 1]) + "/" + parts[|parts| - 1]
  }

  /** Splitting a path at its separators loses nothing. */
  lemma {:induction false} JoinSplit(p: string)
    ensures Join(Split(p)) == p
    decreases |p|
  {
    var i := LastIndexOf(p, '/');
    if 0 <= i {
      var init := Split(p[..i]);
      JoinSplit(p[..i]);
      assert (init + [p[i + 1..]])[..|init|] == init;
      assert p == p[..i] + "/" + p[i + 1..];
    }
  }

  /** A piece that `Path::components` does not report: empty (repeated or trailing `/`) or `.` */
  predicate Skipped(part: string) {
    part == "" || part == "."
  }

  /** The components of a split path, with skipped pieces removed. */
  function Components(parts: seq<string>): (comps: seq<string>)
    ensures forall k :: 0 <= k < |comps| ==> !Skipped(comps[k]) && comps[k] in parts
  {
    if parts == [] then []
    else
      var last := parts[|parts| - 1];
      var init := Components(parts[..|parts| - 1]);
      assert forall k :: 0 <= k < |init| ==> init[k] in parts by {
        forall k | 0 <= k < |init| ensures init[k] in parts {
          assert init[k] in parts[..|parts| - 1];
        }
      }
      if Skipped(last) then init else init + [last]
  }

  /**
   * `Path::file_name` followed by `OsStr::to_str`: the last component of the
   * path, unless the path has none or ends in `..`.
   */
  function FileName(path: string): (name: Option<string>)
    ensures name.Some? ==> name.value != "" && name.value != "." && name.value != ".."
    ensures name.Some? ==> '/' !in name.value
  {
    var comps := Components(Split(path));
    if comps == [] || comps[|comps| - 1] == ".." then None else Some(comps[|comps| - 1])
  }

  /** A name that is a whole file name by itself. */
  predicate PlainName(n: string) {
    '/' !in n && n != "" && n != "." && n != ".."
  }

  /** A path without separators is a single piece. */
  lemma SplitNoSeparator(p: string)
    requires '/' !in p
    ensures Split(p) == [p]
  {
    assert LastIndexOf(p, '/') < 0;
  }

  /** Appending `/n` to a path appends the piece `n`. */
  lemma SplitAppend(a: string, n: string)
    requires '/' !in n
    ensures Split(a + "/" + n) == Split(a) + [n]
  {
    var p := a + "/" + n;
    var i := LastIndexOf(p, '/');
    assert p[|a|] == '/';
    forall k | |a| < k < |p|
      ensures p[k] != '/'
    {
      assert p[k] == n[k - |a| - 1];
    }
    assert i == |a|;
    assert p[..i] == a;
    assert p[i + 1..] == n;
  }

  /** An absent `ImageLocation`, read as `""`, has no file name. */
  lemma FileNameOfEmpty()
    ensures FileName("") == None
  {
    assert Split("") == [""];
  }

  /** A plain name is its own file name. */
  lemma FileNameOfName(n: string)
    requires PlainName(n)
    ensures FileName(n) == Some(n)
  {
    SplitNoSeparator(n);
    assert Components([n]) == [n] by {
      assert [n][..0] == [];
    }
  }

  /** The file name of `dir/n` is `n`, whatever the directory part is. */
  lemma FileNameOfJoin(dir: string, n: string)
    requires PlainName(n)
    ensures FileName(dir + "/" + n) == Some(n)
  {
    var parts := Split(dir + "/" + n);
    SplitAppend(dir, n);
    assert parts[..|parts| - 1] == Split(dir);
  }

  /** Trailing separators do not change the file name. */
  lemma FileNameTrailingSlash(p: string)
    ensures FileName(p + "/") == FileName(p)
  {
    var parts := Split(p + "/");
    SplitAppend(p, "");
    assert p + "/" == p + "/" + "";
    assert parts[..|parts| - 1] == Split(p);
  }
}
