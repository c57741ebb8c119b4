/**
 * The string helpers the driver uses to turn the FTP namespace, rooted at "/",
 * into the flat key space of a bucket (Go's strings.HasPrefix, HasSuffix,
 * TrimPrefix, and the two key builders of the driver).
 */
module Paths {

  predicate HasPrefix(s: string, prefix: string) {
    |prefix| <= |s| && s[..|prefix|] == prefix
  }

  predicate HasSuffix(s: string, suffix: string) {
    |suffix| <= |s| && s[|s| - |suffix|..] == suffix
  }

  /** strings.TrimPrefix: drop `prefix` once when `s` starts with it. */
  function TrimPrefix(s: string, prefix: string): (r: string)
    ensures HasPrefix(s, prefix) ==> prefix + r == s
    ensures !HasPrefix(s, prefix) ==> r == s
  {
    if HasPrefix(s, prefix) then s[|prefix|..] else s
  }

  /** The first index of `c` in `s`, or |s| when `c` does not occur. */
  function IndexOf(s: string, c: char): (i: nat)
    ensures i <= |s|
    ensures i < |s| ==> s[i] == c
    ensures forall j :: 0 <= j < i ==> s[j] != c
  {
    if s == [] then 0
    else if s[0] == c then 0
    else 1 + IndexOf(s[1..], c)
  }

  /** buildMinioPath: the bucket key of an FTP path. */
  function BuildMinioPath(p: string): (key: string)
    ensures |p| > 0 && p[0] == '/' ==> key == p[1..]
    ensures (|p| == 0 || p[0] != '/') ==> key == p
  {
    TrimPrefix(p, "/")
  }

  /** buildMinioDir: the key of a directory marker, always ending in "/". */
  function BuildMinioDir(p: string): (dir: string)
    ensures HasSuffix(dir, "/")
    ensures HasPrefix(dir, BuildMinioPath(p)) && |dir| <= |BuildMinioPath(p)| + 1
    ensures HasSuffix(BuildMinioPath(p), "/") ==> dir == BuildMinioPath(p)
  {
    var v := BuildMinioPath(p);
    if !HasSuffix(v, "/") then v + "/" else v
  }

  /**
   * buildMinioDir is idempotent on every path that does not start with "//", which
   * is every path the server hands to the driver: the result of the first call
   * starts with "/" only when it is "/" itself.
   */
  lemma BuildMinioDirIdempotent(p: string)
    requires !HasPrefix(BuildMinioPath(p), "/")
    ensures BuildMinioDir(BuildMinioDir(p)) == BuildMinioDir(p)
  {
    var v := BuildMinioPath(p);
    var d := BuildMinioDir(p);
    if v == "" {
      assert d == "/";
      assert BuildMinioPath(d) == "";
    } else {
      assert d[0] == v[0] && v[0] != '/';
      assert BuildMinioPath(d) == d;
    }
  }

  /** On a path that starts with "//" a second call strips another slash. */
  lemma BuildMinioDirNotIdempotentOnDoubleSlash()
    ensures BuildMinioDir("//a") == "/a/"
    ensures BuildMinioDir(BuildMinioDir("//a")) == "a/"
  {
    assert BuildMinioPath("//a") == "/a";
    assert !HasSuffix("/a", "/");
    assert BuildMinioPath("/a/") == "a/";
    assert HasSuffix("a/", "/");
  }

  /**
   * Selecting keys by the directory key of a path (with its trailing "/") picks the
   * directory's marker and descendants and never a sibling whose name merely
   * extends the directory's name ("dirt" beside "dir").
   */
  lemma DirKeySparesSiblings(path: string, suffix: string)
    requires suffix != [] && suffix[0] != '/'
    requires !HasSuffix(BuildMinioPath(path), "/")
    ensures !HasPrefix(BuildMinioPath(path) + suffix, BuildMinioDir(path))
    ensures HasPrefix(BuildMinioPath(path) + "/" + suffix, BuildMinioDir(path))
  {
    var v := BuildMinioPath(path);
    assert BuildMinioDir(path) == v + "/";
    assert (v + suffix)[..|v| + 1][|v|] == suffix[0] != (v + "/")[|v|];
    assert (v + "/" + suffix)[..|v| + 1] == v + "/";
  }
}
