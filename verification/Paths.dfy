/** Slash-separated paths as the segments that `split("/")` yields.
    On segment sequences Dafny's `<=` is "equal or below" and `<` is "strictly below", so
    `child.startsWith(root + "/")` is `root < child`; StartsWithIsProperPrefix proves that reading. */
module Paths {

  type Path = seq<string>

  /** The segments of a string, empty ones included. */
  function Split(s: string): (p: Path)
    ensures |p| > 0
    ensures forall k :: 0 <= k < |p| ==> '/' !in p[k]
  {
    if s == "" then [""]
    else
      var rest := Split(s[1..]);
      if s[0] == '/' then [""] + rest else [[s[0]] + rest[0]] + rest[1..]
  }

  function Join(p: Path): string
    requires |p| > 0
  {
    if |p| == 1 then p[0] else p[0] + "/" + Join(p[1..])
  }

  lemma {:induction false} JoinSplit(s: string)
    ensures Join(Split(s)) == s
  {
    if s != "" {
      JoinSplit(s[1..]);
      var rest := Split(s[1..]);
      if s[0] == '/' {
        assert ([""] + rest)[1..] == rest;
        assert s == [s[0]] + s[1..];
      } else {
        assert ([[s[0]] + rest[0]] + rest[1..])[1..] == rest[1..];
        assert s == [s[0]] + s[1..];
      }
    }
  }

  lemma SplitHead(c: char, s: string)
    ensures Split([c] + s) == (if c == '/' then [""] + Split(s) else [[c] + Split(s)[0]] + Split(s)[1..])
  {
    assert ([c] + s)[1..] == s;
  }

  /** Extending the first segment commutes with appending segments. */
  lemma ExtendFirst(c: char, a: seq<string>, b: seq<string>)
    requires |a| > 0
    ensures [[c] + (a + b)[0]] + (a + b)[1..] == ([[c] + a[0]] + a[1..]) + b
  {}

  lemma {:induction false} SplitAtSlash(root: string, rest: string)
    ensures Split(root + "/" + rest) == Split(root) + Split(rest)
  {
    if root == "" {
      assert root + "/" + rest == ['/'] + rest;
      SplitHead('/', rest);
    } else {
      var tail := root[1..] + "/" + rest;
      assert root + "/" + rest == [root[0]] + tail && root == [root[0]] + root[1..];
      SplitAtSlash(root[1..], rest);
      SplitHead(root[0], tail);
      SplitHead(root[0], root[1..]);
      ExtendFirst(root[0], Split(root[1..]), Split(rest));
    }
  }

  lemma {:induction false} JoinAppend(p: Path, q: Path)
    requires |p| > 0 && |q| > 0
    ensures Join(p + q) == Join(p) + "/" + Join(q)
  {
    if |p| > 1 {
      JoinAppend(p[1..], q);
      assert (p + q)[1..] == p[1..] + q;
    } else {
      assert (p + q)[1..] == q;
    }
  }

  /** The string test used throughout the source is strict ancestry of segments, for every two strings. */
  lemma StartsWithIsProperPrefix(root: string, path: string)
    ensures root + "/" <= path <==> Split(root) < Split(path)
  {
    if root + "/" <= path {
      var rest := path[|root| + 1..];
      assert path == root + "/" + rest;
      SplitAtSlash(root, rest);
    }
    if Split(root) < Split(path) {
      var tail := Split(path)[|Split(root)|..];
      assert Split(path) == Split(root) + tail;
      JoinAppend(Split(root), tail);
      JoinSplit(root);
      JoinSplit(path);
    }
  }

  /** `path !== "" && normalizePath(path) === path`: no empty segment and no backslash. */
  predicate Normalized(p: Path) {
    |p| > 0 && forall k :: 0 <= k < |p| ==> p[k] != "" && '\\' !in p[k]
  }

  function SplitBackslash(s: string): (p: seq<string>)
    ensures |p| > 0
    ensures '\\' !in s ==> p == [s]
  {
    if s == "" then [""]
    else
      var rest := SplitBackslash(s[1..]);
      assert '\\' !in s ==> '\\' !in s[1..] && s == [s[0]] + s[1..];
      if s[0] == '\\' then [""] + rest else [[s[0]] + rest[0]] + rest[1..]
  }

  function DropEmpty(p: seq<string>): (r: seq<string>)
    ensures (forall k :: 0 <= k < |p| ==> p[k] != "") ==> r == p
  {
    if p == [] then [] else (if p[0] == "" then [] else [p[0]]) + DropEmpty(p[1..])
  }

  /** `normalizePath`: backslashes separate, and empty segments disappear. */
  function Normalize(p: Path): (r: Path)
    ensures Normalized(p) ==> r == p
  {
    if p == [] then [] else DropEmpty(SplitBackslash(p[0])) + Normalize(p[1..])
  }

  /** `getAncestorDirectories([p])`: the strict non-empty prefixes of the normalized path. */
  function Ancestors(p: Path): (r: set<Path>)
    ensures forall a :: a in r <==> a != [] && a < Normalize(p)
  {
    var n := Normalize(p);
    assert forall a: Path :: a != [] && a < n ==> a == n[..|a|] && 1 <= |a| < |n|;
    set k | 1 <= k < |n| :: n[..k]
  }

  /** `isProtectedPath`: service names are reserved at every depth. */
  predicate Protected(p: Path) {
    exists k :: 0 <= k < |Normalize(p)| && ProtectedSegment(Normalize(p)[k])
  }

  predicate ProtectedSegment(s: string) {
    || s in {".backup", ".obsidian-sync-index.json", ".obsidian-encrypt.json"}
    || ".obsidian-sync-index.lock." <= s
  }

  /** A segment that no stored path may have: it names no entry, or it is read as something else. */
  predicate BadSegment(s: string) { s == "" || s == "." || s == ".." || '\\' in s || '\0' in s }

  /** Two strict or equal ancestors of one path lie on one line. */
  lemma PrefixesCompare(a: Path, b: Path, c: Path)
    requires a <= c && b <= c
    ensures a <= b || b <= a
  {
    assert a == c[..|a|] && b == c[..|b|];
    if |a| <= |b| {
      assert b[..|a|] == a;
    } else {
      assert a[..|b|] == b;
    }
  }
}
