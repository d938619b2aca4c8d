/** Path strings as the report strategy manipulates them: the parts of Ruby's
    `File.dirname`, `File.basename`, `File.basename(path, ".*")`, `File.join` and
    `File.expand_path` it relies on, over absolute, already-normalised paths
    separated by '/'. */
module Paths {

  /** An absolute directory path without a trailing separator (except the root). */
  predicate IsDir(d: string) {
    |d| > 0 && d[0] == '/' && (|d| == 1 || d[|d| - 1] != '/')
  }

  /** The root directory, "/". */
  predicate IsRoot(d: string) {
    |d| == 1 && d[0] == '/'
  }

  /** A single, non-empty path segment. */
  predicate IsName(n: string) {
    n != "" && '/' !in n
  }

  /** Index of the last occurrence of `c` among the first `n` characters of
      `s`, or -1 when there is none. */
  function LastIndexBelow(s: string, c: char, n: nat): (r: int)
    requires n <= |s|
    ensures -1 <= r < n
    ensures r >= 0 ==> s[r] == c
  {
    if n == 0 then -1
    else if s[n - 1] == c then n - 1
    else LastIndexBelow(s, c, n - 1)
  }

  /** Index of the last occurrence of `c` in `s`, or -1 when there is none. */
  function LastIndexOf(s: string, c: char): (r: int)
    ensures -1 <= r < |s|
    ensures r >= 0 ==> s[r] == c
  {
    LastIndexBelow(s, c, |s|)
  }

  /** No occurrence of `c` below `n` follows the one `LastIndexBelow` finds. */
  lemma {:induction false} LastIndexBelowIsLast(s: string, c: char, n: nat, k: int)
    requires n <= |s| && LastIndexBelow(s, c, n) < k < n
    ensures s[k] != c
  {
    if s[n - 1] != c && k < n - 1 {
      LastIndexBelowIsLast(s, c, n - 1, k);
    }
  }

  /** An occurrence below `n` followed by no other below `n` is the one
      `LastIndexBelow` finds. */
  lemma {:induction false} LastIndexBelowFinds(s: string, c: char, n: nat, m: nat)
    requires m < n <= |s| && s[m] == c
    requires forall k :: m < k < n ==> s[k] != c
    ensures LastIndexBelow(s, c, n) == m
  {
    if m < n - 1 {
      LastIndexBelowFinds(s, c, n - 1, m);
    }
  }

  /** No occurrence of `c` follows the one `LastIndexOf` finds. */
  lemma LastIndexOfIsLast(s: string, c: char, k: int)
    requires LastIndexOf(s, c) < k < |s|
    ensures s[k] != c
  {
    LastIndexBelowIsLast(s, c, |s|, k);
  }

  /** An occurrence followed only by text without `c` is the last one. */
  lemma LastIndexOfBefore(a: string, c: char, b: string)
    requires c !in b
    ensures LastIndexOf(a + [c] + b, c) == |a|
  {
    var s := a + [c] + b;
    forall k | |a| < k < |s| ensures s[k] != c {
      assert s[k] == b[k - |a| - 1];
    }
    LastIndexBelowFinds(s, c, |s|, |a|);
  }

  /** `File.dirname`: everything before the last separator; "/" for a file in the
      root, "." for a bare name. */
  function Dirname(p: string): string {
    var i := LastIndexOf(p, '/');
    if i < 0 then "." else if i > 0 then p[..i] else "/"
  }

  /** `File.basename`: everything after the last separator. */
  function Basename(p: string): string {
    p[LastIndexOf(p, '/') + 1..]
  }

  /** Removes the last extension of a file name, the part of
      `File.basename(name, ".*")` the strategy relies on: the extension starts at
      the last dot, and nothing is removed when there is no dot or when that dot
      is the name's first character. */
  function StripExtension(name: string): (r: string)
    ensures r == name || (0 < |r| < |name| && r == name[..|r|] && name[|r|] == '.')
  {
    var i := LastIndexOf(name, '.');
    if i <= 0 then name else name[..i]
  }

  /** `File.basename(path, ".*")`. */
  function BasenameWithoutExtension(p: string): string {
    StripExtension(Basename(p))
  }

  /** A suffix of `s` in which `c` does not occur does not contain `c`. */
  lemma NotInSuffix(s: string, c: char, j: nat)
    requires j <= |s|
    requires forall k :: j <= k < |s| ==> s[k] != c
    ensures c !in s[j..]
  {
    var t := s[j..];
    forall k | 0 <= k < |t| ensures t[k] != c {
      assert t[k] == s[j + k];
    }
  }

  /** A base name is a single path segment. */
  lemma BasenameIsSegment(p: string)
    ensures '/' !in Basename(p)
  {
    var i := LastIndexOf(p, '/');
    forall k | i + 1 <= k < |p| ensures p[k] != '/' {
      LastIndexOfIsLast(p, '/', k);
    }
    NotInSuffix(p, '/', i + 1);
  }

  /** Removing an extension adds no separator. */
  lemma StripExtensionIsSegment(name: string)
    requires '/' !in name
    ensures '/' !in StripExtension(name)
  {
    var i := LastIndexOf(name, '.');
    if i > 0 {
      var r := name[..i];
      forall k | 0 <= k < |r| ensures r[k] != '/' {
        assert r[k] == name[k];
      }
    }
  }

  /** A base name without extension is a single path segment. */
  lemma BasenameWithoutExtensionIsSegment(p: string)
    ensures '/' !in BasenameWithoutExtension(p)
  {
    BasenameIsSegment(p);
    StripExtensionIsSegment(Basename(p));
  }

  /** `File.join(dir, name)`: one separator between the two, none added when
      `dir` already ends with one (as the root does). */
  function Join(dir: string, name: string): string {
    if |dir| > 0 && dir[|dir| - 1] == '/' then dir + name else dir + "/" + name
  }

  /** `File.expand_path(p)` with `cwd` as the process working directory: an
      absolute path is kept, a relative one is resolved against `cwd`, and the
      empty path is `cwd` itself. */
  function ExpandPath(cwd: string, p: string): (r: string)
    requires IsDir(cwd)
    ensures |r| > 0 && r[0] == '/'
  {
    if p == "" then cwd else if p[0] == '/' then p else Join(cwd, p)
  }

  /** An absolute path expands to itself, so expanding an expanded path
      changes nothing. */
  lemma ExpandPathIdempotent(cwd: string, p: string)
    requires IsDir(cwd)
    ensures p != "" && p[0] == '/' ==> ExpandPath(cwd, p) == p
    ensures ExpandPath(cwd, ExpandPath(cwd, p)) == ExpandPath(cwd, p)
  {
  }

  /** Joining a directory and a name is undone by `Dirname` and `Basename`. */
  lemma JoinSplits(dir: string, name: string)
    requires IsDir(dir) && IsName(name)
    ensures Dirname(Join(dir, name)) == dir
    ensures Basename(Join(dir, name)) == name
  {
    if dir == "/" {
      LastIndexOfBefore([], '/', name);
      assert Join(dir, name) == [] + ['/'] + name;
    } else {
      LastIndexOfBefore(dir, '/', name);
      assert Join(dir, name) == dir + ['/'] + name;
    }
  }

  /** The directory of `dir` joined with `a/b` is `dir` joined with `a`, when `b`
      is the last segment. */
  lemma DirnameOfNestedJoin(dir: string, a: string, b: string)
    requires a != "" && '/' !in b
    ensures Dirname(Join(dir, a + "/" + b)) == Join(dir, a)
    ensures Basename(Join(dir, a + "/" + b)) == b
  {
    var j := Join(dir, a);
    assert Join(dir, a + "/" + b) == j + ['/'] + b;
    LastIndexOfBefore(j, '/', b);
  }

  /** A stem followed by a dot and an extension without dots loses exactly the
      extension. */
  lemma StripExtensionOf(stem: string, ext: string)
    requires stem != "" && '.' !in ext
    ensures StripExtension(stem + "." + ext) == stem
  {
    assert stem + "." + ext == stem + ['.'] + ext;
    LastIndexOfBefore(stem, '.', ext);
  }

  /** A name without separators is its own base name. */
  lemma BasenameOfName(name: string)
    requires '/' !in name
    ensures Basename(name) == name
  {
  }

  /** The base name without extension of `stem.ext` is `stem`. */
  lemma BasenameWithoutExtensionOf(stem: string, ext: string)
    requires IsName(stem) && '.' !in ext && '/' !in ext
    ensures BasenameWithoutExtension(stem + "." + ext) == stem
  {
    var name := stem + "." + ext;
    assert name == stem + ['.'] + ext;
    BasenameOfName(name);
    StripExtensionOf(stem, ext);
  }

  /** The directory a file is in does not change its base name without
      extension. */
  lemma BasenameWithoutExtensionOfJoin(dir: string, name: string)
    requires IsDir(dir) && IsName(name)
    ensures BasenameWithoutExtension(Join(dir, name)) == BasenameWithoutExtension(name)
  {
    JoinSplits(dir, name);
    BasenameOfName(name);
  }
}
