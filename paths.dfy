/** POSIX path helpers the pipelines use: `os.path.join` and
    `os.path.basename`, with the facts the copy and cache steps rely on. */
module Paths {
  import opened Text

  /** `os.path.join(a, b)` on POSIX: an absolute `b` replaces `a`, and a
      separator is inserted unless `a` is empty or already ends with one. */
  function PathJoin(a: string, b: string): string {
    if StartsWith(b, "/") then b
    else if a == "" || EndsWith(a, "/") then a + b
    else a + "/" + b
  }

  /** `os.path.basename(p)`: everything after the last `/`. */
  function Basename(p: string): string {
    if p == [] || p[|p| - 1] == '/' then [] else Basename(p[..|p| - 1]) + [p[|p| - 1]]
  }

  /** A name without `/` is its own base name. */
  lemma {:induction false} BasenameOfName(s: string)
    requires '/' !in s
    ensures Basename(s) == s
    decreases |s|
  {
    if s != [] {
      assert s[|s| - 1] in s;
      assert forall c :: c in s[..|s| - 1] ==> c in s;
      BasenameOfName(s[..|s| - 1]);
    }
  }

  /** A joined path ends with the name joined on. */
  lemma JoinEndsWith(a: string, b: string)
    ensures EndsWith(PathJoin(a, b), b)
  {
    var r := PathJoin(a, b);
    if !StartsWith(b, "/") {
      if a == "" || EndsWith(a, "/") {
        assert r == a + b && r[|a|..] == b;
      } else {
        assert r == (a + "/") + b && r[|a| + 1..] == b;
      }
    }
  }

  /** What follows a directory prefix does not see the prefix. */
  lemma {:induction false} BasenameAfterSlash(x: string, y: string)
    requires x == [] || x[|x| - 1] == '/'
    ensures Basename(x + y) == Basename(y)
    decreases |y|
  {
    if y == [] {
      assert x + y == x;
    } else {
      var xy := x + y;
      assert xy[|xy| - 1] == y[|y| - 1];
      if y[|y| - 1] != '/' {
        assert xy[..|xy| - 1] == x + y[..|y| - 1];
        BasenameAfterSlash(x, y[..|y| - 1]);
      }
    }
  }

  /** A suffix without `/` stays on the base name. */
  lemma {:induction false} BasenameAppend(y: string, sfx: string)
    requires '/' !in sfx
    ensures Basename(y + sfx) == Basename(y) + sfx
    decreases |sfx|
  {
    if sfx == [] {
      assert y + sfx == y;
    } else {
      var ys := y + sfx;
      assert ys[|ys| - 1] == sfx[|sfx| - 1];
      assert sfx[|sfx| - 1] in sfx;
      assert ys[..|ys| - 1] == y + sfx[..|sfx| - 1];
      assert forall c :: c in sfx[..|sfx| - 1] ==> c in sfx;
      BasenameAppend(y, sfx[..|sfx| - 1]);
      assert sfx[..|sfx| - 1] + [sfx[|sfx| - 1]] == sfx;
    }
  }

  /** `basename(join(dir, name + sfx)) == basename(name) + sfx`: the copy
      step keeps each output's file name, whatever directory it came from. */
  lemma JoinedBasename(dir: string, name: string, sfx: string)
    requires '/' !in sfx
    ensures Basename(PathJoin(dir, name + sfx)) == Basename(name) + sfx
  {
    var b := name + sfx;
    if StartsWith(b, "/") {
    } else if dir == "" || EndsWith(dir, "/") {
      if dir != "" {
        assert dir[|dir| - 1] == dir[|dir| - 1..][0];
      }
      BasenameAfterSlash(dir, b);
    } else {
      assert PathJoin(dir, b) == (dir + "/") + b;
      BasenameAfterSlash(dir + "/", b);
    }
    BasenameAppend(name, sfx);
  }

  /** Paths that end differently are different paths. */
  lemma DifferentEndings(x: string, y: string, s: string, t: string)
    requires EndsWith(x, s) && EndsWith(y, t)
    requires |s| <= |t| && t[|t| - |s|..] != s
    ensures x != y
  {
    assert y[|y| - |s|..] == t[|t| - |s|..];
  }

  /** A path joined on `name + sfx` ends with `sfx`. */
  lemma EndsWithSuffix(dir: string, name: string, sfx: string)
    ensures EndsWith(PathJoin(dir, name + sfx), sfx)
  {
    var p := PathJoin(dir, name + sfx);
    JoinEndsWith(dir, name + sfx);
    assert p[|p| - |sfx|..] == (name + sfx)[|name|..];
  }
}
