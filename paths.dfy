/** The two POSIX `os.path` operations the script uses: the tail returned by
    `os.path.split` and two-argument `os.path.join`. */
module Paths {

  /** The tail `os.path.split` returns: everything after the last '/'. */
  function Basename(p: string): (r: string)
    ensures '/' !in r
    ensures |r| <= |p|
    ensures |r| < |p| ==> p[|p| - |r| - 1] == '/'
  {
    if p == [] then []
    else if p[|p| - 1] == '/' then []
    else Basename(p[..|p| - 1]) + [p[|p| - 1]]
  }

  /** The result of `Basename` is a suffix of the path; with the contract
      above, it is the longest suffix free of '/'. */
  lemma {:induction false} BasenameIsSuffix(p: string)
    ensures Basename(p) == p[|p| - |Basename(p)|..]
    decreases |p|
  {
    if p != [] && p[|p| - 1] != '/' {
      var q := p[..|p| - 1];
      BasenameIsSuffix(q);
      assert p[|p| - |Basename(p)|..] == q[|q| - |Basename(q)|..] + [p[|p| - 1]];
    }
  }

  /** A directory part: empty or ending in the separator. */
  predicate IsDirPrefix(d: string)
  {
    d == [] || d[|d| - 1] == '/'
  }

  /** The tail of a path made of a directory part and a file name is that name. */
  lemma {:induction false} BasenameAfterDir(d: string, b: string)
    requires IsDirPrefix(d)
    requires '/' !in b
    ensures Basename(d + b) == b
    decreases |b|
  {
    if b == [] {
      assert d + b == d;
    } else {
      var p := d + b;
      var q := b[..|b| - 1];
      var last := b[|b| - 1];
      assert p[|p| - 1] == last && last != '/';
      assert p[..|p| - 1] == d + q;
      assert '/' !in q by {
        forall k | 0 <= k < |q| ensures q[k] != '/' {
          assert q[k] == b[k];
        }
      }
      BasenameAfterDir(d, q);
      assert Basename(p) == Basename(d + q) + [last];
      assert b == q + [last];
    }
  }

  /** What `os.path.join(a, b)` puts in front of a relative b. */
  function DirPart(a: string): (d: string)
    ensures IsDirPrefix(d)
  {
    if IsDirPrefix(a) then a else a + "/"
  }

  /** `os.path.join(a, b)` on POSIX: an absolute b replaces a; otherwise b is
      appended to a, with one '/' inserted unless a is empty or ends in '/'. */
  function PathJoin(a: string, b: string): (r: string)
    ensures |b| <= |r| && r[|r| - |b|..] == b
    ensures !(|b| > 0 && b[0] == '/') ==> r == DirPart(a) + b
    ensures '/' !in b ==> Basename(r) == b
  {
    if |b| > 0 && b[0] == '/' then b
    else
      if '/' !in b then BasenameAfterDir(DirPart(a), b); DirPart(a) + b
      else DirPart(a) + b
  }
}
