/** Platform discovery and the names derived from a platform: `get_platforms`,
    `get_docker_tag` and `get_dockerfile` of ci/test.py.

    The directory listing itself (`glob.glob`) is not modelled: `GetPlatforms`
    takes the list of paths the glob returned, in whatever order it returned
    them. */
module Catalog {
  import opened Wrappers
  import opened Strings
  import opened Paths

  /** The file-name stem of every test Dockerfile. `get_dockerfile` uses it as
      literal text; the regex in `get_platforms` uses the same characters, and
      there its three dots are unescaped, so each matches any character other
      than a newline. */
  const Stem: string := "Dockerfile.build.test."

  /** One regex character against one input character; '.' is the wildcard. */
  predicate CharMatches(p: char, c: char)
  {
    if p == '.' then c != '\n' else c == p
  }

  /** The regex `Dockerfile.build.test.` matches at the start of s. */
  predicate StartsWithStem(s: string)
  {
    |Stem| <= |s| && forall k :: 0 <= k < |Stem| ==> CharMatches(Stem[k], s[k])
  }

  /** Where a greedy `(.*)` that starts at i stops: at the first newline at or
      after i, or at the end of s. */
  function LineEnd(s: string, i: nat): (e: nat)
    requires i <= |s|
    ensures i <= e <= |s|
    ensures e < |s| ==> s[e] == '\n'
    ensures forall k :: i <= k < e ==> s[k] != '\n'
    decreases |s| - i
  {
    if i == |s| || s[i] == '\n' then i else LineEnd(s, i + 1)
  }

  /** The regex substitution of line 46: scanning left to right, every match
      of the stem pattern followed by the rest of the line is replaced by
      that rest of the line. */
  function Substitute(s: string): (r: string)
    ensures |r| <= |s|
    decreases |s|
  {
    if s == [] then []
    else if StartsWithStem(s) then
      var e := LineEnd(s, |Stem|);
      s[|Stem|..e] + Substitute(s[e..])
    else [s[0]] + Substitute(s[1..])
  }

  /** Every match begins with 'D', so text without a 'D' passes through unchanged. */
  lemma {:induction false} SubstitutePlainPrefix(x: string, y: string)
    requires 'D' !in x
    ensures Substitute(x + y) == x + Substitute(y)
    decreases |x|
  {
    if x != [] {
      assert (x + y)[0] == x[0];
      assert !CharMatches(Stem[0], x[0]);
      assert (x + y)[1..] == x[1..] + y;
      SubstitutePlainPrefix(x[1..], y);
      assert x == [x[0]] + x[1..];
    } else {
      assert x + y == y;
    }
  }

  /** A file name made of the stem and a one-line suffix is rewritten to the suffix. */
  lemma SubstituteStem(p: string)
    requires '\n' !in p
    ensures Substitute(Stem + p) == p
  {
    var s := Stem + p;
    assert s[..|Stem|] == Stem;
    assert StartsWithStem(s);
    var e := LineEnd(s, |Stem|);
    assert e == |s|;
    assert s[|Stem|..e] == p;
  }

  /** Emacs-style backup file: the path's last character is '~'. */
  predicate EndsWithTilde(p: string)
  {
    |p| > 0 && p[|p| - 1] == '~'
  }

  /** How many paths are not backups. */
  function CountKept(paths: seq<string>): nat
  {
    if paths == [] then 0
    else (if EndsWithTilde(paths[0]) then 0 else 1) + CountKept(paths[1..])
  }

  /** a is b with some elements left out, the rest in their order. */
  predicate Subsequence(a: seq<string>, b: seq<string>)
    decreases |b|
  {
    a == [] || (b != [] && ((a[0] == b[0] && Subsequence(a[1..], b[1..])) || Subsequence(a, b[1..])))
  }

  /** The filter of line 45: keep the paths whose last character is not '~'.
      Each kept path occurs as often as in the input, in the input's order;
      this determines the result. */
  function DropBackups(paths: seq<string>): (r: seq<string>)
    ensures |r| == CountKept(paths)
    ensures forall x :: x in r <==> x in paths && !EndsWithTilde(x)
    ensures forall x :: multiset(r)[x] == if EndsWithTilde(x) then 0 else multiset(paths)[x]
    ensures Subsequence(r, paths)
  {
    if paths == [] then []
    else
      assert paths == [paths[0]] + paths[1..];
      if EndsWithTilde(paths[0]) then DropBackups(paths[1..])
      else [paths[0]] + DropBackups(paths[1..])
  }

  /** A subsequence has no more of any element than the whole. */
  lemma {:induction false} SubsequenceMultiset(a: seq<string>, b: seq<string>)
    requires Subsequence(a, b)
    ensures multiset(a) <= multiset(b)
    decreases |b|
  {
    if a != [] {
      assert b == [b[0]] + b[1..];
      if Subsequence(a, b[1..]) {
        SubsequenceMultiset(a, b[1..]);
      } else {
        assert a == [a[0]] + a[1..];
        SubsequenceMultiset(a[1..], b[1..]);
      }
    }
  }

  /** The contract of `DropBackups` pins down its result: a subsequence of
      the paths that holds each kept path as often as the paths do, and no
      backup, is the filtered list. */
  lemma {:induction false} DropBackupsUnique(r: seq<string>, paths: seq<string>)
    requires Subsequence(r, paths)
    requires forall x :: multiset(r)[x] == if EndsWithTilde(x) then 0 else multiset(paths)[x]
    ensures r == DropBackups(paths)
    decreases |paths|
  {
    if paths == [] {
    } else {
      var p := paths[0];
      var rest := paths[1..];
      assert paths == [p] + rest;
      if EndsWithTilde(p) {
        assert r != [] ==> r[0] in multiset(r) && !EndsWithTilde(r[0]);
        assert Subsequence(r, rest);
        DropBackupsUnique(r, rest);
      } else {
        assert multiset(r)[p] == multiset(rest)[p] + 1;
        if Subsequence(r, rest) {
          SubsequenceMultiset(r, rest);
          assert false;
        }
        assert r == [r[0]] + r[1..] && r[0] == p;
        forall x ensures multiset(r[1..])[x] == if EndsWithTilde(x) then 0 else multiset(rest)[x] {
          assert multiset(r)[x] == multiset(r[1..])[x] + (if x == p then 1 else 0);
        }
        DropBackupsUnique(r[1..], rest);
      }
    }
  }

  /** The substitution applied to every path. */
  function RewriteAll(paths: seq<string>): (r: seq<string>)
    ensures |r| == |paths|
    ensures forall i :: 0 <= i < |paths| ==> r[i] == Substitute(paths[i])
  {
    if paths == [] then [] else [Substitute(paths[0])] + RewriteAll(paths[1..])
  }

  /** The tail of every path. */
  function Basenames(paths: seq<string>): (r: seq<string>)
    ensures |r| == |paths|
    ensures forall i :: 0 <= i < |paths| ==> r[i] == Basename(paths[i])
  {
    if paths == [] then [] else [Basename(paths[0])] + Basenames(paths[1..])
  }

  /** The platform name one Dockerfile path yields. */
  function PlatformName(path: string): string
  {
    Basename(Substitute(path))
  }

  lemma {:induction false} BasenamesInsert(x: string, s: seq<string>)
    ensures multiset(Basenames(Insert(x, s))) == multiset(Basenames(s)) + multiset{Basename(x)}
  {
    if s != [] && !StrLe(x, s[0]) {
      BasenamesInsert(x, s[1..]);
      assert Basenames(s) == [Basename(s[0])] + Basenames(s[1..]);
    }
  }

  /** Sorting before taking tails changes only the order of the tails. */
  lemma {:induction false} BasenamesSort(s: seq<string>)
    ensures multiset(Basenames(SortStrings(s))) == multiset(Basenames(s))
  {
    if s != [] {
      BasenamesSort(s[1..]);
      BasenamesInsert(s[0], SortStrings(s[1..]));
      assert Basenames(s) == [Basename(s[0])] + Basenames(s[1..]);
    }
  }

  /** `get_platforms`: drop backups, rewrite with the regex, sort the
      rewritten full paths, take each tail. The backup test reads the last
      character, which an empty path lacks; a glob never returns one. */
  function GetPlatforms(dockerfiles: seq<string>): (platforms: seq<string>)
    requires forall i :: 0 <= i < |dockerfiles| ==> dockerfiles[i] != []
    ensures |platforms| == CountKept(dockerfiles)
    ensures multiset(platforms) == multiset(Basenames(RewriteAll(DropBackups(dockerfiles))))
  {
    BasenamesSort(RewriteAll(DropBackups(dockerfiles)));
    Basenames(SortStrings(RewriteAll(DropBackups(dockerfiles))))
  }

  /** Each platform is the name of one of the input paths that is not a
      backup: the basename of that path after the rewrite. */
  lemma PlatformsFromInputs(dockerfiles: seq<string>)
    requires forall i :: 0 <= i < |dockerfiles| ==> dockerfiles[i] != []
    ensures var platforms := GetPlatforms(dockerfiles);
            forall j :: 0 <= j < |platforms| ==>
              exists i :: 0 <= i < |dockerfiles| && !EndsWithTilde(dockerfiles[i])
                          && platforms[j] == PlatformName(dockerfiles[i])
  {
    var platforms := GetPlatforms(dockerfiles);
    var names := Basenames(RewriteAll(DropBackups(dockerfiles)));
    PlatformOrigins(dockerfiles);
    forall j | 0 <= j < |platforms|
      ensures exists i :: 0 <= i < |dockerfiles| && !EndsWithTilde(dockerfiles[i])
                          && platforms[j] == PlatformName(dockerfiles[i])
    {
      assert platforms[j] in multiset(names);
      assert platforms[j] in names;
    }
  }

  /** Every name taken from the rewritten paths comes from a path that is
      not a backup. */
  lemma PlatformOrigins(dockerfiles: seq<string>)
    ensures forall x :: x in Basenames(RewriteAll(DropBackups(dockerfiles))) ==>
              exists i :: 0 <= i < |dockerfiles| && !EndsWithTilde(dockerfiles[i])
                          && x == PlatformName(dockerfiles[i])
  {
    var kept := DropBackups(dockerfiles);
    var files := RewriteAll(kept);
    var names := Basenames(files);
    forall x | x in names
      ensures exists i :: 0 <= i < |dockerfiles| && !EndsWithTilde(dockerfiles[i])
                          && x == PlatformName(dockerfiles[i])
    {
      var m :| 0 <= m < |names| && names[m] == x;
      assert x == Basename(Substitute(kept[m]));
      assert kept[m] in kept;
      var i :| 0 <= i < |dockerfiles| && dockerfiles[i] == kept[m];
      assert x == PlatformName(dockerfiles[i]);
    }
  }


  /** `get_docker_tag`: the image tag `<registry>/build.test.<platform>`. */
  function GetDockerTag(platform: string, registry: string): string
  {
    registry + "/build.test." + platform
  }

  /** Reads the platform back from a tag of the given registry. */
  function TagPlatform(tag: string, registry: string): Option<string>
  {
    var prefix := registry + "/build.test.";
    if |prefix| <= |tag| && tag[..|prefix|] == prefix then Some(tag[|prefix|..]) else None
  }

  /** The platform can be read back from its tag. */
  lemma TagRoundTrip(platform: string, registry: string)
    ensures TagPlatform(GetDockerTag(platform, registry), registry) == Some(platform)
  {
    var tag := GetDockerTag(platform, registry);
    assert tag[..|registry| + 12] == registry + "/build.test.";
    assert tag[|registry| + 12..] == platform;
  }

  /** Different platforms get different tags in the same registry. */
  lemma TagInjective(p: string, q: string, registry: string)
    requires GetDockerTag(p, registry) == GetDockerTag(q, registry)
    ensures p == q
  {
    TagRoundTrip(p, registry);
    TagRoundTrip(q, registry);
  }

  /** `get_dockerfile`: the file name made of the stem and the platform,
      joined onto the directory. */
  function GetDockerfile(platform: string, path: string): (file: string)
    ensures file == DirPart(path) + Stem + platform
  {
    assert (Stem + platform)[0] == 'D';
    PathJoin(path, Stem + platform)
  }

  /** The Dockerfiles of the given platforms in one directory, as a glob lists them. */
  function Dockerfiles(names: seq<string>, dir: string): (r: seq<string>)
    ensures |r| == |names|
    ensures forall i :: 0 <= i < |names| ==> r[i] == GetDockerfile(names[i], dir)
  {
    if names == [] then [] else [GetDockerfile(names[0], dir)] + Dockerfiles(names[1..], dir)
  }

  lemma {:induction false} DropBackupsOfDockerfiles(names: seq<string>, dir: string)
    ensures DropBackups(Dockerfiles(names, dir)) == Dockerfiles(DropBackups(names), dir)
  {
    if names != [] {
      var f := GetDockerfile(names[0], dir);
      assert f == (DirPart(dir) + Stem) + names[0];
      assert EndsWithTilde(f) <==> EndsWithTilde(names[0]);
      assert Dockerfiles(names, dir)[1..] == Dockerfiles(names[1..], dir);
      DropBackupsOfDockerfiles(names[1..], dir);
    }
  }

  lemma {:induction false} RewriteDockerfiles(names: seq<string>, dir: string)
    requires 'D' !in dir
    requires forall i :: 0 <= i < |names| ==> '\n' !in names[i]
    ensures RewriteAll(Dockerfiles(names, dir)) == PrefixAll(DirPart(dir), names)
  {
    if names != [] {
      var d := DirPart(dir);
      assert 'D' !in d;
      assert GetDockerfile(names[0], dir) == d + (Stem + names[0]);
      SubstitutePlainPrefix(d, Stem + names[0]);
      SubstituteStem(names[0]);
      assert Dockerfiles(names, dir)[1..] == Dockerfiles(names[1..], dir);
      RewriteDockerfiles(names[1..], dir);
    }
  }

  lemma {:induction false} BasenamesOfPrefixed(d: string, names: seq<string>)
    requires IsDirPrefix(d)
    requires forall i :: 0 <= i < |names| ==> '/' !in names[i]
    ensures Basenames(PrefixAll(d, names)) == names
  {
    if names != [] {
      BasenameAfterDir(d, names[0]);
      assert PrefixAll(d, names)[1..] == PrefixAll(d, names[1..]);
      BasenamesOfPrefixed(d, names[1..]);
    }
  }

  /** For Dockerfiles that share one directory, `get_platforms` returns the
      platform names of the non-backup files in lexicographic order. */
  lemma PlatformsOfDockerfiles(names: seq<string>, dir: string)
    requires 'D' !in dir
    requires forall i :: 0 <= i < |names| ==> '/' !in names[i] && '\n' !in names[i]
    ensures GetPlatforms(Dockerfiles(names, dir)) == SortStrings(DropBackups(names))
    ensures Sorted(GetPlatforms(Dockerfiles(names, dir)))
  {
    var kept := DropBackups(names);
    var d := DirPart(dir);
    DropBackupsOfDockerfiles(names, dir);
    forall i | 0 <= i < |kept| ensures '/' !in kept[i] && '\n' !in kept[i] {
      assert kept[i] in kept;
    }
    RewriteDockerfiles(kept, dir);
    SortPrefix(d, kept);
    var sorted := SortStrings(kept);
    forall i | 0 <= i < |sorted| ensures '/' !in sorted[i] {
      assert sorted[i] in multiset(kept);
      assert sorted[i] in kept;
    }
    BasenamesOfPrefixed(d, sorted);
  }

  /** Round trip: the Dockerfile `get_dockerfile` names for a platform is
      discovered as exactly that platform. */
  lemma DockerfileRoundTrip(platform: string)
    requires '/' !in platform && '\n' !in platform && !EndsWithTilde(platform)
    ensures GetPlatforms([GetDockerfile(platform, "docker")]) == [platform]
  {
    assert Dockerfiles([platform], "docker") == [GetDockerfile(platform, "docker")];
    PlatformsOfDockerfiles([platform], "docker");
    assert DropBackups([platform]) == [platform];
  }

  /** A directory holding the Dockerfiles of rpi and armv7 and a backup of
      the rpi one, listed by the glob in this order, yields ["armv7", "rpi"]. */
  lemma CatalogExample()
    ensures GetPlatforms(Dockerfiles(["rpi", "armv7", "rpi~"], "docker")) == ["armv7", "rpi"]
  {
    PlatformsOfDockerfiles(["rpi", "armv7", "rpi~"], "docker");
    ExampleNamesSorted();
  }

  lemma ExampleNamesSorted()
    ensures SortStrings(DropBackups(["rpi", "armv7", "rpi~"])) == ["armv7", "rpi"]
  {
    var names := ["rpi", "armv7", "rpi~"];
    assert names[1..] == ["armv7", "rpi~"] && names[1..][1..] == ["rpi~"];
    assert EndsWithTilde("rpi~") && !EndsWithTilde("armv7") && !EndsWithTilde("rpi");
    assert DropBackups(["rpi~"]) == [] by {
      assert ["rpi~"][1..] == [];
    }
    assert DropBackups(names) == ["rpi", "armv7"];
    assert !StrLe("rpi", "armv7") by {
      assert "rpi"[0] == 'r' && "armv7"[0] == 'a';
    }
    SortTwo("rpi", "armv7");
  }

  /** The Dockerfile of a one-line name in a directory without a 'D' is
      rewritten to the directory part followed by the name. */
  lemma SubstituteDockerfile(name: string, dir: string)
    requires 'D' !in dir && '\n' !in name
    ensures Substitute(GetDockerfile(name, dir)) == DirPart(dir) + name
  {
    assert GetDockerfile(name, dir) == DirPart(dir) + (Stem + name);
    SubstitutePlainPrefix(DirPart(dir), Stem + name);
    SubstituteStem(name);
  }

  /** The sort sees full paths: whatever the names x and y, with the
      Dockerfile of x in directory b and that of y in directory a, the names
      come out in the order of the directories. */
  lemma SortedByFullPath(x: string, y: string)
    requires '/' !in x && '\n' !in x && !EndsWithTilde(x)
    requires '/' !in y && '\n' !in y && !EndsWithTilde(y)
    ensures GetPlatforms([GetDockerfile(x, "b"), GetDockerfile(y, "a")]) == [y, x]
  {
    TwoDirectoriesRewritten(x, y);
    TwoDirectoriesSorted(x, y);
  }

  lemma TwoDirectoriesSorted(x: string, y: string)
    requires '/' !in x && '/' !in y
    ensures SortStrings(["b/" + x, "a/" + y]) == ["a/" + y, "b/" + x]
    ensures Basenames(["a/" + y, "b/" + x]) == [y, x]
  {
    assert !StrLe("b/" + x, "a/" + y) by {
      assert ("b/" + x)[0] == 'b' && ("a/" + y)[0] == 'a';
    }
    SortTwo("b/" + x, "a/" + y);
    var names := Basenames(["a/" + y, "b/" + x]);
    BasenameAfterDir("a/", y);
    BasenameAfterDir("b/", x);
    assert names[0] == y && names[1] == x;
  }

  /** Sorting two strings that are out of order swaps them. */
  lemma SortTwo(u: string, v: string)
    requires !StrLe(u, v)
    ensures SortStrings([u, v]) == [v, u]
  {
    assert [u, v][1..] == [v];
    assert SortStrings([v]) == [v] by {
      assert [v][1..] == [];
    }
    assert Insert(u, [v]) == [v, u] by {
      assert [v][1..] == [];
    }
  }

  /** Two paths that are not backups are both kept, in their order. */
  lemma KeepsTwo(u: string, v: string)
    requires !EndsWithTilde(u) && !EndsWithTilde(v)
    ensures DropBackups([u, v]) == [u, v]
  {
    assert [u, v][1..] == [v];
    assert DropBackups([v]) == [v] by {
      assert [v][1..] == [];
    }
  }

  lemma TwoDirectoriesRewritten(x: string, y: string)
    requires '\n' !in x && !EndsWithTilde(x)
    requires '\n' !in y && !EndsWithTilde(y)
    ensures var input := [GetDockerfile(x, "b"), GetDockerfile(y, "a")];
            DropBackups(input) == input && RewriteAll(input) == ["b/" + x, "a/" + y]
  {
    var input := [GetDockerfile(x, "b"), GetDockerfile(y, "a")];
    assert DirPart("b") == "b/" && DirPart("a") == "a/";
    assert GetDockerfile(x, "b") == ("b/" + Stem) + x;
    assert GetDockerfile(y, "a") == ("a/" + Stem) + y;
    KeepsTwo(GetDockerfile(x, "b"), GetDockerfile(y, "a"));
    var r := RewriteAll(input);
    SubstituteDockerfile(x, "b");
    SubstituteDockerfile(y, "a");
    assert r[0] == "b/" + x && r[1] == "a/" + y;
  }

  /** So the output is out of order whenever the name in directory `a`
      sorts after the name in directory `b`. */
  lemma UnsortedAcrossDirectories(x: string, y: string)
    requires '/' !in x && '\n' !in x && !EndsWithTilde(x)
    requires '/' !in y && '\n' !in y && !EndsWithTilde(y)
    requires !StrLe(y, x)
    ensures !Sorted(GetPlatforms([GetDockerfile(x, "b"), GetDockerfile(y, "a")]))
  {
    SortedByFullPath(x, y);
    assert !Sorted([y, x]) by {
      assert !StrLe([y, x][0], [y, x][1]);
    }
  }

  /** For instance `b/Dockerfile.build.test.x` and `a/Dockerfile.build.test.y`
      give `["y", "x"]`. */
  lemma UnsortedExample()
    ensures !Sorted(GetPlatforms([GetDockerfile("x", "b"), GetDockerfile("y", "a")]))
  {
    assert !StrLe("y", "x");
    UnsortedAcrossDirectories("x", "y");
  }
}
