/**
 * POSIX paths as lists of components, their rendering, Python's path ordering,
 * `sorted` over paths, and directory globbing for `*.diff`.
 */
module Paths {
  import opened Text

  /** An absolute path, as its components: ["work", "povs", "a"] is /work/povs/a; [] is /. */
  type Path = seq<string>

  /** Components under some base directory (".git", "index.lock"). */
  type RelPath = seq<string>

  /** `str(path)`. */
  function Str(p: Path): string {
    if p == [] then "/" else Rendered(p)
  }

  function Rendered(p: Path): string {
    if p == [] then "" else Rendered(p[..|p| - 1]) + "/" + p[|p| - 1]
  }

  /** `path.name`: the final component, "" for /. */
  function Name(p: Path): string {
    if p == [] then "" else p[|p| - 1]
  }

  /** No '.' in `name` after index `i`. */
  predicate NoDotAfter(name: string, i: int) {
    forall j :: 0 <= j < |name| && i < j ==> name[j] != '.'
  }

  /** Index of the last '.' in a name, or -1. */
  function LastDot(name: string): (i: int)
    ensures -1 <= i < |name|
    ensures i >= 0 ==> name[i] == '.'
    ensures NoDotAfter(name, i)
  {
    if name == [] then -1
    else if name[|name| - 1] == '.' then |name| - 1
    else LastDot(name[..|name| - 1])
  }

  /** A dot with no dot after it is the one `LastDot` finds. */
  lemma LastDotUnique(name: string, d: int)
    requires 0 <= d < |name| && name[d] == '.' && NoDotAfter(name, d)
    ensures LastDot(name) == d
  {
  }

  /**
   * `PurePath.stem`: the name without its final suffix. A leading dot and a
   * trailing dot do not start a suffix (".bashrc" and "a." are their own stems).
   */
  function Stem(name: string): (stem: string)
    ensures StartsWith(name, stem)
    ensures stem != name ==> name[|stem|] == '.' && 0 < |stem| < |name| - 1 && NoDotAfter(name, |stem|)
    ensures stem != name <==> exists d :: 0 < d < |name| - 1 && name[d] == '.' && NoDotAfter(name, d)
  {
    var i := LastDot(name);
    assert forall d :: 0 < d < |name| - 1 && name[d] == '.' && NoDotAfter(name, d) ==> d == i by {
      forall d | 0 < d < |name| - 1 && name[d] == '.' && NoDotAfter(name, d)
        ensures d == i
      {
        LastDotUnique(name, d);
      }
    }
    if 0 < i < |name| - 1 then name[..i] else name
  }

  /** Python's `<=` on str: lexicographic by code point, a prefix first. */
  predicate StrLe(a: string, b: string) {
    a == [] || (b != [] && (a[0] < b[0] || (a[0] == b[0] && StrLe(a[1..], b[1..]))))
  }

  predicate StrLt(a: string, b: string) {
    StrLe(a, b) && a != b
  }

  /** Python's `<=` on POSIX paths: component lists compared lexicographically. */
  predicate PathLe(a: Path, b: Path) {
    a == [] || (b != [] && (StrLt(a[0], b[0]) || (a[0] == b[0] && PathLe(a[1..], b[1..]))))
  }

  lemma StrLeTotal(a: string, b: string)
    ensures StrLe(a, b) || StrLe(b, a)
  {
    if a != [] && b != [] && a[0] == b[0] {
      StrLeTotal(a[1..], b[1..]);
    }
  }

  lemma StrLeAntisymmetric(a: string, b: string)
    requires StrLe(a, b) && StrLe(b, a)
    ensures a == b
  {
    if a != [] {
      StrLeAntisymmetric(a[1..], b[1..]);
      assert a == [a[0]] + a[1..] && b == [b[0]] + b[1..];
    }
  }

  lemma StrLeTransitive(a: string, b: string, c: string)
    requires StrLe(a, b) && StrLe(b, c)
    ensures StrLe(a, c)
  {
    if a != [] && b != [] && c != [] && a[0] == b[0] == c[0] {
      StrLeTransitive(a[1..], b[1..], c[1..]);
    }
  }

  lemma StrLtTransitive(a: string, b: string, c: string)
    requires StrLt(a, b) && StrLt(b, c)
    ensures StrLt(a, c)
  {
    StrLeTransitive(a, b, c);
    if a == c {
      StrLeAntisymmetric(a, b);
    }
  }

  lemma PathLeReflexive(a: Path)
    ensures PathLe(a, a)
  {
    if a != [] {
      PathLeReflexive(a[1..]);
    }
  }

  lemma PathLeTotal(a: Path, b: Path)
    ensures PathLe(a, b) || PathLe(b, a)
  {
    if a != [] && b != [] {
      if a[0] == b[0] {
        PathLeTotal(a[1..], b[1..]);
      } else {
        StrLeTotal(a[0], b[0]);
      }
    }
  }

  lemma PathLeAntisymmetric(a: Path, b: Path)
    requires PathLe(a, b) && PathLe(b, a)
    ensures a == b
  {
    if a != [] {
      if a[0] != b[0] {
        StrLeAntisymmetric(a[0], b[0]);
      }
      PathLeAntisymmetric(a[1..], b[1..]);
      assert a == [a[0]] + a[1..] && b == [b[0]] + b[1..];
    }
  }

  lemma PathLeTransitive(a: Path, b: Path, c: Path)
    requires PathLe(a, b) && PathLe(b, c)
    ensures PathLe(a, c)
  {
    if a != [] && b != [] && c != [] {
      if a[0] == b[0] && b[0] == c[0] {
        PathLeTransitive(a[1..], b[1..], c[1..]);
      } else if a[0] != b[0] && b[0] != c[0] {
        StrLtTransitive(a[0], b[0], c[0]);
      }
    }
  }

  predicate Sorted(s: seq<Path>) {
    forall i, j :: 0 <= i < j < |s| ==> PathLe(s[i], s[j])
  }

  function Insert(p: Path, s: seq<Path>): (r: seq<Path>)
    requires Sorted(s)
    ensures Sorted(r)
    ensures multiset(r) == multiset(s) + multiset{p}
    decreases |s|, 1
  {
    if s == [] then [p]
    else if PathLe(p, s[0]) then
      assert forall j :: 0 < j < |s| ==> PathLe(p, s[j]) by {
        forall j | 0 < j < |s| { PathLeTransitive(p, s[0], s[j]); }
      }
      [p] + s
    else
      PathLeTotal(p, s[0]);
      var rest := Insert(p, s[1..]);
      assert s == [s[0]] + s[1..];
      InsertBounded(p, s[1..], s[0]);
      [s[0]] + rest
  }

  /** A lower bound of a sorted sequence and of the inserted path bounds the result. */
  lemma {:induction false} InsertBounded(p: Path, s: seq<Path>, b: Path)
    requires Sorted(s) && PathLe(b, p) && forall j :: 0 <= j < |s| ==> PathLe(b, s[j])
    ensures forall k :: 0 <= k < |Insert(p, s)| ==> PathLe(b, Insert(p, s)[k])
    decreases |s|, 2
  {
    if s != [] && !PathLe(p, s[0]) {
      InsertBounded(p, s[1..], b);
      assert Insert(p, s) == [s[0]] + Insert(p, s[1..]);
    }
  }

  /** `sorted(paths)`: the same paths, in ascending path order. */
  function SortPaths(s: seq<Path>): (r: seq<Path>)
    ensures Sorted(r)
    ensures multiset(r) == multiset(s)
  {
    if s == [] then []
    else
      assert s == [s[0]] + s[1..];
      Insert(s[0], SortPaths(s[1..]))
  }

  /** The first element of a sorted sequence is below every element. */
  lemma SortedHeadLeast(a: seq<Path>, x: Path)
    requires Sorted(a) && x in a
    ensures PathLe(a[0], x)
  {
    var i :| 0 <= i < |a| && a[i] == x;
    if i == 0 {
      PathLeReflexive(x);
    }
  }

  /** Dropping the first element keeps a sequence sorted and removes one copy of it. */
  lemma SortedTail(a: seq<Path>)
    requires Sorted(a) && a != []
    ensures Sorted(a[1..])
    ensures multiset(a[1..]) == multiset(a) - multiset{a[0]}
  {
    assert a == [a[0]] + a[1..];
    assert multiset(a) == multiset{a[0]} + multiset(a[1..]);
  }

  /** Two sorted arrangements of the same paths start with the same path. */
  lemma SortedSameHead(a: seq<Path>, b: seq<Path>)
    requires Sorted(a) && Sorted(b) && multiset(a) == multiset(b) && a != []
    ensures b != [] && a[0] == b[0]
  {
    assert |b| == |multiset(b)| == |multiset(a)| == |a|;
    assert a[0] in multiset(b) && b[0] in multiset(a);
    SortedHeadLeast(b, a[0]);
    SortedHeadLeast(a, b[0]);
    PathLeAntisymmetric(a[0], b[0]);
  }

  /** Sorting is determined by its contract: two sorted arrangements of the same paths are equal. */
  lemma {:induction false} SortedPermutationsEqual(a: seq<Path>, b: seq<Path>)
    requires Sorted(a) && Sorted(b) && multiset(a) == multiset(b)
    ensures a == b
  {
    if a != [] {
      SortedSameHead(a, b);
      SortedTail(a);
      SortedTail(b);
      SortedPermutationsEqual(a[1..], b[1..]);
      assert a == [a[0]] + a[1..] && b == [b[0]] + b[1..];
    }
  }

  /** The names in a directory include one that `*.diff` matches. */
  predicate HasDiff(names: set<string>) {
    exists n :: n in names && EndsWith(n, ".diff")
  }
}
