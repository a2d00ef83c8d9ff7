/**
 * The parts of Python's `os.path` (POSIX flavour) and of `list.sort()`
 * on strings that the local backend relies on.
 */
module Paths {
  import opened Text

  /** Python `os.path.join(a, b)` for a relative `b`. */
  function Join(a: string, b: string): (r: string)
    ensures r == a + b || r == a + "/" + b
  {
    if a == [] || EndsWith(a, "/") then a + b else a + "/" + b
  }

  /** Python `s.rfind(c)` for a single character: the last index of `c`, or -1. */
  function RFind(s: string, c: char): (k: int)
    ensures -1 <= k < |s|
    ensures k >= 0 ==> s[k] == c
    ensures forall j :: k < j < |s| ==> s[j] != c
    decreases |s|
  {
    if s == [] then -1
    else if s[|s| - 1] == c then |s| - 1
    else RFind(s[..|s| - 1], c)
  }

  /**
   * Python `os.path.splitext(p)`: the extension starts at the last dot of
   * the last path component, unless only dots precede that dot in the
   * component (so `.bashrc` and `a/..` have no extension).
   */
  function SplitExt(p: string): (string, string) {
    var sep := RFind(p, '/');
    var dot := RFind(p, '.');
    if dot > sep && exists k :: sep + 1 <= k < dot && p[k] != '.' then (p[..dot], p[dot..])
    else (p, "")
  }

  /** The two parts of `splitext` put back together give the path. */
  lemma SplitExtParts(p: string)
    ensures SplitExt(p).0 + SplitExt(p).1 == p
    ensures var ext := SplitExt(p).1;
      ext == [] || (ext[0] == '.' && forall j :: 1 <= j < |ext| ==> ext[j] != '.' && ext[j] != '/')
  {
    var sep := RFind(p, '/');
    var dot := RFind(p, '.');
    if dot > sep && exists k :: sep + 1 <= k < dot && p[k] != '.' {
      assert p[..dot] + p[dot..] == p;
      var ext := p[dot..];
      forall j | 1 <= j < |ext| ensures ext[j] != '.' && ext[j] != '/' {
        assert ext[j] == p[dot + j];
      }
    }
  }

  /** A single-dot suffix with no further dot or slash. */
  predicate IsSuffix(x: string) {
    |x| >= 2 && x[0] == '.' && forall j :: 1 <= j < |x| ==> x[j] != '.' && x[j] != '/'
  }

  lemma RFindAppend(b: string, x: string, c: char)
    requires forall j :: 0 <= j < |x| ==> x[j] != c
    ensures RFind(b + x, c) == RFind(b, c)
    decreases |x|
  {
    if x != [] {
      var bx := b + x;
      assert bx[..|bx| - 1] == b + x[..|x| - 1];
      RFindAppend(b, x[..|x| - 1], c);
    } else {
      assert b + x == b;
    }
  }

  /**
   * Appending a suffix such as `.csv` to a base name that ends in an
   * ordinary character is undone by `splitext`.
   */
  lemma SplitExtOfSuffixed(base: string, x: string)
    requires |base| > 0 && base[|base| - 1] != '/' && base[|base| - 1] != '.'
    requires IsSuffix(x)
    ensures SplitExt(base + x) == (base, x)
  {
    var p := base + x;
    RFindAppend(base, x[1..], '.');
    RFindAppend(base, x[1..], '/');
    assert p == (base + [x[0]]) + x[1..];
    assert RFind(base + [x[0]], '.') == |base|;
    assert RFind(base + [x[0]], '/') == RFind(base, '/') by {
      assert (base + [x[0]])[..|base|] == base;
    }
    assert p[|base| - 1] != '.';
    assert p[..|base|] == base && p[|base|..] == x;
  }

  /** Python's ordering of strings: code point by code point, a proper prefix first. */
  predicate LexLeq(a: string, b: string)
    decreases |a|
  {
    a == [] || (b != [] && (a[0] < b[0] || (a[0] == b[0] && LexLeq(a[1..], b[1..]))))
  }

  lemma {:induction false} LexTotal(a: string, b: string)
    ensures LexLeq(a, b) || LexLeq(b, a)
    decreases |a|
  {
    if a != [] && b != [] && a[0] == b[0] {
      LexTotal(a[1..], b[1..]);
    }
  }

  lemma {:induction false} LexTrans(a: string, b: string, c: string)
    requires LexLeq(a, b) && LexLeq(b, c)
    ensures LexLeq(a, c)
    decreases |a|
  {
    if a != [] && a[0] == b[0] && b[0] == c[0] {
      LexTrans(a[1..], b[1..], c[1..]);
    }
  }

  lemma {:induction false} LexRefl(a: string)
    ensures LexLeq(a, a)
    decreases |a|
  {
    if a != [] {
      LexRefl(a[1..]);
    }
  }

  predicate Sorted(s: seq<string>) {
    forall i :: 0 <= i < |s| - 1 ==> LexLeq(s[i], s[i + 1])
  }

  function Insert(x: string, s: seq<string>): (r: seq<string>)
    requires Sorted(s)
    ensures Sorted(r) && multiset(r) == multiset(s) + multiset{x}
    ensures |r| > 0 && (r[0] == x || (s != [] && r[0] == s[0]))
  {
    if s == [] then [x]
    else if LexLeq(x, s[0]) then [x] + s
    else
      LexTotal(x, s[0]);
      var rest := Insert(x, s[1..]);
      assert s == [s[0]] + s[1..];
      [s[0]] + rest
  }

  /** Python `list.sort()` on a list of strings: sorted, and a permutation of its input. */
  function Sort(s: seq<string>): (r: seq<string>)
    ensures Sorted(r) && multiset(r) == multiset(s)
  {
    if s == [] then []
    else
      assert s == [s[0]] + s[1..];
      Insert(s[0], Sort(s[1..]))
  }
}
