/** String operations of the JavaScript runtime that the command-line core relies on:
    code-unit ordering and sorting, `split` on a character or on runs of a character
    class, `join`, `trim`, and the whitespace class `\s`. */
module Text {

  /** Concatenation is associative; stated once so that loops appending to a
      sequence need not rediscover it. */
  lemma AppendAssoc<T>(a: seq<T>, b: seq<T>, c: seq<T>)
    ensures (a + b) + c == a + (b + c)
  {
  }

  /** Lexicographic order on strings, as JavaScript's default `sort` and `<` compare them. */
  predicate Le(a: string, b: string)
  {
    if a == [] then true
    else if b == [] then false
    else if a[0] < b[0] then true
    else if a[0] > b[0] then false
    else Le(a[1..], b[1..])
  }

  lemma {:induction false} LeRefl(a: string)
    ensures Le(a, a)
  {
    if a != [] { LeRefl(a[1..]); }
  }

  lemma {:induction false} LeAntisymmetric(a: string, b: string)
    requires Le(a, b) && Le(b, a)
    ensures a == b
  {
    if a != [] && b != [] {
      LeAntisymmetric(a[1..], b[1..]);
      assert a == [a[0]] + a[1..] && b == [b[0]] + b[1..];
    }
  }

  lemma {:induction false} LeTotal(a: string, b: string)
    ensures Le(a, b) || Le(b, a)
  {
    if a != [] && b != [] && a[0] == b[0] { LeTotal(a[1..], b[1..]); }
  }

  lemma {:induction false} LeTransitive(a: string, b: string, c: string)
    requires Le(a, b) && Le(b, c)
    ensures Le(a, c)
  {
    if a != [] && b != [] && c != [] && a[0] == b[0] && b[0] == c[0] {
      LeTransitive(a[1..], b[1..], c[1..]);
    }
  }

  lemma {:induction false} MinimumExists(s: set<string>)
    requires s != {}
    ensures exists k :: k in s && forall o :: o in s ==> Le(k, o)
  {
    var x :| x in s;
    if s == {x} {
      LeRefl(x);
    } else {
      MinimumExists(s - {x});
      var k :| k in s - {x} && forall o :: o in s - {x} ==> Le(k, o);
      if Le(k, x) {
        assert forall o :: o in s ==> Le(k, o);
      } else {
        LeTotal(k, x);
        forall o | o in s ensures Le(x, o) {
          if o == x { LeRefl(x); } else { LeTransitive(x, k, o); }
        }
      }
    }
  }

  /** The smallest string of a non-empty set. */
  function Least(s: set<string>): (k: string)
    requires s != {}
    ensures k in s && forall o :: o in s ==> Le(k, o)
  {
    MinimumExists(s);
    forall a, b | a in s && b in s && Le(a, b) && Le(b, a) ensures a == b {
      LeAntisymmetric(a, b);
    }
    var k :| k in s && forall o :: o in s ==> Le(k, o);
    k
  }

  /** Strictly ascending: no duplicates, every element before the next. */
  predicate StrictlySorted(xs: seq<string>)
  {
    forall i, j :: 0 <= i < j < |xs| ==> Le(xs[i], xs[j]) && xs[i] != xs[j]
  }

  /** `Object.keys(o).sort()`: the keys of a set in ascending order. */
  function SortedKeys(s: set<string>): (r: seq<string>)
    ensures |r| == |s|
    ensures forall k :: k in r <==> k in s
    ensures StrictlySorted(r)
    decreases |s|
  {
    if s == {} then []
    else
      var k := Least(s);
      var rest := SortedKeys(s - {k});
      SortedCons(k, s, rest);
      [k] + rest
  }

  lemma SortedCons(k: string, s: set<string>, rest: seq<string>)
    requires k in s && forall o :: o in s ==> Le(k, o)
    requires |rest| == |s - {k}| && (forall o :: o in rest <==> o in s - {k}) && StrictlySorted(rest)
    ensures |[k] + rest| == |s|
    ensures forall o :: o in [k] + rest <==> o in s
    ensures StrictlySorted([k] + rest)
  {
    assert forall o :: o in rest ==> Le(k, o) && o != k;
    var r := [k] + rest;
    forall i, j | 0 <= i < j < |r| ensures Le(r[i], r[j]) && r[i] != r[j] {
      if i > 0 {
        assert r[i] == rest[i - 1] && r[j] == rest[j - 1];
      } else {
        assert r[j] == rest[j - 1];
      }
    }
  }

  /** Ascending with duplicates allowed, as `Array.prototype.sort()` leaves an array of strings. */
  predicate Sorted(xs: seq<string>)
  {
    forall i, j :: 0 <= i < j < |xs| ==> Le(xs[i], xs[j])
  }

  /** Places `x` before the first element that is not smaller than it. */
  function Insert(x: string, xs: seq<string>): (r: seq<string>)
    requires Sorted(xs)
    ensures Sorted(r)
    ensures multiset(r) == multiset(xs) + multiset{x}
  {
    if xs == [] then [x]
    else if Le(x, xs[0]) then
      InsertFront(x, xs);
      [x] + xs
    else
      var tail := Insert(x, xs[1..]);
      InsertBehind(x, xs, tail);
      [xs[0]] + tail
  }

  lemma InsertFront(x: string, xs: seq<string>)
    requires Sorted(xs) && xs != [] && Le(x, xs[0])
    ensures Sorted([x] + xs)
  {
    forall j | 0 <= j < |xs| ensures Le(x, xs[j]) {
      if j > 0 { LeTransitive(x, xs[0], xs[j]); }
    }
  }

  lemma InsertBehind(x: string, xs: seq<string>, tail: seq<string>)
    requires Sorted(xs) && xs != [] && !Le(x, xs[0])
    requires Sorted(tail) && multiset(tail) == multiset(xs[1..]) + multiset{x}
    ensures Sorted([xs[0]] + tail)
    ensures multiset([xs[0]] + tail) == multiset(xs) + multiset{x}
  {
    LeTotal(x, xs[0]);
    assert xs == [xs[0]] + xs[1..];
    assert forall y :: y in multiset(tail) ==> y == x || y in multiset(xs[1..]);
    forall j | 0 <= j < |tail| ensures Le(xs[0], tail[j]) {
      assert tail[j] in multiset(tail);
    }
  }

  /** `Array.prototype.sort()` on strings: an ascending permutation of the input. */
  function Sort(xs: seq<string>): (r: seq<string>)
    ensures Sorted(r)
    ensures multiset(r) == multiset(xs)
  {
    if xs == [] then []
    else
      assert xs == [xs[0]] + xs[1..];
      Insert(xs[0], Sort(xs[1..]))
  }

  /** The characters `\s` matches in a JavaScript regular expression, which `trim` also removes. */
  predicate IsSpace(c: char)
  {
    c == ' ' || c == '\t' || c == '\n' || c == '\r' || c == '\U{B}' || c == '\U{C}'
    || c == '\U{A0}' || c == '\U{1680}' || ('\U{2000}' <= c <= '\U{200A}')
    || c == '\U{2028}' || c == '\U{2029}' || c == '\U{202F}' || c == '\U{205F}'
    || c == '\U{3000}' || c == '\U{FEFF}'
  }

  /** The characters `[\r\n]` matches. */
  predicate IsLineBreak(c: char)
  {
    c == '\n' || c == '\r'
  }

  /** `String.prototype.trim`. */
  function Trim(s: string): (r: string)
    ensures |r| <= |s|
    ensures r != [] ==> !IsSpace(r[0]) && !IsSpace(r[|r| - 1])
  {
    TrimEnd(TrimStart(s))
  }

  function TrimStart(s: string): (r: string)
    ensures |r| <= |s| && r == s[|s| - |r|..]
    ensures r != [] ==> !IsSpace(r[0])
  {
    if s != [] && IsSpace(s[0]) then TrimStart(s[1..]) else s
  }

  function TrimEnd(s: string): (r: string)
    ensures |r| <= |s| && r == s[..|r|]
    ensures r != [] ==> !IsSpace(r[|r| - 1])
  {
    if s != [] && IsSpace(s[|s| - 1]) then TrimEnd(s[..|s| - 1]) else s
  }

  /** Index of the first occurrence of `c`, or `|s|` when there is none. */
  function IndexOfChar(s: string, c: char): (i: nat)
    ensures i <= |s|
    ensures i < |s| ==> s[i] == c
    ensures forall j :: 0 <= j < i ==> s[j] != c
  {
    if s == [] then 0
    else if s[0] == c then 0
    else 1 + IndexOfChar(s[1..], c)
  }

  /** `s.split(c)` for a one-character separator. */
  function Split(s: string, c: char): (r: seq<string>)
    ensures |r| >= 1
    ensures forall i :: 0 <= i < |r| ==> c !in r[i]
    decreases |s|
  {
    var i := IndexOfChar(s, c);
    if i == |s| then [s] else [s[..i]] + Split(s[i + 1..], c)
  }

  /** `parts.join(sep)`. */
  function Join(parts: seq<string>, sep: string): (r: string)
  {
    if parts == [] then ""
    else if |parts| == 1 then parts[0]
    else parts[0] + sep + Join(parts[1..], sep)
  }

  /** Splitting on a character and joining with it gives the string back. */
  lemma {:induction false} JoinSplit(s: string, c: char)
    ensures Join(Split(s, c), [c]) == s
    decreases |s|
  {
    var i := IndexOfChar(s, c);
    if i < |s| {
      JoinSplit(s[i + 1..], c);
      assert s == s[..i] + [c] + s[i + 1..];
    }
  }

  /** Joining pieces that do not contain `c` with `c` and splitting again gives the pieces back. */
  lemma {:induction false} SplitJoin(parts: seq<string>, c: char)
    requires |parts| >= 1
    requires forall i :: 0 <= i < |parts| ==> c !in parts[i]
    ensures Split(Join(parts, [c]), c) == parts
  {
    if |parts| == 1 {
      NoCharIndex(parts[0], c);
    } else {
      var s := Join(parts, [c]);
      assert s == parts[0] + [c] + Join(parts[1..], [c]);
      PrefixIndex(parts[0], c, Join(parts[1..], [c]));
      assert s[..|parts[0]|] == parts[0];
      assert s[|parts[0]| + 1..] == Join(parts[1..], [c]);
      SplitJoin(parts[1..], c);
    }
  }

  /** Splitting where the first separator follows `p`. */
  lemma SplitAt(p: string, c: char, rest: string)
    requires c !in p
    ensures Split(p + [c] + rest, c) == [p] + Split(rest, c)
  {
    PrefixIndex(p, c, rest);
    var s := p + [c] + rest;
    assert s[..|p|] == p;
    assert s[|p| + 1..] == rest;
  }

  /** A string without the separator splits into itself. */
  lemma SplitNone(s: string, c: char)
    requires c !in s
    ensures Split(s, c) == [s]
  {
    NoCharIndex(s, c);
  }

  lemma NoCharIndex(s: string, c: char)
    requires c !in s
    ensures IndexOfChar(s, c) == |s|
  {
  }

  lemma {:induction false} PrefixIndex(p: string, c: char, rest: string)
    requires c !in p
    ensures IndexOfChar(p + [c] + rest, c) == |p|
  {
    if p != [] {
      assert (p + [c] + rest)[1..] == p[1..] + [c] + rest;
      PrefixIndex(p[1..], c, rest);
    } else {
      assert (p + [c] + rest)[0] == c;
    }
  }

  /** End of the run of characters satisfying `sep` that starts at `i`. */
  function RunEnd(s: string, i: nat, sep: char -> bool): (j: nat)
    requires i <= |s|
    ensures i <= j <= |s|
    ensures forall k :: i <= k < j ==> sep(s[k])
    ensures j < |s| ==> !sep(s[j])
    decreases |s| - i
  {
    if i < |s| && sep(s[i]) then RunEnd(s, i + 1, sep) else i
  }

  /** Index of the first character satisfying `sep` at or after `i`, or `|s|`. */
  function FindFrom(s: string, i: nat, sep: char -> bool): (j: nat)
    requires i <= |s|
    ensures i <= j <= |s|
    ensures forall k :: i <= k < j ==> !sep(s[k])
    ensures j < |s| ==> sep(s[j])
    decreases |s| - i
  {
    if i == |s| || sep(s[i]) then i else FindFrom(s, i + 1, sep)
  }

  /** `s.split(/[class]+/)`: split on every maximal run of separator characters. */
  function SplitRuns(s: string, sep: char -> bool): (r: seq<string>)
    ensures |r| >= 1
    ensures forall i, k :: 0 <= i < |r| && 0 <= k < |r[i]| ==> !sep(r[i][k])
    decreases |s|
  {
    var i := FindFrom(s, 0, sep);
    if i == |s| then [s]
    else
      var j := RunEnd(s, i, sep);
      [s[..i]] + SplitRuns(s[j..], sep)
  }

  /** `s.split(/\s+/)`. */
  function SplitWords(s: string): (r: seq<string>)
    ensures |r| >= 1
  {
    SplitRuns(s, IsSpace)
  }

  /** Whether `pat` occurs in `s` at index `i`. */
  predicate At(s: string, i: nat, pat: string)
  {
    i + |pat| <= |s| && s[i..i + |pat|] == pat
  }

  /** Index of the first occurrence of `pat` at or after `from`, if any. */
  function Find(s: string, pat: string, from: nat): (r: nat)
    requires from <= |s|
    ensures from <= r <= |s|
    ensures r < |s| ==> At(s, r, pat)
    ensures forall k :: from <= k < r ==> !At(s, k, pat)
    decreases |s| - from
  {
    if from == |s| then |s|
    else if At(s, from, pat) then from
    else Find(s, pat, from + 1)
  }

  /** Whether `pat` occurs anywhere in `s` (`s.includes(pat)` for non-empty `pat`). */
  predicate Contains(s: string, pat: string)
  {
    exists i :: 0 <= i <= |s| && At(s, i, pat)
  }
}
