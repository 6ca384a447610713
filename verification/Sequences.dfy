/** Facts about sequences and strings that several components use. */
module Sequences {

  function Min(a: int, b: int): (r: int)
  {
    if a < b then a else b
  }

  predicate Distinct<T(==)>(s: seq<T>) {
    forall i, j :: 0 <= i < j < |s| ==> s[i] != s[j]
  }

  /** The pieces one behind the other. */
  function Concat<T>(pieces: seq<seq<T>>): (s: seq<T>)
  {
    if pieces == [] then [] else Concat(pieces[..|pieces| - 1]) + pieces[|pieces| - 1]
  }

  lemma {:induction false} ConcatSnoc<T>(pieces: seq<seq<T>>, b: seq<T>)
    ensures Concat(pieces + [b]) == Concat(pieces) + b
  {
    assert (pieces + [b])[..|pieces|] == pieces;
  }

  lemma {:induction false} ConcatCons<T>(a: seq<T>, pieces: seq<seq<T>>)
    ensures Concat([a] + pieces) == a + Concat(pieces)
  {
    if pieces == [] {
      assert [a] + pieces == [] + [a];
      ConcatSnoc([], a);
    } else {
      var init, last := pieces[..|pieces| - 1], pieces[|pieces| - 1];
      ConcatCons(a, init);
      assert [a] + pieces == ([a] + init) + [last];
      ConcatSnoc([a] + init, last);
      ConcatSnoc(init, last);
      assert pieces == init + [last];
    }
  }

  // ------------------------------------------------------------------ multisets and sets of elements

  function Without<T>(s: seq<T>, i: nat): (r: seq<T>)
    requires i < |s|
    ensures |r| == |s| - 1
  {
    s[..i] + s[i + 1..]
  }

  lemma MultisetWithout<T>(a: seq<T>, i: nat)
    requires i < |a|
    ensures multiset(a) == multiset(Without(a, i)) + multiset{a[i]}
    ensures multiset(Without(a, i)) == multiset(a) - multiset{a[i]}
  {
    assert a == a[..i] + ([a[i]] + a[i + 1..]);
    assert multiset(a) == multiset(a[..i]) + multiset{a[i]} + multiset(a[i + 1..]);
  }

  lemma PlaceOf<T>(x: T, b: seq<T>) returns (i: nat)
    requires x in multiset(b)
    ensures i < |b| && b[i] == x
  {
    i :| 0 <= i < |b| && b[i] == x;
  }

  /** Different elements of b are at most as many as b has places. */
  lemma {:induction false} DistinctNotMore<T>(a: seq<T>, b: seq<T>)
    requires Distinct(a) && forall x :: x in a ==> x in b
    ensures |a| <= |b|
  {
    if a != [] {
      var n := |a| - 1;
      assert a[n] in a;
      var i :| 0 <= i < |b| && b[i] == a[n];
      forall x | x in a[..n] ensures x in Without(b, i) {
        var j :| 0 <= j < n && a[j] == x;
        assert x in b && x != a[n];
        var k :| 0 <= k < |b| && b[k] == x;
        assert Without(b, i)[if k < i then k else k - 1] == x;
      }
      DistinctNotMore(a[..n], Without(b, i));
    }
  }

  lemma {:induction false} SetOfSeq<T>(s: seq<T>)
    ensures |set x | x in s| <= |s|
  {
    if s != [] {
      SetOfSeq(s[1..]);
      assert (set x | x in s) == (set x | x in s[1..]) + {s[0]};
    }
  }

  lemma SubsetSmaller<T>(a: set<T>, b: set<T>)
    requires a <= b
    ensures |a| <= |b|
  {
    assert b == a + (b - a);
  }

  /** How often x occurs. */
  function Occurrences<T(==)>(s: seq<T>, x: T): (k: nat)
  {
    if s == [] then 0 else Occurrences(s[..|s| - 1], x) + if s[|s| - 1] == x then 1 else 0
  }

  lemma {:induction false} OccurrencesAppend<T>(a: seq<T>, b: seq<T>, x: T)
    ensures Occurrences(a + b, x) == Occurrences(a, x) + Occurrences(b, x)
    decreases |b|
  {
    if b == [] {
      assert a + b == a;
    } else {
      assert (a + b)[..|a + b| - 1] == a + b[..|b| - 1];
      OccurrencesAppend(a, b[..|b| - 1], x);
    }
  }

  // ------------------------------------------------------------------ lower case

  function LowerChar(c: char): (r: char)
  {
    if 'A' <= c <= 'Z' then c - 'A' + 'a' else c
  }

  function Lower(s: string): (r: string)
    ensures |r| == |s|
  {
    seq(|s|, i requires 0 <= i < |s| => LowerChar(s[i]))
  }

  const UPPER_CASE: string := "ABCDEFGHIJKLMNOPQRSTUVWXYZ"
  const LOWER_CASE: string := "abcdefghijklmnopqrstuvwxyz"

  /** The characters are the same but for the case of a letter. */
  predicate SameLetter(a: char, b: char) {
    || a == b
    || exists i :: 0 <= i < 26 && (a == UPPER_CASE[i] || a == LOWER_CASE[i]) && (b == UPPER_CASE[i] || b == LOWER_CASE[i])
  }

  lemma LettersInOrder(i: nat)
    requires i < 26
    ensures UPPER_CASE[i] == 'A' + i as char && LOWER_CASE[i] == 'a' + i as char
  {
  }

  lemma SameWhenLower(a: char, b: char)
    requires LowerChar(a) == LowerChar(b) && a != b
    ensures SameLetter(a, b)
  {
    var i := LowerChar(a) as int - 'a' as int;
    LettersInOrder(i);
  }

  lemma LowerCharSameIff(a: char, b: char)
    ensures LowerChar(a) == LowerChar(b) <==> SameLetter(a, b)
  {
    if LowerChar(a) == LowerChar(b) && a != b {
      SameWhenLower(a, b);
    }
    if i :| 0 <= i < 26 && (a == UPPER_CASE[i] || a == LOWER_CASE[i]) && (b == UPPER_CASE[i] || b == LOWER_CASE[i]) {
      LettersInOrder(i);
    }
  }

  /** Two texts have the same lower case exactly when they differ at most in the case of letters, and it has no capital. */
  lemma LowerSameIff(a: string, b: string)
    ensures Lower(a) == Lower(b) <==> |a| == |b| && forall i :: 0 <= i < |a| ==> SameLetter(a[i], b[i])
    ensures forall i :: 0 <= i < |a| ==> Lower(a)[i] !in UPPER_CASE
  {
    if |a| == |b| {
      forall i | 0 <= i < |a| ensures Lower(a)[i] == Lower(b)[i] <==> SameLetter(a[i], b[i]) {
        LowerCharSameIff(a[i], b[i]);
      }
    }
    forall i | 0 <= i < |a| ensures Lower(a)[i] !in UPPER_CASE {
      NoCapital(a[i]);
    }
  }

  lemma NoCapital(c: char)
    ensures LowerChar(c) !in UPPER_CASE
  {
    forall i | 0 <= i < 26 ensures LowerChar(c) != UPPER_CASE[i] {
      LettersInOrder(i);
    }
  }

  lemma LowerTwice(s: string)
    ensures Lower(Lower(s)) == Lower(s)
  {
  }
}
