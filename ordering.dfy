/** Python's ordering of `str` values (code point by code point, a proper prefix first)
    and `sorted` applied to the names of a directory listing. */
module Ordering {

  /** `a < b` on Python strings. */
  predicate Less(a: string, b: string) {
    if |a| == 0 then |b| > 0
    else if |b| == 0 then false
    else if a[0] == b[0] then Less(a[1..], b[1..])
    else a[0] < b[0]
  }

  /** The lexicographic order by code point: `a` is a proper prefix of `b`, or at the first
      position where they differ `a` has the smaller code point. */
  ghost predicate Lexicographic(a: string, b: string) {
    || (|a| < |b| && a == b[..|a|])
    || (exists i :: 0 <= i < |a| && i < |b| && a[..i] == b[..i] && a[i] < b[i])
  }

  /** Dropping a common first character keeps a proper prefix a proper prefix, both ways. */
  lemma PrefixTail(a: string, b: string)
    requires |a| > 0 && |b| > 0 && a[0] == b[0]
    ensures (|a| < |b| && a == b[..|a|]) <==> (|a[1..]| < |b[1..]| && a[1..] == b[1..][..|a[1..]|])
  {
    if |a| <= |b| {
      assert b[..|a|] == [b[0]] + b[1..][..|a| - 1];
    }
    assert a == [a[0]] + a[1..];
  }

  /** Dropping a common first character moves the first difference one place, both ways. */
  lemma DifferenceTail(a: string, b: string)
    requires |a| > 0 && |b| > 0 && a[0] == b[0]
    ensures (exists i :: 0 <= i < |a| && i < |b| && a[..i] == b[..i] && a[i] < b[i]) <==>
            (exists i :: 0 <= i < |a[1..]| && i < |b[1..]| && a[1..][..i] == b[1..][..i] && a[1..][i] < b[1..][i])
  {
    var a1, b1 := a[1..], b[1..];
    if i :| 0 <= i < |a1| && i < |b1| && a1[..i] == b1[..i] && a1[i] < b1[i] {
      assert a[..i + 1] == [a[0]] + a1[..i] && b[..i + 1] == [b[0]] + b1[..i];
      assert a[i + 1] == a1[i] && b[i + 1] == b1[i];
    }
    forall i | 0 < i <= |a| && i <= |b| ensures a[..i][0] == a[0] && b[..i][0] == b[0] {
    }
    if i :| 0 <= i < |a| && i < |b| && a[..i] == b[..i] && a[i] < b[i] {
      assert i > 0;
      assert a1[..i - 1] == a[..i][1..] && b1[..i - 1] == b[..i][1..];
      assert a1[i - 1] == a[i] && b1[i - 1] == b[i];
    }
  }

  /** When the first characters differ, they alone decide. */
  lemma DifferenceFirst(a: string, b: string)
    requires |a| > 0 && |b| > 0 && a[0] != b[0]
    ensures Lexicographic(a, b) <==> a[0] < b[0]
  {
    assert a[..0] == b[..0];
    forall i | 0 < i <= |a| && i <= |b| ensures a[..i][0] == a[0] && b[..i][0] == b[0] {
    }
    assert |a| < |b| ==> b[..|a|][0] == b[0];
  }

  /** The order is lexicographic by code point: a proper prefix comes first, and otherwise
      the first position where the strings differ decides. */
  lemma {:induction false} LessLexicographic(a: string, b: string)
    ensures Less(a, b) <==> Lexicographic(a, b)
    decreases |a|
  {
    if |a| > 0 && |b| > 0 {
      if a[0] == b[0] {
        LessLexicographic(a[1..], b[1..]);
        PrefixTail(a, b);
        DifferenceTail(a, b);
      } else {
        DifferenceFirst(a, b);
      }
    } else if |a| == 0 {
      assert |b| > 0 ==> a == b[..|a|];
    }
  }

  /** No string is less than itself. */
  lemma {:induction false} LessIrreflexive(a: string)
    ensures !Less(a, a)
  {
    if |a| > 0 { LessIrreflexive(a[1..]); }
  }

  /** The order is transitive. */
  lemma {:induction false} LessTransitive(a: string, b: string, c: string)
    requires Less(a, b) && Less(b, c)
    ensures Less(a, c)
  {
    if |a| > 0 && a[0] == b[0] && b[0] == c[0] {
      LessTransitive(a[1..], b[1..], c[1..]);
    }
  }

  /** Any two different strings are ordered one way or the other. */
  lemma {:induction false} LessTotal(a: string, b: string)
    requires a != b
    ensures Less(a, b) || Less(b, a)
  {
    if |a| > 0 && |b| > 0 && a[0] == b[0] {
      assert a == [a[0]] + a[1..] && b == [b[0]] + b[1..];
      LessTotal(a[1..], b[1..]);
    }
  }

  /** The order never holds both ways. */
  lemma LessAsymmetric(a: string, b: string)
    requires Less(a, b)
    ensures !Less(b, a)
  {
    if Less(b, a) {
      LessTransitive(a, b, a);
      LessIrreflexive(a);
    }
  }

  /** Every element after an earlier one is greater: a strictly increasing, hence duplicate-free, sequence. */
  ghost predicate StrictlySorted(s: seq<string>) {
    forall i, j :: 0 <= i < j < |s| ==> Less(s[i], s[j])
  }

  /** No name occurs twice. */
  ghost predicate Distinct(s: seq<string>) {
    forall i, j :: 0 <= i < j < |s| ==> s[i] != s[j]
  }

  /** A strictly increasing sequence repeats no name. */
  lemma SortedDistinct(s: seq<string>)
    requires StrictlySorted(s)
    ensures Distinct(s)
  {
    forall i, j | 0 <= i < j < |s| ensures s[i] != s[j] {
      LessIrreflexive(s[i]);
    }
  }

  /** The least name of a non-empty finite set. */
  method Least(names: set<string>) returns (m: string)
    requires names != {}
    ensures m in names
    ensures forall x :: x in names && x != m ==> Less(m, x)
  {
    m :| m in names;
    var rest := names - {m};
    while rest != {}
      invariant rest <= names && m in names && m !in rest
      invariant forall x :: x in names - rest && x != m ==> Less(m, x)
      decreases rest
    {
      var y :| y in rest;
      if Less(y, m) {
        forall x | x in names - rest && x != m ensures Less(y, x) {
          LessTransitive(y, m, x);
        }
        m := y;
      } else {
        LessTotal(m, y);
      }
      rest := rest - {y};
    }
  }

  /** `sorted(names)` for a set of distinct names: every name exactly once, in increasing order. */
  method SortNames(names: set<string>) returns (s: seq<string>)
    ensures StrictlySorted(s)
    ensures forall x :: x in s <==> x in names
    ensures |s| == |names|
  {
    s := [];
    var rest := names;
    while rest != {}
      invariant rest <= names
      invariant forall x :: x in names <==> x in s || x in rest
      invariant forall x :: x in s ==> x !in rest
      invariant forall x, y :: x in s && y in rest ==> Less(x, y)
      invariant StrictlySorted(s)
      invariant |s| + |rest| == |names|
      decreases rest
    {
      var m := Least(rest);
      s := s + [m];
      rest := rest - {m};
    }
  }

  /** A set of names has only one strictly sorted arrangement, so the order `SortNames`
      produces is the order Python's `sorted` produces. */
  lemma {:induction false} SortedUnique(a: seq<string>, b: seq<string>)
    requires StrictlySorted(a) && StrictlySorted(b)
    requires forall x :: x in a <==> x in b
    ensures a == b
  {
    if a == [] {
      assert forall j :: 0 <= j < |b| ==> b[j] in b;
    } else {
      assert b != [] by { assert a[0] in b; }
      if a[0] != b[0] {
        assert b[0] in a && a[0] in b;
        var i :| 0 <= i < |a| && a[i] == b[0];
        var j :| 0 <= j < |b| && b[j] == a[0];
        assert i > 0 && j > 0;
        LessAsymmetric(a[0], a[i]);
      }
      forall x ensures x in a[1..] <==> x in b[1..] {
        if x in a[1..] {
          var i :| 1 <= i < |a| && a[i] == x;
          LessIrreflexive(a[0]);
          assert x in b;
        }
        if x in b[1..] {
          var j :| 1 <= j < |b| && b[j] == x;
          LessIrreflexive(b[0]);
          assert x in a;
        }
      }
      SortedUnique(a[1..], b[1..]);
      assert a == [a[0]] + a[1..] && b == [b[0]] + b[1..];
    }
  }
}
