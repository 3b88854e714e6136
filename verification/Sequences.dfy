/** Order-preserving removal and the subsequence relation. */
module Sequences {
  predicate NoDuplicates<T(==)>(s: seq<T>) {
    forall i, j :: 0 <= i < j < |s| ==> s[i] != s[j]
  }

  /** The elements of `s` outside `dropped`, in order. */
  function Without<T(==, !new)>(s: seq<T>, dropped: set<T>): (r: seq<T>)
    ensures |r| <= |s|
    ensures forall x {:trigger x in r} :: x in r <==> x in s && x !in dropped
  {
    if s == [] then []
    else if s[0] in dropped then Without(s[1..], dropped)
    else [s[0]] + Without(s[1..], dropped)
  }

  lemma {:induction false} DistinctConcat<T(!new)>(a: seq<T>, b: seq<T>)
    ensures NoDuplicates(a + b) <==> NoDuplicates(a) && NoDuplicates(b) && forall x :: x in a ==> x !in b
  {
    assert forall i :: 0 <= i < |a| ==> (a + b)[i] == a[i];
    assert forall j :: 0 <= j < |b| ==> (a + b)[|a| + j] == b[j];
    if x :| x in a && x in b {
      var i, j :| 0 <= i < |a| && a[i] == x && 0 <= j < |b| && b[j] == x;
      assert (a + b)[i] == (a + b)[|a| + j];
    } else if NoDuplicates(a) && NoDuplicates(b) {
      forall i, j | 0 <= i < j < |a + b| ensures (a + b)[i] != (a + b)[j] {
        if i < |a| <= j {
          assert a[i] in a && b[j - |a|] in b;
        }
      }
    }
  }

  lemma {:induction false} WithoutKeepsDistinct<T(!new)>(s: seq<T>, dropped: set<T>)
    requires NoDuplicates(s)
    ensures NoDuplicates(Without(s, dropped))
  {
    if s != [] {
      assert s == [s[0]] + s[1..];
      DistinctConcat([s[0]], s[1..]);
      WithoutKeepsDistinct(s[1..], dropped);
      if s[0] !in dropped {
        assert s[0] !in Without(s[1..], dropped);
        DistinctConcat([s[0]], Without(s[1..], dropped));
      }
    }
  }

  lemma {:induction false} WithoutTwice<T(!new)>(s: seq<T>, a: set<T>, b: set<T>)
    ensures Without(Without(s, a), b) == Without(s, a + b)
  {
    if s != [] {
      WithoutTwice(s[1..], a, b);
      if s[0] !in a {
        var r := Without(s[1..], a);
        assert ([s[0]] + r)[1..] == r;
      }
    }
  }

  lemma {:induction false} WithoutDisjoint<T(!new)>(s: seq<T>, dropped: set<T>)
    requires forall x :: x in s ==> x !in dropped
    ensures Without(s, dropped) == s
  {
    if s != [] {
      assert forall x :: x in s[1..] ==> x in s;
      WithoutDisjoint(s[1..], dropped);
    }
  }

  lemma {:induction false} WithoutHead<T(!new)>(s: seq<T>)
    requires NoDuplicates(s) && s != []
    ensures Without(s, {s[0]}) == s[1..]
  {
    WithoutDisjoint(s[1..], {s[0]});
  }

  /** `a` is obtained from `b` by deleting elements. */
  predicate Subsequence<T(==)>(a: seq<T>, b: seq<T>) {
    if a == [] then true
    else if b == [] then false
    else if a[0] == b[0] then Subsequence(a[1..], b[1..])
    else Subsequence(a, b[1..])
  }

  lemma {:induction false} SubsequenceReflexive<T>(a: seq<T>)
    ensures Subsequence(a, a)
  {
    if a != [] { SubsequenceReflexive(a[1..]); }
  }

  lemma {:induction false} SubsequenceGrow<T>(a: seq<T>, b: seq<T>, x: T)
    requires Subsequence(a, b)
    ensures Subsequence(a, [x] + b)
    decreases |b|, 1
  {
    assert ([x] + b)[1..] == b;
    if a != [] && a[0] == x {
      SubsequenceTail(a, b);
    }
  }

  lemma {:induction false} SubsequenceTail<T>(a: seq<T>, b: seq<T>)
    requires a != [] && Subsequence(a, b)
    ensures Subsequence(a[1..], b)
    decreases |b|, 0
  {
    assert b == [b[0]] + b[1..];
    if a[0] == b[0] {
      SubsequenceGrow(a[1..], b[1..], b[0]);
    } else {
      SubsequenceTail(a, b[1..]);
      SubsequenceGrow(a[1..], b[1..], b[0]);
    }
  }

  lemma {:induction false} SubsequenceTransitive<T>(a: seq<T>, b: seq<T>, c: seq<T>)
    requires Subsequence(a, b) && Subsequence(b, c)
    ensures Subsequence(a, c)
    decreases |c|
  {
    if a != [] {
      if b[0] != c[0] {
        SubsequenceTransitive(a, b, c[1..]);
        assert c == [c[0]] + c[1..];
        SubsequenceGrow(a, c[1..], c[0]);
      } else if a[0] == b[0] {
        SubsequenceTransitive(a[1..], b[1..], c[1..]);
      } else {
        SubsequenceTransitive(a, b[1..], c[1..]);
        assert c == [c[0]] + c[1..];
        SubsequenceGrow(a, c[1..], c[0]);
      }
    }
  }

  lemma {:induction false} SubsequencePrefix<T>(p: seq<T>, a: seq<T>, b: seq<T>)
    requires Subsequence(a, b)
    ensures Subsequence(p + a, p + b)
  {
    if p == [] {
      assert p + a == a && p + b == b;
    } else {
      SubsequencePrefix(p[1..], a, b);
      assert (p + a)[1..] == p[1..] + a && (p + b)[1..] == p[1..] + b;
    }
  }

  lemma {:induction false} SubsequenceSuffix<T>(a: seq<T>, b: seq<T>, q: seq<T>)
    requires Subsequence(a, b)
    ensures Subsequence(a + q, b + q)
    decreases |b|
  {
    if b == [] {
      SubsequenceReflexive(q);
      assert a + q == q && b + q == q;
    } else {
      assert b + q == [b[0]] + (b[1..] + q);
      if a != [] && a[0] == b[0] {
        SubsequenceSuffix(a[1..], b[1..], q);
        assert a + q == [a[0]] + (a[1..] + q);
      } else {
        SubsequenceSuffix(a, b[1..], q);
        SubsequenceGrow(a + q, b[1..] + q, b[0]);
      }
    }
  }

  lemma {:induction false} WithoutIsSubsequence<T(!new)>(s: seq<T>, dropped: set<T>)
    ensures Subsequence(Without(s, dropped), s)
  {
    if s != [] {
      WithoutIsSubsequence(s[1..], dropped);
      assert s == [s[0]] + s[1..];
      if s[0] in dropped {
        SubsequenceGrow(Without(s[1..], dropped), s[1..], s[0]);
      }
    }
  }
}
