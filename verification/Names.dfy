/** Machine names: their byte-wise order, the sort the daemon uses, and counting over lists. */
module Names {

  type Name = string

  datatype Option<+T> = None | Some(value: T)

  /** The order Go's `<` gives to strings. */
  predicate Less(a: Name, b: Name) {
    if b == "" then false
    else if a == "" then true
    else if a[0] != b[0] then a[0] < b[0]
    else Less(a[1..], b[1..])
  }

  lemma {:induction false} LessIsAsymmetric(a: Name, b: Name)
    ensures !(Less(a, b) && Less(b, a))
  {
    if a != "" && b != "" && a[0] == b[0] {
      LessIsAsymmetric(a[1..], b[1..]);
    }
  }

  lemma {:induction false} LessIsTotal(a: Name, b: Name)
    ensures Less(a, b) || a == b || Less(b, a)
  {
    if a != "" && b != "" && a[0] == b[0] {
      LessIsTotal(a[1..], b[1..]);
      assert a == [a[0]] + a[1..] && b == [b[0]] + b[1..];
    }
  }

  lemma {:induction false} LessIsTransitive(a: Name, b: Name, c: Name)
    requires Less(a, b) && Less(b, c)
    ensures Less(a, c)
  {
    if a != "" && a[0] == b[0] == c[0] {
      LessIsTransitive(a[1..], b[1..], c[1..]);
    }
  }

  /** Names are totally ordered. */
  lemma {:induction false} NameOrder()
    ensures forall a: Name, b: Name {:trigger Less(a, b)} :: Less(a, b) ==> a != b && !Less(b, a)
    ensures forall a: Name, b: Name {:trigger Less(a, b)} :: Less(a, b) || a == b || Less(b, a)
    ensures forall a: Name, b: Name, c: Name {:trigger Less(a, b), Less(b, c)} :: Less(a, b) && Less(b, c) ==>
              Less(a, c)
  {
    forall a: Name, b: Name ensures !(Less(a, b) && Less(b, a)) && (Less(a, b) || a == b || Less(b, a)) {
      LessIsAsymmetric(a, b);
      LessIsTotal(a, b);
    }
    forall a: Name, b: Name, c: Name | Less(a, b) && Less(b, c) ensures Less(a, c) {
      LessIsTransitive(a, b, c);
    }
  }

  /** It is the byte-wise order: a name comes after its prefixes, and the first difference decides. */
  lemma {:induction false} LessIsByteWise(a: Name, b: Name)
    ensures Less(a, b) <==>
            || (|a| < |b| && a == b[..|a|])
            || exists i :: 0 <= i < |a| && i < |b| && a[..i] == b[..i] && a[i] < b[i]
  {
    if a != "" && b != "" && a[0] == b[0] {
      var c, d := a[1..], b[1..];
      LessIsByteWise(c, d);
      assert a == [a[0]] + c && b == [b[0]] + d;
      if i :| 0 <= i < |c| && i < |d| && c[..i] == d[..i] && c[i] < d[i] {
        assert a[..i + 1] == [a[0]] + c[..i] && b[..i + 1] == [b[0]] + d[..i];
        assert a[i + 1] < b[i + 1];
      }
      if i :| 0 <= i < |a| && i < |b| && a[..i] == b[..i] && a[i] < b[i] {
        assert i > 0 && c[..i - 1] == a[..i][1..] && d[..i - 1] == b[..i][1..];
        assert c[i - 1] < d[i - 1];
      }
      if |a| < |b| && a == b[..|a|] {
        assert c == d[..|c|];
      }
      if |c| < |d| && c == d[..|c|] {
        assert a == b[..|a|];
      }
    } else if a != "" && b != "" {
      assert a[..0] == b[..0];
    }
  }

  // --- Counting ---

  function Count<T>(s: seq<T>, p: T -> bool): (k: nat) {
    if s == [] then 0
    else Count(s[..|s| - 1], p) + if p(s[|s| - 1]) then 1 else 0
  }

  lemma {:induction false} CountOfConcat<T>(a: seq<T>, b: seq<T>, p: T -> bool)
    ensures Count(a + b, p) == Count(a, p) + Count(b, p)
  {
    if b == [] {
      assert a + b == a;
    } else {
      var last := |b| - 1;
      assert (a + b)[..|a + b| - 1] == a + b[..last];
      CountOfConcat(a, b[..last], p);
    }
  }

  /** Counting does not depend on the order of the list. */
  lemma {:induction false} CountOfPermutation<T>(a: seq<T>, b: seq<T>, p: T -> bool)
    requires multiset(a) == multiset(b)
    ensures Count(a, p) == Count(b, p)
  {
    if a == [] {
      assert |multiset(b)| == 0;
    } else {
      var last := |a| - 1;
      var x := a[last];
      assert a == a[..last] + [x];
      assert x in multiset(b);
      var i :| 0 <= i < |b| && b[i] == x;
      var rest := b[..i] + b[i + 1..];
      assert b == b[..i] + ([x] + b[i + 1..]);
      assert multiset(rest) == multiset(b) - multiset{x};
      assert multiset(a[..last]) == multiset(rest);
      CountOfPermutation(a[..last], rest, p);
      CountOfConcat(b[..i], b[i + 1..], p);
      CountOfConcat([x], b[i + 1..], p);
      CountOfConcat(b[..i], [x] + b[i + 1..], p);
    }
  }

  predicate Distinct<T(==)>(s: seq<T>) {
    forall i, j :: 0 <= i < j < |s| ==> s[i] != s[j]
  }

  function Select<T(==)>(s: seq<T>, p: T -> bool): (r: set<T>) {
    set x | x in s && p(x)
  }

  /** In a list without repetition, counting is the size of a set. */
  lemma {:induction false} CountOfDistinct<T>(s: seq<T>, p: T -> bool)
    requires Distinct(s)
    ensures Count(s, p) == |Select(s, p)|
  {
    if s == [] {
      assert Select(s, p) == {};
    } else {
      var last := |s| - 1;
      CountOfDistinct(s[..last], p);
      var rest := Select(s[..last], p);
      assert s == s[..last] + [s[last]];
      if p(s[last]) {
        assert Select(s, p) == rest + {s[last]};
      } else {
        assert Select(s, p) == rest;
      }
    }
  }

  /** A subset at least as large as its superset is the whole of it. */
  lemma {:induction false} FullSubset<T>(a: set<T>, b: set<T>)
    requires a <= b && |a| >= |b|
    ensures a == b
  {
    assert b == a + (b - a);
  }

  lemma {:induction false} SubsetSize<T>(a: set<T>, b: set<T>)
    requires a <= b
    ensures |a| <= |b|
  {
    assert b == a + (b - a);
  }

  /** A non-empty set of names has a greatest one, and a least one. */
  lemma {:induction false} Greatest(s: set<Name>) returns (top: Name)
    requires s != {}
    ensures top in s && forall y :: y in s && y != top ==> Less(y, top)
  {
    top :| top in s;
    if s != {top} {
      var other := Greatest(s - {top});
      LessIsTotal(top, other);
      if Less(top, other) {
        top := other;
      } else {
        forall y | y in s && y != top ensures Less(y, top) {
          if y != other {
            LessIsTransitive(y, other, top);
          }
        }
      }
    }
  }

  lemma {:induction false} Least(s: set<Name>) returns (bottom: Name)
    requires s != {}
    ensures bottom in s && forall y :: y in s && y != bottom ==> Less(bottom, y)
  {
    bottom :| bottom in s;
    if s != {bottom} {
      var other := Least(s - {bottom});
      LessIsTotal(other, bottom);
      if Less(other, bottom) {
        bottom := other;
      } else {
        forall y | y in s && y != bottom ensures Less(bottom, y) {
          if y != other {
            LessIsTransitive(bottom, other, y);
          }
        }
      }
    }
  }

  // --- Sorting ---

  predicate IsSorted(s: seq<Name>) {
    forall i, j :: 0 <= i < j < |s| ==> !Less(s[j], s[i])
  }

  function Insert(x: Name, s: seq<Name>): (r: seq<Name>)
    ensures multiset(r) == multiset(s) + multiset{x}
  {
    if s == [] then [x]
    else if Less(x, s[0]) then [x] + s
    else
      assert s == [s[0]] + s[1..];
      [s[0]] + Insert(x, s[1..])
  }

  /** What slices.Sort leaves in the slice. */
  function Sorted(s: seq<Name>): (r: seq<Name>)
    ensures multiset(r) == multiset(s) && |r| == |s|
  {
    if s == [] then []
    else
      assert s == s[..|s| - 1] + [s[|s| - 1]];
      var r := Insert(s[|s| - 1], Sorted(s[..|s| - 1]));
      assert |multiset(r)| == |multiset(s)|;
      r
  }

  lemma {:induction false} InsertKeepsSorted(x: Name, s: seq<Name>)
    requires IsSorted(s)
    ensures IsSorted(Insert(x, s))
  {
    NameOrder();
    if s != [] && !Less(x, s[0]) {
      InsertKeepsSorted(x, s[1..]);
      var r := Insert(x, s[1..]);
      forall i | 0 <= i < |r| ensures !Less(r[i], s[0]) {
        assert r[i] in multiset(r);
        if r[i] != x {
          assert r[i] in multiset(s[1..]);
        }
      }
    }
  }

  lemma {:induction false} SortedIsSorted(s: seq<Name>)
    ensures IsSorted(Sorted(s))
  {
    if s != [] {
      SortedIsSorted(s[..|s| - 1]);
      InsertKeepsSorted(s[|s| - 1], Sorted(s[..|s| - 1]));
    }
  }

  lemma {:induction false} SortedKeepsMembers(s: seq<Name>)
    ensures forall x :: x in Sorted(s) <==> x in s
  {
    forall x ensures x in Sorted(s) <==> x in s {
      assert x in multiset(Sorted(s)) <==> x in multiset(s);
    }
  }

  lemma {:induction false} DistinctPermutation<T>(a: seq<T>, b: seq<T>)
    requires Distinct(a) && multiset(a) == multiset(b)
    ensures Distinct(b)
  {
    forall i, j | 0 <= i < j < |b| ensures b[i] != b[j] {
      if b[i] == b[j] {
        assert b == b[..i] + [b[i]] + b[i + 1..j] + [b[j]] + b[j + 1..];
        assert multiset(b)[b[i]] >= 2;
        OccursOnce(a, b[i]);
      }
    }
  }

  lemma {:induction false} OccursOnce<T>(s: seq<T>, x: T)
    requires Distinct(s)
    ensures multiset(s)[x] <= 1
  {
    if s != [] {
      var last := |s| - 1;
      assert s == s[..last] + [s[last]];
      OccursOnce(s[..last], x);
      if s[last] == x {
        assert x !in s[..last];
        assert x !in multiset(s[..last]);
      }
    }
  }

  lemma {:induction false} SortedHeadsAgree(a: seq<Name>, b: seq<Name>)
    requires IsSorted(a) && IsSorted(b) && multiset(a) == multiset(b) && a != [] && b != []
    ensures a[0] == b[0]
  {
    assert a[0] in multiset(b) && b[0] in multiset(a);
    var i :| 0 <= i < |b| && b[i] == a[0];
    var j :| 0 <= j < |a| && a[j] == b[0];
    if i > 0 && j > 0 {
      LessIsTotal(a[0], b[0]);
    }
  }

  /** The same sorted list comes out of every arrangement of the same names. */
  lemma {:induction false} SortedListsAgree(a: seq<Name>, b: seq<Name>)
    requires IsSorted(a) && IsSorted(b) && multiset(a) == multiset(b)
    ensures a == b
  {
    assert |multiset(a)| == |multiset(b)|;
    if a != [] {
      SortedHeadsAgree(a, b);
      assert a == [a[0]] + a[1..] && b == [b[0]] + b[1..];
      assert multiset(a[1..]) == multiset(a) - multiset{a[0]};
      assert multiset(b[1..]) == multiset(b) - multiset{b[0]};
      SortedListsAgree(a[1..], b[1..]);
    }
  }
}
