/** `Ord` on strings and `sort()`: whatever order a hash map hands its keys out in,
    sorting them gives the same sequence. */
module Ordering {
  import opened Seqs

  predicate StrLe(a: string, b: string) {
    a == [] || (b != [] && (a[0] < b[0] || (a[0] == b[0] && StrLe(a[1..], b[1..]))))
  }

  lemma {:induction false} StrLeTotal(a: string, b: string)
    ensures StrLe(a, b) || StrLe(b, a)
  {
    if a != [] && b != [] && a[0] == b[0] {
      StrLeTotal(a[1..], b[1..]);
    }
  }

  lemma {:induction false} StrLeAntisymmetric(a: string, b: string)
    requires StrLe(a, b) && StrLe(b, a)
    ensures a == b
  {
    if a == [] || b == [] {
    } else {
      StrLeAntisymmetric(a[1..], b[1..]);
      assert a == [a[0]] + a[1..] && b == [b[0]] + b[1..];
    }
  }

  lemma {:induction false} StrLeTransitive(a: string, b: string, c: string)
    requires StrLe(a, b) && StrLe(b, c)
    ensures StrLe(a, c)
  {
    if a != [] && a[0] == b[0] && b[0] == c[0] {
      StrLeTransitive(a[1..], b[1..], c[1..]);
    }
  }

  ghost predicate Sorted(s: seq<string>) {
    forall i, j :: 0 <= i < j < |s| ==> StrLe(s[i], s[j])
  }

  function Insert(x: string, s: seq<string>): (r: seq<string>)
    ensures multiset(r) == multiset(s) + multiset{x}
  {
    if s == [] then [x]
    else if StrLe(x, s[0]) then [x] + s
    else
      assert s == [s[0]] + s[1..];
      [s[0]] + Insert(x, s[1..])
  }

  /** `slice::sort`. Only its two promises matter: the same entries, in order. */
  function SortIds(s: seq<string>): (r: seq<string>)
    ensures multiset(r) == multiset(s)
  {
    if s == [] then []
    else
      assert s == [s[0]] + s[1..];
      Insert(s[0], SortIds(s[1..]))
  }

  lemma {:induction false} InsertSorted(x: string, s: seq<string>)
    requires Sorted(s)
    ensures Sorted(Insert(x, s))
  {
    if s == [] {
    } else if StrLe(x, s[0]) {
      forall k | 0 <= k < |s| ensures StrLe(x, s[k]) {
        if k > 0 { StrLeTransitive(x, s[0], s[k]); }
      }
    } else {
      StrLeTotal(x, s[0]);
      InsertSorted(x, s[1..]);
      var t := Insert(x, s[1..]);
      forall k | 0 <= k < |t| ensures StrLe(s[0], t[k]) {
        assert t[k] in multiset(t);
        assert t[k] == x || t[k] in s[1..];
      }
    }
  }

  lemma {:induction false} SortIdsSorted(s: seq<string>)
    ensures Sorted(SortIds(s))
  {
    if s == [] {
    } else {
      SortIdsSorted(s[1..]);
      InsertSorted(s[0], SortIds(s[1..]));
    }
  }

  lemma MultisetTail(s: seq<string>)
    requires s != []
    ensures multiset(s[1..]) == multiset(s) - multiset{s[0]}
  {
    assert s == [s[0]] + s[1..];
  }

  /** A sorted sequence is determined by its entries. */
  lemma {:induction false} SortedUnique(s: seq<string>, t: seq<string>)
    requires Sorted(s) && Sorted(t) && multiset(s) == multiset(t)
    ensures s == t
  {
    assert |s| == |multiset(s)| == |multiset(t)| == |t|;
    if s == [] {
    } else {
      SortedHeadLeast(s, t);
      SortedHeadLeast(t, s);
      StrLeAntisymmetric(s[0], t[0]);
      MultisetTail(s);
      MultisetTail(t);
      SortedUnique(s[1..], t[1..]);
      assert s == [s[0]] + s[1..] && t == [t[0]] + t[1..];
    }
  }

  lemma StrLeReflexive(a: string)
    ensures StrLe(a, a)
  {}

  lemma SortedHeadLeast(s: seq<string>, t: seq<string>)
    requires Sorted(s) && s != [] && t != [] && multiset(s) == multiset(t)
    ensures StrLe(s[0], t[0])
  {
    StrLeReflexive(s[0]);
    assert t[0] in multiset(t);
    assert t[0] in s;
  }

  /** The one sorted sequence that lists a set. */
  ghost function SortedOf(s: set<string>): (r: seq<string>)
    ensures multiset(r) == multiset(s)
  {
    SortIds(Listing(s))
  }

  ghost function Listing(s: set<string>): (r: seq<string>)
    ensures multiset(r) == multiset(s)
  {
    if s == {} then []
    else
      var x :| x in s;
      assert multiset(s) == multiset(s - {x}) + multiset{x};
      [x] + Listing(s - {x})
  }

  lemma SortedOfMembers(s: set<string>)
    ensures Elems(SortedOf(s)) == s && NoDup(SortedOf(s))
  {
    var r := SortedOf(s);
    forall x ensures x in r <==> x in s {
      assert x in r <==> x in multiset(r);
    }
    NoDupSize(r);
    assert |r| == |multiset(r)| == |multiset(s)| == |s|;
  }

  /** Sorting any duplicate-free listing of a set gives the same result. */
  lemma SortIsCanonical(s: seq<string>)
    requires NoDup(s)
    ensures SortIds(s) == SortedOf(Elems(s))
  {
    MultisetOfNoDup(s);
    SortIdsSorted(s);
    SortIdsSorted(Listing(Elems(s)));
    SortedUnique(SortIds(s), SortedOf(Elems(s)));
  }
}
