/** Facts about finite sequences and sets that several modules rely on. */
module Seqs {

  ghost predicate NoDup<T(!new)>(s: seq<T>) {
    forall i, j :: 0 <= i < j < |s| ==> s[i] != s[j]
  }

  function Elems<T>(s: seq<T>): set<T> {
    set x | x in s
  }

  /** `Iterator::take`. */
  function Take<T>(s: seq<T>, n: nat): seq<T> {
    if n <= |s| then s[..n] else s
  }

  /** `Iterator::filter`, consuming the sequence from the left like a loop does. */
  function Filter<T>(f: T -> bool, s: seq<T>): seq<T> {
    if s == [] then []
    else
      var front := Filter(f, s[..|s| - 1]);
      if f(s[|s| - 1]) then front + [s[|s| - 1]] else front
  }

  lemma {:induction false} FilterAppend<T>(f: T -> bool, a: seq<T>, b: seq<T>)
    ensures Filter(f, a + b) == Filter(f, a) + Filter(f, b)
  {
    if b == [] {
      assert a + b == a;
    } else {
      assert (a + b)[..|a + b| - 1] == a + b[..|b| - 1];
      FilterAppend(f, a, b[..|b| - 1]);
    }
  }

  lemma FilterStep<T>(f: T -> bool, s: seq<T>, i: nat)
    requires i < |s|
    ensures Filter(f, s[..i + 1]) == Filter(f, s[..i]) + if f(s[i]) then [s[i]] else []
  {
    assert s[..i + 1][..i] == s[..i];
  }

  lemma FilterPair<T>(f: T -> bool, x: T, y: T)
    ensures Filter(f, [x, y]) == (if f(x) then [x] else []) + if f(y) then [y] else []
  {
    assert [x, y][..1] == [x] && [x][..0] == [];
    assert Filter(f, [x][..0]) == [];
    assert Filter(f, [x]) == if f(x) then [x] else [];
  }

  lemma {:induction false} FilterMembers<T(!new)>(f: T -> bool, s: seq<T>)
    ensures |Filter(f, s)| <= |s|
    ensures forall x :: x in Filter(f, s) <==> x in s && f(x)
  {
    if s == [] {
    } else {
      FilterMembers(f, s[..|s| - 1]);
      assert s == s[..|s| - 1] + [s[|s| - 1]];
    }
  }

  lemma {:induction false} FilterAll<T>(f: T -> bool, s: seq<T>)
    requires forall x :: x in s ==> f(x)
    ensures Filter(f, s) == s
  {
    if s == [] {
    } else {
      FilterAll(f, s[..|s| - 1]);
    }
  }

  lemma {:induction false} FilterNone<T>(f: T -> bool, s: seq<T>)
    requires forall x :: x in s ==> !f(x)
    ensures Filter(f, s) == []
  {
    if s == [] {
    } else {
      FilterNone(f, s[..|s| - 1]);
    }
  }

  lemma {:induction false} FilterSame<T>(f: T -> bool, g: T -> bool, s: seq<T>)
    requires forall x :: x in s ==> f(x) == g(x)
    ensures Filter(f, s) == Filter(g, s)
  {
    if s == [] {
    } else {
      FilterSame(f, g, s[..|s| - 1]);
    }
  }

  lemma {:induction false} FilterNoDup<T(!new)>(f: T -> bool, s: seq<T>)
    requires NoDup(s)
    ensures NoDup(Filter(f, s))
  {
    if s == [] {
    } else {
      var front := s[..|s| - 1];
      FilterNoDup(f, front);
      FilterMembers(f, front);
      assert s[|s| - 1] !in front;
    }
  }

  /** What is left out of a filter by one predicate is what the opposite predicate keeps. */
  lemma {:induction false} FilterSplit<T>(f: T -> bool, g: T -> bool, s: seq<T>)
    requires forall x :: x in s ==> f(x) != g(x)
    ensures |Filter(f, s)| + |Filter(g, s)| == |s|
  {
    if s == [] {
    } else {
      FilterSplit(f, g, s[..|s| - 1]);
    }
  }

  lemma {:induction false} NoDupSize<T(!new)>(s: seq<T>)
    ensures |Elems(s)| <= |s|
    ensures NoDup(s) <==> |Elems(s)| == |s|
  {
    if s == [] {
    } else {
      var front, last := s[..|s| - 1], s[|s| - 1];
      NoDupSize(front);
      assert s == front + [last];
      assert Elems(s) == Elems(front) + {last};
      if last in front {
        var i :| 0 <= i < |front| && front[i] == last;
        assert s[i] == s[|s| - 1];
        assert Elems(s) == Elems(front);
      } else {
        assert |Elems(s)| == |Elems(front)| + 1;
        assert NoDup(s) ==> NoDup(front) by { assert forall i :: 0 <= i < |front| ==> front[i] == s[i]; }
        assert NoDup(front) ==> NoDup(s);
      }
    }
  }

  lemma {:induction false} SubsetSize<T>(a: set<T>, b: set<T>)
    requires a <= b
    ensures |a| <= |b|
    ensures |a| == |b| ==> a == b
  {
    assert b == a + (b - a);
    assert |b| == |a| + |b - a|;
    if |a| == |b| {
      assert |b - a| == 0;
    }
  }

  lemma PrefixStep<T(!new)>(s: seq<T>, i: nat)
    requires NoDup(s) && i < |s|
    ensures Elems(s[..i + 1]) == Elems(s[..i]) + {s[i]} && s[i] !in Elems(s[..i])
  {}

  /** The pigeonhole principle, for a walk longer than the set it stays in. */
  lemma Pigeonhole<T(!new)>(p: seq<T>, s: set<T>)
    requires Elems(p) <= s && |p| > |s|
    ensures exists i, j :: 0 <= i < j < |p| && p[i] == p[j]
  {
    NoDupSize(p);
    SubsetSize(Elems(p), s);
    assert !NoDup(p);
  }

  lemma MultisetOfNoDup<T(!new)>(s: seq<T>)
    requires NoDup(s)
    ensures multiset(s) == multiset(Elems(s))
  {
    if s == [] {
    } else {
      var front, last := s[..|s| - 1], s[|s| - 1];
      assert s == front + [last];
      MultisetOfNoDup(front);
      assert last !in front;
      assert Elems(s) == Elems(front) + {last};
    }
  }

  // ----- joining -----

  ghost function TotalLength<T>(parts: seq<seq<T>>): nat {
    if parts == [] then 0 else TotalLength(parts[..|parts| - 1]) + |parts[|parts| - 1]|
  }

  /** `whole` is the parts one after the other: each is the slice that starts where the earlier
      ones end, and nothing is left. */
  ghost predicate Joins<T>(whole: seq<T>, parts: seq<seq<T>>) {
    && |whole| == TotalLength(parts)
    && forall i {:trigger parts[i]} :: 0 <= i < |parts| ==> PartAt(whole, TotalLength(parts[..i]), parts[i])
  }

  ghost predicate PartAt<T>(whole: seq<T>, at: nat, part: seq<T>) {
    at + |part| <= |whole| && whole[at..at + |part|] == part
  }

  lemma PartStays<T>(whole: seq<T>, more: seq<T>, at: nat, part: seq<T>)
    requires PartAt(whole, at, part)
    ensures PartAt(whole + more, at, part)
  {
    assert (whole + more)[at..at + |part|] == whole[at..at + |part|];
  }

  lemma JoinsPush<T>(whole: seq<T>, parts: seq<seq<T>>, last: seq<T>)
    requires Joins(whole, parts)
    ensures Joins(whole + last, parts + [last])
  {
    var more := parts + [last];
    assert more[..|parts|] == parts;
    forall i | 0 <= i < |more| ensures PartAt(whole + last, TotalLength(more[..i]), more[i]) {
      assert more[..i] == parts[..i];
      if i < |parts| {
        assert more[i] == parts[i];
        PartStays(whole, last, TotalLength(parts[..i]), parts[i]);
      } else {
        assert parts[..i] == parts;
      }
    }
  }

  lemma {:induction false} JoinsMembers<T(!new)>(whole: seq<T>, parts: seq<seq<T>>)
    requires Joins(whole, parts)
    ensures forall i, x :: 0 <= i < |parts| && x in parts[i] ==> x in whole
  {
    forall i, x | 0 <= i < |parts| && x in parts[i] ensures x in whole {
      var at := TotalLength(parts[..i]);
      assert PartAt(whole, at, parts[i]);
      var k :| 0 <= k < |parts[i]| && parts[i][k] == x;
      assert whole[at + k] == whole[at..at + |parts[i]|][k];
    }
  }

  lemma JoinsFront<T>(whole: seq<T>, parts: seq<seq<T>>)
    requires Joins(whole, parts) && parts != []
    ensures var front, last := parts[..|parts| - 1], parts[|parts| - 1];
            && |last| <= |whole| && Joins(whole[..|whole| - |last|], front) && whole == whole[..|whole| - |last|] + last
  {
    var front, last := parts[..|parts| - 1], parts[|parts| - 1];
    var n := |whole| - |last|;
    assert PartAt(whole, TotalLength(parts[..|parts| - 1]), last);
    forall i | 0 <= i < |front| ensures PartAt(whole[..n], TotalLength(front[..i]), front[i]) {
      assert front[..i] == parts[..i] && front[i] == parts[i];
      TotalWithin(front, i);
      assert PartAt(whole, TotalLength(parts[..i]), parts[i]);
      var at := TotalLength(parts[..i]);
      assert whole[..n][at..at + |parts[i]|] == whole[at..at + |parts[i]|];
    }
  }

  lemma {:induction false} TotalWithin<T>(parts: seq<seq<T>>, i: nat)
    requires i < |parts|
    ensures TotalLength(parts[..i]) + |parts[i]| <= TotalLength(parts)
  {
    if i == |parts| - 1 {
    } else {
      var front := parts[..|parts| - 1];
      TotalWithin(front, i);
      assert front[..i] == parts[..i];
    }
  }

  /** The parts determine the whole. */
  lemma {:induction false} JoinsUnique<T>(a: seq<T>, b: seq<T>, parts: seq<seq<T>>)
    requires Joins(a, parts) && Joins(b, parts)
    ensures a == b
    decreases |parts|
  {
    if parts == [] {
    } else {
      var last := parts[|parts| - 1];
      JoinsFront(a, parts);
      JoinsFront(b, parts);
      JoinsUnique(a[..|a| - |last|], b[..|b| - |last|], parts[..|parts| - 1]);
    }
  }

  /** The entries at the chosen positions, in order: one part for each, nothing for the others. */
  ghost function Chosen<T>(s: seq<T>, chosen: set<int>): seq<seq<T>> {
    seq(|s|, i requires 0 <= i < |s| => if i in chosen then [s[i]] else [])
  }

  ghost predicate Picked<T>(s: seq<T>, chosen: set<int>, r: seq<T>) {
    Joins(r, Chosen(s, chosen))
  }

  lemma PickedHas<T(!new)>(s: seq<T>, chosen: set<int>, r: seq<T>, i: int)
    requires Picked(s, chosen, r) && 0 <= i < |s| && i in chosen
    ensures s[i] in r
  {
    JoinsMembers(r, Chosen(s, chosen));
    assert s[i] in Chosen(s, chosen)[i];
  }

  lemma ChosenStep<T>(s: seq<T>, chosen: set<int>)
    requires s != []
    ensures Chosen(s, chosen) == Chosen(s[..|s| - 1], chosen) + [if |s| - 1 in chosen then [s[|s| - 1]] else []]
  {}

  lemma {:induction false} FilterPicks<T>(f: T -> bool, s: seq<T>, chosen: set<int>)
    requires forall i :: 0 <= i < |s| ==> (i in chosen <==> f(s[i]))
    ensures Picked(s, chosen, Filter(f, s))
  {
    if s == [] {
    } else {
      var front, last := s[..|s| - 1], s[|s| - 1];
      FilterPicks(f, front, chosen);
      JoinsPush(Filter(f, front), Chosen(front, chosen), if |s| - 1 in chosen then [last] else []);
      ChosenStep(s, chosen);
      assert Filter(f, front) + [] == Filter(f, front);
    }
  }
}
