// Ascending enumeration of a finite set of ids, as slices.Sort leaves it.

module Ids {
  predicate Ascending(s: seq<int>) {
    forall i, j :: 0 <= i < j < |s| ==> s[i] < s[j]
  }

  predicate IsLeast(m: int, s: set<int>) {
    m in s && forall j :: j in s ==> m <= j
  }

  lemma AppendAscending(s: seq<int>, id: int)
    requires Ascending(s)
    requires forall x :: x in s ==> x < id
    ensures Ascending(s + [id])
  {
    forall i | 0 <= i < |s| ensures s[i] < id {
      assert s[i] in s;
    }
  }

  lemma EmptyOrHas(s: set<int>)
    ensures s == {} || exists x :: x in s
  {
    if forall x :: x !in s {
      assert s == {};
    }
  }

  lemma EmptyOrHead(s: seq<int>)
    ensures s == [] || exists x :: x in s
  {
    if s != [] {
      var head := s[0];
      assert head in s;
    }
  }

  lemma {:induction false} HasLeast(s: set<int>)
    requires s != {}
    ensures exists m :: IsLeast(m, s)
  {
    EmptyOrHas(s);
    var x :| x in s;
    var rest := s - {x};
    if rest == {} {
      assert s == {x};
      assert IsLeast(x, s);
    } else {
      HasLeast(rest);
      var m :| IsLeast(m, rest);
      var n := if m < x then m else x;
      forall j | j in s ensures n <= j {
        assert j == x || j in rest;
      }
      assert IsLeast(n, s);
    }
  }

  ghost function Least(s: set<int>): (m: int)
    requires s != {}
    ensures IsLeast(m, s)
  {
    HasLeast(s);
    var m :| IsLeast(m, s);
    m
  }

  ghost function SortedIds(s: set<int>): (ids: seq<int>)
    decreases |s|
  {
    if s == {} then [] else [Least(s)] + SortedIds(s - {Least(s)})
  }

  lemma {:induction false} SortedIdsSorted(s: set<int>)
    ensures Ascending(SortedIds(s))
    ensures forall id :: id in SortedIds(s) <==> id in s
    decreases |s|
  {
    if s != {} {
      var m := Least(s);
      SortedIdsSorted(s - {m});
      var tail := SortedIds(s - {m});
      forall i | 0 <= i < |tail| ensures m < tail[i] {
        assert tail[i] in tail;
      }
    }
  }

  lemma {:induction false} AscendingUnique(a: seq<int>, b: seq<int>)
    requires Ascending(a) && Ascending(b)
    requires forall id :: id in a <==> id in b
    ensures a == b
  {
    EmptyOrHead(a);
    EmptyOrHead(b);
    if a != [] && b != [] {
      assert a[0] in b && b[0] in a;
      assert a == [a[0]] + a[1..] && b == [b[0]] + b[1..];
      forall id ensures id in a[1..] <==> id in b[1..] {
        assert id in a[1..] <==> id in a && id != a[0];
        assert id in b[1..] <==> id in b && id != b[0];
      }
      AscendingUnique(a[1..], b[1..]);
    }
  }

  /** Repeatedly taking the least id stands for the library sort. */
  method Sort(s: set<int>) returns (ids: seq<int>)
    ensures ids == SortedIds(s)
  {
    ids := [];
    var rest := s;
    while rest != {}
      invariant rest <= s
      invariant ids + SortedIds(rest) == SortedIds(s)
      decreases rest
    {
      HasLeast(rest);
      var m :| m in rest && forall j :: j in rest ==> m <= j;
      assert m == Least(rest);
      ids := ids + [m];
      rest := rest - {m};
    }
  }
}
