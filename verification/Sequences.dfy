/** Filtering, counting and ordered enumeration: the vocabulary every other module uses. */
module Sequences {

  datatype Option<+T> = None | Some(value: T)

  /** The elements of s satisfying p, in order. */
  function Filter<T>(p: T -> bool, s: seq<T>): seq<T> {
    if s == [] then []
    else if p(s[|s| - 1]) then Filter(p, s[..|s| - 1]) + [s[|s| - 1]]
    else Filter(p, s[..|s| - 1])
  }

  /** How many elements of s satisfy p. */
  function Count<T>(p: T -> bool, s: seq<T>): nat {
    if s == [] then 0
    else Count(p, s[..|s| - 1]) + (if p(s[|s| - 1]) then 1 else 0)
  }

  /** The weights of all elements of s. */
  function Sum<T>(weight: T -> nat, s: seq<T>): nat {
    if s == [] then 0 else Sum(weight, s[..|s| - 1]) + weight(s[|s| - 1])
  }

  /** s without the element at position i. */
  function Without<T>(s: seq<T>, i: nat): seq<T>
    requires i < |s|
  {
    s[..i] + s[i + 1..]
  }

  /** No two positions of s have the same key. */
  ghost predicate Distinct<T, K>(key: T -> K, s: seq<T>) {
    forall i, j :: 0 <= i < j < |s| ==> key(s[i]) != key(s[j])
  }

  ghost predicate NoDuplicates<T>(s: seq<T>) {
    forall i, j :: 0 <= i < j < |s| ==> s[i] != s[j]
  }

  lemma {:induction false} FilterKeepsDistinct<T, K>(key: T -> K, p: T -> bool, s: seq<T>)
    requires Distinct(key, s)
    ensures Distinct(key, Filter(p, s))
  {
    if s != [] {
      var head, last := s[..|s| - 1], s[|s| - 1];
      FilterKeepsDistinct(key, p, head);
      forall x | x in Filter(p, head) ensures key(x) != key(last) {
        FilterMembers(p, head, x);
      }
    }
  }

  lemma FilterKeepsNoDuplicates<T>(p: T -> bool, s: seq<T>)
    requires NoDuplicates(s)
    ensures NoDuplicates(Filter(p, s))
  {
    FilterKeepsDistinct((x: T) => x, p, s);
  }

  lemma {:induction false} FilterMembers<T>(p: T -> bool, s: seq<T>, x: T)
    ensures x in Filter(p, s) <==> x in s && p(x)
  {
    if s != [] {
      FilterMembers(p, s[..|s| - 1], x);
      assert s == s[..|s| - 1] + [s[|s| - 1]];
    }
  }

  lemma FilterSnoc<T>(p: T -> bool, s: seq<T>, x: T)
    ensures Filter(p, s + [x]) == if p(x) then Filter(p, s) + [x] else Filter(p, s)
  {
    assert (s + [x])[..|s|] == s;
  }

  lemma {:induction false} FilterAppend<T>(p: T -> bool, s: seq<T>, t: seq<T>)
    ensures Filter(p, s + t) == Filter(p, s) + Filter(p, t)
  {
    if t == [] {
      assert s + t == s;
    } else {
      var u := t[..|t| - 1];
      assert (s + t)[..|s + t| - 1] == s + u;
      FilterAppend(p, s, u);
    }
  }

  lemma {:induction false} CountAppend<T>(p: T -> bool, s: seq<T>, t: seq<T>)
    ensures Count(p, s + t) == Count(p, s) + Count(p, t)
  {
    if t == [] {
      assert s + t == s;
    } else {
      var u := t[..|t| - 1];
      assert (s + t)[..|s + t| - 1] == s + u;
      CountAppend(p, s, u);
    }
  }

  lemma CountSnoc<T>(p: T -> bool, s: seq<T>, x: T)
    ensures Count(p, s + [x]) == Count(p, s) + if p(x) then 1 else 0
  {
    assert (s + [x])[..|s|] == s;
  }

  lemma CountSingle<T>(p: T -> bool, x: T)
    ensures Count(p, [x]) == if p(x) then 1 else 0
  {
    assert [x][..0] == [];
  }

  lemma SplitAt<T>(s: seq<T>, i: nat)
    requires i < |s|
    ensures s[..i + 1] == s[..i] + [s[i]]
    ensures s == s[..i + 1] + s[i + 1..]
  {
  }

  lemma CountWithout<T>(p: T -> bool, s: seq<T>, i: nat)
    requires i < |s|
    ensures Count(p, s) == Count(p, Without(s, i)) + (if p(s[i]) then 1 else 0)
  {
    SplitAt(s, i);
    CountSnoc(p, s[..i], s[i]);
    CountAppend(p, s[..i + 1], s[i + 1..]);
    CountAppend(p, s[..i], s[i + 1..]);
  }

  lemma {:induction false} CountUnion<T>(p: T -> bool, q: T -> bool, both: T -> bool, s: seq<T>)
    requires forall x :: (both(x) <==> p(x) || q(x)) && !(p(x) && q(x))
    ensures Count(both, s) == Count(p, s) + Count(q, s)
  {
    if s != [] {
      CountUnion(p, q, both, s[..|s| - 1]);
    }
  }

  lemma {:induction false} CountFilter<T>(p: T -> bool, q: T -> bool, s: seq<T>)
    requires forall x :: x in s && p(x) ==> q(x)
    ensures Count(p, Filter(q, s)) == Count(p, s)
  {
    if s != [] {
      var head, last := s[..|s| - 1], s[|s| - 1];
      CountFilter(p, q, head);
      CountAppend(p, Filter(q, head), [last]);
      assert [last][..0] == [];
    }
  }

  lemma {:induction false} CountAll<T>(p: T -> bool, s: seq<T>)
    requires forall x :: x in s ==> p(x)
    ensures Count(p, s) == |s|
  {
    if s != [] {
      CountAll(p, s[..|s| - 1]);
    }
  }

  lemma {:induction false} CountImplies<T>(p: T -> bool, q: T -> bool, s: seq<T>)
    requires forall x :: x in s && p(x) ==> q(x)
    ensures Count(p, s) <= Count(q, s)
  {
    if s != [] {
      CountImplies(p, q, s[..|s| - 1]);
    }
  }

  lemma CountTwo<T>(p: T -> bool, s: seq<T>, i: nat, j: nat)
    requires i < j < |s| && p(s[i]) && p(s[j])
    ensures Count(p, s) >= 2
  {
    CountWithout(p, s, j);
    CountNone(p, Without(s, j));
    assert Without(s, j)[i] == s[i];
  }

  lemma CountUpdate<T>(p: T -> bool, s: seq<T>, i: nat, x: T)
    requires i < |s|
    ensures Count(p, s[i := x]) + (if p(s[i]) then 1 else 0) == Count(p, s) + if p(x) then 1 else 0
  {
    CountWithout(p, s, i);
    CountWithout(p, s[i := x], i);
    assert Without(s[i := x], i) == Without(s, i);
  }

  lemma {:induction false} SumAppend<T>(weight: T -> nat, s: seq<T>, t: seq<T>)
    ensures Sum(weight, s + t) == Sum(weight, s) + Sum(weight, t)
  {
    if t == [] {
      assert s + t == s;
    } else {
      var u := t[..|t| - 1];
      assert (s + t)[..|s + t| - 1] == s + u;
      SumAppend(weight, s, u);
    }
  }

  lemma SumSnoc<T>(weight: T -> nat, s: seq<T>, x: T)
    ensures Sum(weight, s + [x]) == Sum(weight, s) + weight(x)
  {
    assert (s + [x])[..|s|] == s;
  }

  lemma SumWithout<T>(weight: T -> nat, s: seq<T>, i: nat)
    requires i < |s|
    ensures Sum(weight, s) == Sum(weight, Without(s, i)) + weight(s[i])
  {
    SplitAt(s, i);
    SumSnoc(weight, s[..i], s[i]);
    SumAppend(weight, s[..i + 1], s[i + 1..]);
    SumAppend(weight, s[..i], s[i + 1..]);
  }

  lemma SumUpdate<T>(weight: T -> nat, s: seq<T>, i: nat, x: T)
    requires i < |s|
    ensures Sum(weight, s[i := x]) + weight(s[i]) == Sum(weight, s) + weight(x)
  {
    SumWithout(weight, s, i);
    SumWithout(weight, s[i := x], i);
    assert Without(s[i := x], i) == Without(s, i);
  }

  lemma {:induction false} SumExt<T>(a: T -> nat, b: T -> nat, s: seq<T>)
    requires forall x :: x in s ==> a(x) == b(x)
    ensures Sum(a, s) == Sum(b, s)
  {
    if s != [] {
      SumExt(a, b, s[..|s| - 1]);
    }
  }

  lemma {:induction false} SumNone<T>(weight: T -> nat, s: seq<T>)
    requires forall x :: x in s ==> weight(x) == 0
    ensures Sum(weight, s) == 0
  {
    if s != [] {
      SumNone(weight, s[..|s| - 1]);
    }
  }

  /** Elements satisfying p weigh r more by the first weight than by the second, others the same. */
  lemma {:induction false} SumMore<T>(a: T -> nat, b: T -> nat, p: T -> bool, r: nat, s: seq<T>)
    requires forall x :: x in s ==> a(x) == b(x) + if p(x) then r else 0
    ensures Sum(a, s) == Sum(b, s) + Count(p, s) * r
  {
    if s != [] {
      SumMore(a, b, p, r, s[..|s| - 1]);
    }
  }

  lemma {:induction false} FilterExt<T>(p: T -> bool, q: T -> bool, s: seq<T>)
    requires forall x :: x in s ==> p(x) == q(x)
    ensures Filter(p, s) == Filter(q, s)
  {
    if s != [] {
      FilterExt(p, q, s[..|s| - 1]);
    }
  }

  lemma {:induction false} FilterAll<T>(p: T -> bool, s: seq<T>)
    requires forall x :: x in s ==> p(x)
    ensures Filter(p, s) == s
  {
    if s != [] {
      var u := s[..|s| - 1];
      assert s == u + [s[|s| - 1]];
      assert forall x :: x in u ==> x in s;
      FilterAll(p, u);
    }
  }

  lemma {:induction false} CountExt<T>(p: T -> bool, q: T -> bool, s: seq<T>)
    requires forall x :: x in s ==> p(x) == q(x)
    ensures Count(p, s) == Count(q, s)
  {
    if s != [] {
      CountExt(p, q, s[..|s| - 1]);
    }
  }

  lemma {:induction false} CountNone<T>(p: T -> bool, s: seq<T>)
    ensures Count(p, s) == 0 <==> forall x :: x in s ==> !p(x)
  {
    if s != [] {
      CountNone(p, s[..|s| - 1]);
      assert s == s[..|s| - 1] + [s[|s| - 1]];
    }
  }

  /** In a duplicate-free sequence a given value is counted once if present. */
  lemma {:induction false} CountOnce<T>(p: T -> bool, s: seq<T>, x: T)
    requires NoDuplicates(s)
    requires forall y :: y in s ==> (p(y) <==> y == x)
    ensures Count(p, s) == if x in s then 1 else 0
  {
    if s != [] {
      var u := s[..|s| - 1];
      CountOnce(p, u, x);
      assert s == u + [s[|s| - 1]];
    }
  }

  /** The least element of a non-empty set. */
  function Least(s: set<nat>): (m: nat)
    requires s != {}
    ensures m in s && forall x :: x in s ==> m <= x
  {
    LeastExists(s);
    var m :| m in s && forall x :: x in s ==> m <= x;
    m
  }

  lemma {:induction false} LeastExists(s: set<nat>)
    requires s != {}
    ensures exists m :: m in s && forall x :: x in s ==> m <= x
  {
    var y :| y in s;
    var rest := s - {y};
    var k := y;
    if rest != {} {
      LeastExists(rest);
      var m :| m in rest && forall x :: x in rest ==> m <= x;
      k := if m < y then m else y;
    }
    forall x | x in s ensures k <= x {
      assert x == y || x in rest;
    }
    assert k in s;
  }

  /** The keys of a std::map in iteration order. */
  function Ordered(s: set<nat>): (r: seq<nat>)
    ensures forall x :: x in r <==> x in s
    ensures |r| == |s|
    decreases s
  {
    if s == {} then [] else
      var m := Least(s);
      var rest := Ordered(s - {m});
      assert forall x :: x in [m] + rest <==> x in s;
      [m] + rest
  }

  lemma {:induction false} OrderedNoDuplicates(s: set<nat>)
    ensures NoDuplicates(Ordered(s))
    decreases s
  {
    if s != {} {
      var m := Least(s);
      OrderedNoDuplicates(s - {m});
      assert m !in Ordered(s - {m});
    }
  }
}
