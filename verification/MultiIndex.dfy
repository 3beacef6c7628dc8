/**
 * boost::multi_index_container with ordered indexes.
 *
 * Each index keeps the rows ordered by its key, equal keys in insertion order. The container must
 * make all its indexes tell the same story; here each index is proved to be the stable insertion sort
 * of one list of rows, and an equal_range to hold exactly the rows with the key.
 */
module MultiIndex {
  import opened Sequences

  /** Keys of one or several columns, compared lexicographically. */
  type Key = seq<int>

  datatype Index<!R> = Index(key: R -> Key, unique: bool)

  predicate KeyLess(a: Key, b: Key) {
    b != [] && (a == [] || a[0] < b[0] || (a[0] == b[0] && KeyLess(a[1..], b[1..])))
  }

  lemma {:induction false} KeyTrichotomy(a: Key, b: Key)
    ensures KeyLess(a, b) || a == b || KeyLess(b, a)
    ensures !(KeyLess(a, b) && KeyLess(b, a))
    ensures a == b ==> !KeyLess(a, b)
  {
    if a != [] && b != [] {
      KeyTrichotomy(a[1..], b[1..]);
      assert a == [a[0]] + a[1..] && b == [b[0]] + b[1..];
    }
  }

  lemma {:induction false} KeyTransitive(a: Key, b: Key, c: Key)
    requires !KeyLess(b, a) && !KeyLess(c, b)
    ensures !KeyLess(c, a)
  {
    if a != [] && c != [] {
      assert b != [];
      if a[0] == b[0] == c[0] {
        KeyTransitive(a[1..], b[1..], c[1..]);
      }
    }
  }

  function WithKey<R>(key: R -> Key, k: Key): R -> bool {
    r => key(r) == k
  }

  function WithoutKey<R>(key: R -> Key, k: Key): R -> bool {
    r => key(r) != k
  }

  ghost predicate SortedBy<R>(key: R -> Key, idx: seq<R>) {
    forall i, j :: 0 <= i < j < |idx| ==> !KeyLess(key(idx[j]), key(idx[i]))
  }

  /** Insertion at the upper bound of the row's key. */
  function Insert<R>(key: R -> Key, idx: seq<R>, r: R): seq<R> {
    if idx == [] then [r]
    else
      var last := idx[|idx| - 1];
      if KeyLess(key(r), key(last)) then Insert(key, idx[..|idx| - 1], r) + [last]
      else idx + [r]
  }

  /** The order in which an index lists the given rows. */
  function Listing<R>(key: R -> Key, rows: seq<R>): seq<R> {
    if rows == [] then []
    else Insert(key, Listing(key, rows[..|rows| - 1]), rows[|rows| - 1])
  }

  function LowerBound<R>(key: R -> Key, idx: seq<R>, k: Key): (n: nat)
    ensures n <= |idx|
  {
    if idx == [] then 0
    else if KeyLess(key(idx[|idx| - 1]), k) then |idx|
    else LowerBound(key, idx[..|idx| - 1], k)
  }

  function UpperBound<R>(key: R -> Key, idx: seq<R>, k: Key): (n: nat)
    ensures n <= |idx|
  {
    if idx == [] then 0
    else if KeyLess(k, key(idx[|idx| - 1])) then UpperBound(key, idx[..|idx| - 1], k)
    else |idx|
  }

  // Insertion and listing

  lemma {:induction false} InsertRows<R>(key: R -> Key, idx: seq<R>, r: R)
    ensures multiset(Insert(key, idx, r)) == multiset(idx) + multiset{r}
  {
    if idx != [] {
      var n := |idx| - 1;
      InsertRows(key, idx[..n], r);
      assert idx == idx[..n] + [idx[n]];
    }
  }

  lemma {:induction false} InsertSorted<R>(key: R -> Key, idx: seq<R>, r: R)
    requires SortedBy(key, idx)
    ensures SortedBy(key, Insert(key, idx, r))
  {
    if idx != [] {
      var n := |idx| - 1;
      var last := idx[n];
      if KeyLess(key(r), key(last)) {
        var head := Insert(key, idx[..n], r);
        InsertSorted(key, idx[..n], r);
        InsertRows(key, idx[..n], r);
        KeyTrichotomy(key(r), key(last));
        forall i | 0 <= i < |head| ensures !KeyLess(key(last), key(head[i])) {
          assert head[i] in multiset(head);
          assert head[i] == r || head[i] in multiset(idx[..n]);
        }
      } else {
        forall i | 0 <= i < |idx| ensures !KeyLess(key(r), key(idx[i])) {
          KeyTrichotomy(key(idx[i]), key(last));
          KeyTransitive(key(idx[i]), key(last), key(r));
        }
      }
    }
  }

  /** An index is a sorted permutation of the rows. */
  lemma {:induction false} ListingSorted<R>(key: R -> Key, rows: seq<R>)
    ensures SortedBy(key, Listing(key, rows))
    ensures multiset(Listing(key, rows)) == multiset(rows)
    ensures |Listing(key, rows)| == |rows|
  {
    if rows != [] {
      var n := |rows| - 1;
      ListingSorted(key, rows[..n]);
      InsertSorted(key, Listing(key, rows[..n]), rows[n]);
      InsertRows(key, Listing(key, rows[..n]), rows[n]);
      assert rows == rows[..n] + [rows[n]];
    }
    assert |multiset(Listing(key, rows))| == |multiset(rows)|;
  }

  lemma ListingLength<R>(key: R -> Key, rows: seq<R>)
    ensures |Listing(key, rows)| == |rows|
  {
    ListingSorted(key, rows);
  }

  lemma InsertSnoc<R>(key: R -> Key, idx: seq<R>, last: R, r: R)
    ensures Insert(key, idx + [last], r)
         == if KeyLess(key(r), key(last)) then Insert(key, idx, r) + [last] else idx + [last] + [r]
  {
    assert (idx + [last])[..|idx|] == idx;
  }

  lemma ListingSnoc<R>(key: R -> Key, rows: seq<R>, r: R)
    ensures Listing(key, rows + [r]) == Insert(key, Listing(key, rows), r)
  {
    assert (rows + [r])[..|rows|] == rows;
  }

  /** Erasing rows and listing commute: every index forgets the same rows and keeps its order. */
  lemma {:induction false} ListingFilter<R>(key: R -> Key, p: R -> bool, rows: seq<R>)
    ensures Listing(key, Filter(p, rows)) == Filter(p, Listing(key, rows))
  {
    if rows != [] {
      var head, r := rows[..|rows| - 1], rows[|rows| - 1];
      ListingFilter(key, p, head);
      ListingSorted(key, head);
      FilterInsert(key, p, Listing(key, head), r);
      ListingSnoc(key, Filter(p, head), r);
    }
  }

  lemma {:induction false} FilterInsert<R>(key: R -> Key, p: R -> bool, idx: seq<R>, r: R)
    requires SortedBy(key, idx)
    ensures Filter(p, Insert(key, idx, r))
         == if p(r) then Insert(key, Filter(p, idx), r) else Filter(p, idx)
  {
    if idx == [] {
      FilterSnoc(p, [], r);
    } else {
      var head, last := idx[..|idx| - 1], idx[|idx| - 1];
      if KeyLess(key(r), key(last)) {
        FilterInsert(key, p, head, r);
        FilterSnoc(p, Insert(key, head, r), last);
        InsertSnoc(key, Filter(p, head), last, r);
      } else {
        FilterSnoc(p, idx, r);
        var kept := Filter(p, idx);
        if kept != [] {
          var l := kept[|kept| - 1];
          FilterMembers(p, idx, l);
          NotAfterLast(key, idx, l);
          KeyTransitive(key(l), key(last), key(r));
        }
      }
    }
  }

  lemma NotAfterLast<R>(key: R -> Key, idx: seq<R>, x: R)
    requires idx != [] && SortedBy(key, idx) && x in idx
    ensures !KeyLess(key(idx[|idx| - 1]), key(x))
  {
    KeyTrichotomy(key(idx[|idx| - 1]), key(x));
  }

  lemma SnocOutside<R>(head: seq<R>, lo: nat, hi: nat, last: R)
    requires lo <= hi <= |head|
    ensures (head + [last])[lo..hi] == head[lo..hi]
    ensures (head + [last])[..lo] + (head + [last])[hi..] == (head[..lo] + head[hi..]) + [last]
  {
  }

  lemma SnocInside<R>(head: seq<R>, lo: nat, last: R)
    requires lo <= |head|
    ensures (head + [last])[lo..] == head[lo..] + [last]
    ensures (head + [last])[..lo] == head[..lo]
  {
  }

  /** In a sorted index the rows with key k are exactly those between the two bounds. */
  lemma {:induction false} RangeIsFilter<R>(key: R -> Key, idx: seq<R>, k: Key)
    requires SortedBy(key, idx)
    ensures LowerBound(key, idx, k) <= UpperBound(key, idx, k)
    ensures idx[LowerBound(key, idx, k)..UpperBound(key, idx, k)] == Filter(WithKey(key, k), idx)
    ensures idx[..LowerBound(key, idx, k)] + idx[UpperBound(key, idx, k)..] == Filter(WithoutKey(key, k), idx)
  {
    if idx != [] {
      var head, last := idx[..|idx| - 1], idx[|idx| - 1];
      RangeIsFilter(key, head, k);
      KeyTrichotomy(key(last), k);
      var lo, hi := LowerBound(key, head, k), UpperBound(key, head, k);
      if KeyLess(k, key(last)) {
        SnocOutside(head, lo, hi, last);
      } else {
        forall x | x in head ensures !KeyLess(key(last), key(x)) {
          NotAfterLast(key, idx, x);
        }
        BoundsBelow(key, head, k, key(last));
        if key(last) == k {
          SnocInside(head, lo, last);
        } else {
          RangeBelow(key, head, k, key(last));
        }
      }
      assert idx == head + [last];
    }
  }

  lemma {:induction false} BoundsBelow<R>(key: R -> Key, head: seq<R>, k: Key, bound: Key)
    requires !KeyLess(k, bound)
    requires forall x :: x in head ==> !KeyLess(bound, key(x))
    ensures UpperBound(key, head, k) == |head|
  {
    if head != [] {
      KeyTransitive(key(head[|head| - 1]), bound, k);
    }
  }

  lemma {:induction false} RangeBelow<R>(key: R -> Key, head: seq<R>, k: Key, bound: Key)
    requires KeyLess(bound, k)
    requires forall x :: x in head ==> !KeyLess(bound, key(x))
    ensures Filter(WithKey(key, k), head) == [] && Filter(WithoutKey(key, k), head) == head
  {
    if head != [] {
      var front, last := head[..|head| - 1], head[|head| - 1];
      assert head == front + [last];
      assert last in head && forall x :: x in front ==> x in head;
      RangeBelow(key, front, k, bound);
      KeyTrichotomy(bound, k);
    }
  }

  /** No row has the same key as r in index ix. */
  ghost predicate Vacant<R>(ix: Index<R>, rows: seq<R>, r: R) {
    forall x :: x in rows ==> (ix.key)(x) != (ix.key)(r)
  }

  /** A range of the index is empty exactly when no row has the key. */
  lemma RangeEmpty<R>(key: R -> Key, rows: seq<R>, r: R)
    ensures LowerBound(key, Listing(key, rows), key(r)) == UpperBound(key, Listing(key, rows), key(r))
        <==> forall x :: x in rows ==> key(x) != key(r)
  {
    var idx, p := Listing(key, rows), WithKey(key, key(r));
    ListingSorted(key, rows);
    RangeIsFilter(key, idx, key(r));
    forall x ensures x in Filter(p, idx) <==> x in rows && key(x) == key(r) {
      FilterMembers(p, idx, x);
      assert x in idx <==> x in multiset(idx);
      assert x in rows <==> x in multiset(rows);
    }
    var lo, hi := LowerBound(key, idx, key(r)), UpperBound(key, idx, key(r));
    assert lo < hi ==> Filter(p, idx)[0] in Filter(p, idx);
  }

  class Container<R(==)> {
    const spec: seq<Index<R>>
    var indexes: seq<seq<R>>
    ghost var contents: seq<R>

    ghost predicate Valid()
      reads this
    {
      && |indexes| == |spec|
      && (forall i :: 0 <= i < |spec| ==> indexes[i] == Listing(spec[i].key, contents))
      && (forall i :: 0 <= i < |spec| && spec[i].unique ==> Distinct(spec[i].key, contents))
    }

    constructor (spec: seq<Index<R>>)
      ensures Valid() && this.spec == spec && contents == []
    {
      this.spec := spec;
      indexes := seq(|spec|, i => []);
      contents := [];
    }

    /** Insertion succeeds unless some unique index already has the row's key. */
    method Add(r: R) returns (inserted: bool)
      requires Valid()
      modifies this
      ensures Valid()
      ensures inserted <==> forall i :: 0 <= i < |spec| && spec[i].unique ==> Vacant(spec[i], old(contents), r)
      ensures contents == if inserted then old(contents) + [r] else old(contents)
    {
      forall i | 0 <= i < |spec| {
        RangeEmpty(spec[i].key, contents, r);
      }
      inserted := forall i :: 0 <= i < |spec| && spec[i].unique ==>
        LowerBound(spec[i].key, indexes[i], (spec[i].key)(r)) == UpperBound(spec[i].key, indexes[i], (spec[i].key)(r));
      assert inserted <==> forall i :: 0 <= i < |spec| && spec[i].unique ==> Vacant(spec[i], contents, r);
      if inserted {
        forall i | 0 <= i < |spec| {
          ListingSnoc(spec[i].key, contents, r);
        }
        var before := indexes;
        indexes := seq(|spec|, i requires 0 <= i < |before| && |before| == |spec| => Insert(spec[i].key, before[i], r));
        contents := contents + [r];
      }
    }

    /** The stretch of index i whose rows have key k: all of them, and no others. */
    method EqualRange(i: nat, k: Key) returns (lo: nat, hi: nat)
      requires Valid() && i < |spec|
      ensures lo <= hi <= |indexes[i]|
      ensures lo == LowerBound(spec[i].key, indexes[i], k) && hi == UpperBound(spec[i].key, indexes[i], k)
      ensures indexes[i][lo..hi] == Filter(WithKey(spec[i].key, k), contents)
    {
      lo, hi := LowerBound(spec[i].key, indexes[i], k), UpperBound(spec[i].key, indexes[i], k);
      ListingSorted(spec[i].key, contents);
      RangeIsFilter(spec[i].key, indexes[i], k);
      FilterStable(spec[i].key, k, contents);
    }

    /** Erases that stretch; its rows leave every other index as well. */
    method EraseKey(i: nat, k: Key) returns (count: nat)
      requires Valid() && i < |spec|
      modifies this
      ensures Valid()
      ensures contents == Filter(WithoutKey(spec[i].key, k), old(contents))
      ensures count == |Filter(WithKey(spec[i].key, k), old(contents))|
    {
      var lo, hi := EqualRange(i, k);
      count := hi - lo;
      var keep := WithoutKey(spec[i].key, k);
      var rest := indexes[i][..lo] + indexes[i][hi..];
      assert rest == Filter(keep, indexes[i]) by {
        ListingSorted(spec[i].key, contents);
        RangeIsFilter(spec[i].key, indexes[i], k);
      }
      var before := indexes;
      indexes := seq(|before|, j requires 0 <= j < |before| => if j == i then rest else Filter(keep, before[j]));
      EraseKeeps(spec, contents, keep);
      contents := Filter(keep, contents);
    }
  }

  /** Dropping rows keeps every index a listing and every unique index unique. */
  lemma EraseKeeps<R>(spec: seq<Index<R>>, rows: seq<R>, keep: R -> bool)
    requires forall i :: 0 <= i < |spec| && spec[i].unique ==> Distinct(spec[i].key, rows)
    ensures forall i :: 0 <= i < |spec| ==>
      Listing(spec[i].key, Filter(keep, rows)) == Filter(keep, Listing(spec[i].key, rows))
    ensures forall i :: 0 <= i < |spec| && spec[i].unique ==> Distinct(spec[i].key, Filter(keep, rows))
  {
    forall i | 0 <= i < |spec|
      ensures Listing(spec[i].key, Filter(keep, rows)) == Filter(keep, Listing(spec[i].key, rows))
    {
      ListingFilter(spec[i].key, keep, rows);
    }
    forall i | 0 <= i < |spec| && spec[i].unique ensures Distinct(spec[i].key, Filter(keep, rows)) {
      FilterKeepsDistinct(spec[i].key, keep, rows);
    }
  }

  /** Rows with equal keys stay in insertion order. */
  lemma FilterStable<R>(key: R -> Key, k: Key, rows: seq<R>)
    ensures Filter(WithKey(key, k), Listing(key, rows)) == Filter(WithKey(key, k), rows)
  {
    ListingFilter(key, WithKey(key, k), rows);
    forall x | x in Filter(WithKey(key, k), rows) ensures key(x) == k {
      FilterMembers(WithKey(key, k), rows, x);
    }
    ListingOneKey(key, k, Filter(WithKey(key, k), rows));
  }

  lemma {:induction false} ListingOneKey<R>(key: R -> Key, k: Key, rows: seq<R>)
    requires forall x :: x in rows ==> key(x) == k
    ensures Listing(key, rows) == rows
  {
    if rows != [] {
      ListingOneKey(key, k, rows[..|rows| - 1]);
      KeyTrichotomy(k, k);
    }
  }
}
