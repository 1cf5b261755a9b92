/** The byte order of strings, and sorting by a total order. */
module Ordering {

  /** Byte order of strings. */
  predicate Less(a: string, b: string) {
    b != "" && (a == "" || a[0] < b[0] || (a[0] == b[0] && Less(a[1..], b[1..])))
  }

  /** The texts agree up to `n`, where the first one ends or has the smaller byte. */
  predicate DiffersAt(a: string, b: string, n: nat) {
    n <= |a| && n < |b| && a[..n] == b[..n] && (n == |a| || a[n] < b[n])
  }

  ghost predicate IsSmaller(a: string, b: string) {
    exists n: nat :: DiffersAt(a, b, n)
  }

  lemma {:induction false} LessIsByteOrder(a: string, b: string)
    ensures Less(a, b) <==> IsSmaller(a, b)
  {
    if a != "" && b != "" && a[0] == b[0] {
      LessIsByteOrder(a[1..], b[1..]);
      if n: nat :| DiffersAt(a[1..], b[1..], n) {
        assert a[..n + 1] == [a[0]] + a[1..][..n] && b[..n + 1] == [b[0]] + b[1..][..n];
        assert DiffersAt(a, b, n + 1);
      }
      if n: nat :| DiffersAt(a, b, n) {
        assert a[1..][..n - 1] == a[..n][1..] && b[1..][..n - 1] == b[..n][1..];
        assert DiffersAt(a[1..], b[1..], n - 1);
      }
    } else if b != "" && (a == "" || a[0] < b[0]) {
      assert DiffersAt(a, b, 0);
    } else {
      forall n: nat
        ensures !DiffersAt(a, b, n)
      {
        assert 0 < n <= |a| && n < |b| ==> a[..n][0] == a[0] && b[..n][0] == b[0];
      }
    }
  }

  lemma {:induction false} LessIsTotal(a: string, b: string)
    ensures !(Less(a, b) && Less(b, a)) && (a == b ==> !Less(a, b)) && (a != b ==> Less(a, b) || Less(b, a))
  {
    if a != "" && b != "" {
      LessIsTotal(a[1..], b[1..]);
      assert a == [a[0]] + a[1..] && b == [b[0]] + b[1..];
    }
  }

  lemma {:induction false} LessIsTransitive(a: string, b: string, c: string)
    requires Less(a, b) && Less(b, c)
    ensures Less(a, c)
  {
    if a != "" && a[0] == b[0] == c[0] {
      LessIsTransitive(a[1..], b[1..], c[1..]);
    }
  }

  ghost predicate IsTotalOrder<T(!new)>(le: (T, T) -> bool) {
    && (forall a, b :: le(a, b) || le(b, a))
    && (forall a, b, c :: le(a, b) && le(b, c) ==> le(a, c))
  }

  predicate SortedBy<T>(items: seq<T>, le: (T, T) -> bool) {
    forall i, j | 0 <= i < j < |items| :: le(items[i], items[j])
  }

  function Insert<T(!new)>(items: seq<T>, item: T, le: (T, T) -> bool): (r: seq<T>)
    requires IsTotalOrder(le) && SortedBy(items, le)
    ensures SortedBy(r, le) && multiset(r) == multiset(items) + multiset{item}
  {
    if items == [] then [item]
    else if le(item, items[0]) then [item] + items
    else
      var placed := Insert(items[1..], item, le);
      assert items == [items[0]] + items[1..];
      HeadStays(items[0], items[1..], item, placed, le);
      [items[0]] + placed
  }

  lemma HeadStays<T(!new)>(first: T, rest: seq<T>, item: T, placed: seq<T>, le: (T, T) -> bool)
    requires SortedBy([first] + rest, le) && le(first, item)
    requires SortedBy(placed, le) && multiset(placed) == multiset(rest) + multiset{item}
    ensures SortedBy([first] + placed, le)
  {
    forall i | 0 <= i < |placed|
      ensures le(first, placed[i])
    {
      assert placed[i] in multiset(placed);
      if placed[i] != item {
        assert placed[i] in multiset(rest);
        var j :| 0 <= j < |rest| && rest[j] == placed[i];
        assert ([first] + rest)[j + 1] == placed[i] && le(([first] + rest)[0], ([first] + rest)[j + 1]);
      }
    }
  }

  /** What the sort of the standard library comes to, up to the order of equal items. */
  function Sort<T(!new)>(items: seq<T>, le: (T, T) -> bool): (r: seq<T>)
    requires IsTotalOrder(le)
    ensures SortedBy(r, le) && multiset(r) == multiset(items)
  {
    if items == [] then []
    else
      assert items == items[..|items| - 1] + [items[|items| - 1]];
      Insert(Sort(items[..|items| - 1], le), items[|items| - 1], le)
  }
}
