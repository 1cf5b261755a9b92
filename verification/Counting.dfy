/** Counting the elements of a sequence, or of a finite set, that meet a condition. */
module Counting {

  function Count<T>(items: seq<T>, p: T -> bool): (n: nat)
    ensures n <= |items|
  {
    if items == [] then 0
    else Count(items[..|items| - 1], p) + if p(items[|items| - 1]) then 1 else 0
  }

  lemma CountAppend<T>(items: seq<T>, item: T, p: T -> bool)
    ensures Count(items + [item], p) == Count(items, p) + if p(item) then 1 else 0
  {
    assert (items + [item])[..|items|] == items;
  }

  lemma {:induction false} CountUpdate<T>(items: seq<T>, i: nat, item: T, p: T -> bool)
    requires i < |items|
    ensures Count(items[i := item], p) + (if p(items[i]) then 1 else 0) == Count(items, p) + if p(item) then 1 else 0
  {
    var last := |items| - 1;
    if i == last {
      assert items[i := item][..last] == items[..last];
    } else {
      assert items[i := item][..last] == items[..last][i := item];
      CountUpdate(items[..last], i, item, p);
    }
  }

  lemma {:induction false} CountIsPositive<T>(items: seq<T>, i: nat, p: T -> bool)
    requires i < |items| && p(items[i])
    ensures Count(items, p) > 0
  {
    if i < |items| - 1 {
      CountIsPositive(items[..|items| - 1], i, p);
    }
  }

  lemma {:induction false} CountHasWitness<T>(items: seq<T>, p: T -> bool) returns (i: nat)
    requires Count(items, p) > 0
    ensures i < |items| && p(items[i])
  {
    var last := |items| - 1;
    if p(items[last]) {
      i := last;
    } else {
      i := CountHasWitness(items[..last], p);
    }
  }

  lemma {:induction false} CountIsZero<T>(items: seq<T>, p: T -> bool)
    requires forall x | x in items :: !p(x)
    ensures Count(items, p) == 0
  {
    if items != [] {
      assert items[|items| - 1] in items;
      CountIsZero(items[..|items| - 1], p);
    }
  }

  /** Counting the elements is counting their places. */
  lemma {:induction false} CountIsSize<T>(items: seq<T>, p: T -> bool, places: set<nat>)
    requires forall i: nat :: i in places <==> i < |items| && p(items[i])
    ensures |places| == Count(items, p)
  {
    if items == [] {
      assert places == {};
    } else {
      var last := |items| - 1;
      CountIsSize(items[..last], p, places - {last});
      assert last in places ==> places == (places - {last}) + {last};
      assert last !in places ==> places == places - {last};
    }
  }

  lemma {:induction false} EitherCount<T>(items: seq<T>, p: T -> bool, q: T -> bool, either: T -> bool)
    requires forall x :: x in items ==> (either(x) <==> p(x) || q(x))
    ensures Count(items, either) <= Count(items, p) + Count(items, q)
  {
    if items != [] {
      assert items[|items| - 1] in items;
      EitherCount(items[..|items| - 1], p, q, either);
    }
  }

  lemma {:induction false} AllCount<T>(items: seq<T>, p: T -> bool)
    ensures Count(items, p) == |items| <==> forall i | 0 <= i < |items| :: p(items[i])
  {
    if items != [] {
      var before := items[..|items| - 1];
      AllCount(before, p);
      assert forall i | 0 <= i < |before| :: before[i] == items[i];
    }
  }

  lemma NoneCount<T>(items: seq<T>, p: T -> bool)
    ensures Count(items, p) == 0 <==> forall i | 0 <= i < |items| :: !p(items[i])
  {
    if Count(items, p) > 0 {
      var i := CountHasWitness(items, p);
    } else {
      forall i | 0 <= i < |items|
        ensures !p(items[i])
      {
        if p(items[i]) {
          CountIsPositive(items, i, p);
        }
      }
    }
  }

  lemma {:induction false} MoreCount<T>(items: seq<T>, p: T -> bool, q: T -> bool)
    requires forall x :: x in items && p(x) ==> q(x)
    ensures Count(items, p) <= Count(items, q)
  {
    if items != [] {
      assert items[|items| - 1] in items;
      MoreCount(items[..|items| - 1], p, q);
    }
  }

  lemma {:induction false} CountConcat<T>(a: seq<T>, b: seq<T>, p: T -> bool)
    ensures Count(a + b, p) == Count(a, p) + Count(b, p)
  {
    if b == [] {
      assert a + b == a;
    } else {
      var last := |b| - 1;
      assert (a + b)[..|a + b| - 1] == a + b[..last];
      CountConcat(a, b[..last], p);
    }
  }

  lemma {:induction false} CountRemove<T>(items: seq<T>, i: nat, p: T -> bool)
    requires i < |items|
    ensures Count(items, p) == Count(items[..i] + items[i + 1..], p) + if p(items[i]) then 1 else 0
  {
    var last := |items| - 1;
    if i == last {
      assert items[..i] + items[i + 1..] == items[..last];
    } else {
      CountRemove(items[..last], i, p);
      assert (items[..i] + items[i + 1..])[..last - 1] == items[..last][..i] + items[..last][i + 1..];
    }
  }
}
