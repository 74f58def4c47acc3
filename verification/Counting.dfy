/** Cardinalities of finite sets. */
module Counting {
  /** An injective image of a finite set has as many elements as the set. */
  lemma {:induction false} ImageCount<A, B>(a: set<A>, f: A -> B, img: set<B>)
    requires forall x, y :: x in a && y in a && f(x) == f(y) ==> x == y
    requires forall x :: x in a ==> f(x) in img
    requires forall y :: y in img ==> exists x :: x in a && f(x) == y
    ensures |img| == |a|
    decreases |a|
  {
    if a == {} {
      assert img == {};
    } else {
      var x :| x in a;
      ImageCount(a - {x}, f, img - {f(x)});
      assert img == (img - {f(x)}) + {f(x)};
    }
  }

  lemma {:induction false} SubsetCount<T>(a: set<T>, b: set<T>)
    requires a <= b
    ensures |a| <= |b|
    ensures |a| == |b| ==> a == b
  {
    assert b == a + (b - a);
    assert |b| == |a| + |b - a|;
  }

  lemma MulStep(n: nat, w: nat)
    ensures (n + 1) * w == n * w + w
  {
  }

  // ---- Sums over finite sets ----

  ghost function SumOver<T>(keys: set<T>, f: T -> int): int {
    if keys == {} then 0 else var k :| k in keys; f(k) + SumOver(keys - {k}, f)
  }

  /** Any element may be taken out of a sum first. */
  lemma {:induction false} SumPick<T>(keys: set<T>, f: T -> int, k: T)
    requires k in keys
    ensures SumOver(keys, f) == f(k) + SumOver(keys - {k}, f)
    decreases |keys|
  {
    var j :| j in keys && SumOver(keys, f) == f(j) + SumOver(keys - {j}, f);
    if j != k {
      SumPick(keys - {j}, f, k);
      SumPick(keys - {k}, f, j);
      assert keys - {j} - {k} == keys - {k} - {j};
    }
  }

  lemma {:induction false} SumSame<T>(keys: set<T>, f: T -> int, g: T -> int)
    requires forall k :: k in keys ==> f(k) == g(k)
    ensures SumOver(keys, f) == SumOver(keys, g)
    decreases |keys|
  {
    if keys != {} {
      var k :| k in keys;
      SumPick(keys, f, k);
      SumPick(keys, g, k);
      SumSame(keys - {k}, f, g);
    }
  }

  /** Adding a key, or changing the value at one, changes the sum by the difference there. */
  lemma SumChange<T>(keys: set<T>, f: T -> int, g: T -> int, k: T)
    requires forall j :: j in keys && j != k ==> f(j) == g(j)
    ensures SumOver(keys + {k}, g) == SumOver(keys, f) + g(k) - (if k in keys then f(k) else 0)
  {
    SumPick(keys + {k}, g, k);
    SumSame(keys - {k}, f, g);
    assert (keys + {k}) - {k} == keys - {k};
    if k in keys {
      SumPick(keys, f, k);
    }
  }
}
