/** The order summary of components/Checkout.tsx: every cart entry is one
    unit at its integer price, and shipping is free. */
module Checkout {
  import opened Schema

  /** `items.reduce((sum, item) => sum + item.price, 0)`. */
  function Subtotal(items: seq<Product>): (sum: int)
    ensures items == [] ==> sum == 0
    ensures |items| == 1 ==> sum == items[0].price
  {
    if items == [] then 0
    else Subtotal(items[..|items| - 1]) + items[|items| - 1].price
  }

  /** With non-negative prices the subtotal is never negative. */
  lemma {:induction false} SubtotalNonNegative(items: seq<Product>)
    requires forall i :: 0 <= i < |items| ==> items[i].price >= 0
    ensures Subtotal(items) >= 0
  {
    if items != [] {
      var init := items[..|items| - 1];
      assert forall i :: 0 <= i < |init| ==> init[i] == items[i];
      SubtotalNonNegative(init);
    }
  }

  /** Free shipping. */
  const Shipping: int := 0

  datatype Summary = Summary(subtotal: int, shipping: int, total: int)

  /** The three amounts the summary shows. */
  function OrderSummary(items: seq<Product>): (s: Summary)
    ensures s.subtotal == Subtotal(items)
    ensures s.shipping == 0
    ensures s.total == s.subtotal
  {
    var subtotal := Subtotal(items);
    Summary(subtotal, Shipping, subtotal + Shipping)
  }

  /** The subtotal of a concatenation is the sum of the subtotals. */
  lemma {:induction false} SubtotalAppend(a: seq<Product>, b: seq<Product>)
    ensures Subtotal(a + b) == Subtotal(a) + Subtotal(b)
    decreases |b|
  {
    if b != [] {
      var init := b[..|b| - 1];
      SubtotalAppend(a, init);
      assert (a + b)[..|a + b| - 1] == a + init;
    } else {
      assert a + b == a;
    }
  }

  /** Taking out the entry at k removes exactly one copy of it. */
  lemma MultisetWithout<T>(s: seq<T>, k: nat)
    requires k < |s|
    ensures multiset(s[..k] + s[k + 1..]) == multiset(s) - multiset{s[k]}
  {
    SplitAt(s, k);
  }

  lemma SplitAt<T>(s: seq<T>, k: nat)
    requires k < |s|
    ensures s == s[..k] + [s[k]] + s[k + 1..]
  {
  }

  lemma SubtotalSplit(front: seq<Product>, x: Product, back: seq<Product>)
    ensures Subtotal(front + [x] + back) == Subtotal(front) + x.price + Subtotal(back)
  {
    SubtotalAppend(front + [x], back);
    SubtotalAppend(front, [x]);
  }

  /** Removing the entry at i lowers the subtotal by exactly its price. */
  lemma SubtotalWithout(items: seq<Product>, i: nat)
    requires i < |items|
    ensures Subtotal(items[..i] + items[i + 1..]) == Subtotal(items) - items[i].price
  {
    var front, back := items[..i], items[i + 1..];
    SplitAt(items, i);
    SubtotalSplit(front, items[i], back);
    SubtotalAppend(front, back);
  }

  /** Each entry counts once at quantity one, so the subtotal depends only
      on which entries the cart holds and how often, not on their order: a
      product in the cart twice is paid twice. */
  lemma {:induction false} SubtotalOfPermutation(a: seq<Product>, b: seq<Product>)
    requires multiset(a) == multiset(b)
    ensures Subtotal(a) == Subtotal(b)
    decreases |a|
  {
    if a == [] {
      assert |b| == |multiset(b)| == 0;
    } else {
      var init, x := a[..|a| - 1], a[|a| - 1];
      assert a == init + [x];
      assert x in multiset(b);
      var k :| 0 <= k < |b| && b[k] == x;
      var rest := b[..k] + b[k + 1..];
      MultisetWithout(b, k);
      MultisetWithout(a, |a| - 1);
      assert a[..|a| - 1] + a[|a|..] == init;
      SubtotalOfPermutation(init, rest);
      SubtotalWithout(b, k);
    }
  }
}
