/**
  The two figures the page derives from the cart: the amount to pay
  (sum of price times quantity) and the number of units (the badge on the
  cart button). `TotalPrice` and `TotalItems` are the reference sums;
  `ComputeTotalPrice` and `ComputeTotalItems` are the left folds the page
  actually performs, starting from zero and visiting the lines in order.
 */
module CartTotals {
  import opened ShoppingCart

  /** Sum of price times quantity over the lines. */
  function TotalPrice(c: Cart): int {
    if c == [] then 0 else c[0].item.price * c[0].quantity + TotalPrice(c[1..])
  }

  /** Sum of the quantities over the lines. */
  function TotalItems(c: Cart): int {
    if c == [] then 0 else c[0].quantity + TotalItems(c[1..])
  }

  /** Both sums split over a concatenation of carts. */
  lemma {:induction false} TotalsOfConcat(a: Cart, b: Cart)
    ensures TotalPrice(a + b) == TotalPrice(a) + TotalPrice(b)
    ensures TotalItems(a + b) == TotalItems(a) + TotalItems(b)
  {
    if a != [] {
      assert (a + b)[1..] == a[1..] + b;
      TotalsOfConcat(a[1..], b);
    } else {
      assert a + b == b;
    }
  }

  /** Changing line `k`'s quantity by `delta` moves the unit count by
      `delta` and the amount to pay by that line's price times `delta`. */
  lemma TotalsOfQuantityChange(c: Cart, k: nat, delta: int)
    requires k < |c|
    ensures TotalPrice(c[k := CartLine(c[k].item, c[k].quantity + delta)]) ==
              TotalPrice(c) + c[k].item.price * delta
    ensures TotalItems(c[k := CartLine(c[k].item, c[k].quantity + delta)]) == TotalItems(c) + delta
  {
    var line := CartLine(c[k].item, c[k].quantity + delta);
    assert c == c[..k] + [c[k]] + c[k + 1..];
    assert c[k := line] == c[..k] + [line] + c[k + 1..];
    TotalsOfConcat(c[..k] + [c[k]], c[k + 1..]);
    TotalsOfConcat(c[..k], [c[k]]);
    TotalsOfConcat(c[..k] + [line], c[k + 1..]);
    TotalsOfConcat(c[..k], [line]);
    Distribute(c[k].item.price, c[k].quantity, delta);
  }

  lemma Distribute(p: int, q: int, d: int)
    ensures p * (q + d) == p * q + p * d
  {
  }

  /** Deleting line `k` lowers each sum by that line's contribution. */
  lemma TotalsOfDelete(c: Cart, k: nat)
    requires k < |c|
    ensures TotalPrice(c[..k] + c[k + 1..]) == TotalPrice(c) - c[k].item.price * c[k].quantity
    ensures TotalItems(c[..k] + c[k + 1..]) == TotalItems(c) - c[k].quantity
  {
    assert c == c[..k] + [c[k]] + c[k + 1..];
    TotalsOfConcat(c[..k] + [c[k]], c[k + 1..]);
    TotalsOfConcat(c[..k], [c[k]]);
    TotalsOfConcat(c[..k], c[k + 1..]);
  }

  /** getTotalPrice: a left fold that adds each line's price times quantity. */
  method ComputeTotalPrice(c: Cart) returns (total: int)
    ensures total == TotalPrice(c)
  {
    total := 0;
    var i := 0;
    while i < |c|
      invariant 0 <= i <= |c|
      invariant total == TotalPrice(c[..i])
    {
      assert c[..i + 1] == c[..i] + [c[i]];
      TotalsOfConcat(c[..i], [c[i]]);
      total := total + c[i].item.price * c[i].quantity;
      i := i + 1;
    }
    assert c[..i] == c;
  }

  /** getTotalItems: a left fold that adds each line's quantity. */
  method ComputeTotalItems(c: Cart) returns (total: int)
    ensures total == TotalItems(c)
  {
    total := 0;
    var i := 0;
    while i < |c|
      invariant 0 <= i <= |c|
      invariant total == TotalItems(c[..i])
    {
      assert c[..i + 1] == c[..i] + [c[i]];
      TotalsOfConcat(c[..i], [c[i]]);
      total := total + c[i].quantity;
      i := i + 1;
    }
    assert c[..i] == c;
  }

  /** Both totals of the empty cart are zero. */
  lemma EmptyTotals()
    ensures TotalPrice(Empty) == 0 && TotalItems(Empty) == 0
  {
  }

  /** In a valid cart the unit count is at least the number of lines, so it
      is zero exactly when the cart is empty; this is what decides whether
      the badge on the cart button is shown. */
  lemma {:induction false} TotalItemsBoundsLines(c: Cart)
    requires Valid(c)
    ensures TotalItems(c) >= |c|
    ensures TotalItems(c) == 0 <==> c == []
    ensures TotalItems(c) > 0 <==> |c| > 0
  {
    if c != [] {
      assert Valid(c[1..]) by {
        assert forall j :: 0 <= j < |c[1..]| ==> c[1..][j] == c[j + 1];
      }
      TotalItemsBoundsLines(c[1..]);
      assert c[0].quantity >= 1;
    }
  }
}
