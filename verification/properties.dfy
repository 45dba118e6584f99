/**
  What the two cart updates do to a cart that satisfies the representation
  invariant: exactly which line changes, that the invariant survives, that
  removing undoes adding, and how the two totals move.
 */
module CartProperties {
  import opened Menu
  import opened ShoppingCart
  import opened CartTotals

  /** Filtering distributes over concatenation. */
  lemma {:induction false} WithoutOfConcat(a: Cart, b: Cart, id: int)
    ensures Without(a + b, id) == Without(a, id) + Without(b, id)
  {
    if a == [] {
      assert a + b == b;
    } else {
      assert (a + b)[0] == a[0];
      assert (a + b)[1..] == a[1..] + b;
      WithoutOfConcat(a[1..], b, id);
    }
  }

  /** No line of `c` other than line `k` carries `id`: the slices before and
      after line `k` do not mention it. */
  lemma OnlyLineSlices(c: Cart, id: int, k: nat)
    requires k < |c|
    requires forall j :: 0 <= j < |c| && j != k ==> c[j].item.id != id
    ensures !HasId(c[..k], id) && !HasId(c[k + 1..], id)
  {
    var after := c[k + 1..];
    assert forall j :: 0 <= j < |after| ==> after[j] == c[k + 1 + j];
  }

  /** Filtering out an id that only line `k` carries deletes exactly that
      line and keeps the rest in order. */
  lemma WithoutSingleLine(c: Cart, id: int, k: nat)
    requires SoleLine(c, id, k)
    ensures Without(c, id) == c[..k] + c[k + 1..]
  {
    assert c == c[..k] + ([c[k]] + c[k + 1..]);
    WithoutOfConcat(c[..k], [c[k]] + c[k + 1..], id);
    WithoutOfConcat([c[k]], c[k + 1..], id);
    OnlyLineSlices(c, id, k);
    assert Without([c[k]], id) == [] by {
      assert [c[k]][1..] == [];
    }
  }

  /** In a valid cart each line is the only one with its identifier. */
  lemma ValidSoleLine(c: Cart, k: nat)
    requires Valid(c) && k < |c|
    ensures SoleLine(c, c[k].item.id, k)
  {
  }

  /** Adding an item whose id is not in the cart appends one line with
      quantity one and leaves every earlier line where it was. */
  lemma AddNewLine(c: Cart, item: MenuItem)
    requires !HasId(c, item.id)
    ensures Add(c, item) == c + [CartLine(item, 1)]
  {
    var r := Add(c, item);
    assert r == r[..|c|] + [r[|c|]];
  }

  /** Adding an item whose id only line `k` carries raises that line's
      quantity by one; length, order and every other line stay as they were. */
  lemma AddExistingLine(c: Cart, item: MenuItem, k: nat)
    requires SoleLine(c, item.id, k)
    ensures Add(c, item) == c[k := CartLine(c[k].item, c[k].quantity + 1)]
  {
  }

  /** Removing an id that only line `k` carries, when that line holds more
      than one unit, lowers its quantity by one and changes nothing else. */
  lemma RemoveDecrements(c: Cart, id: int, k: nat)
    requires SoleLine(c, id, k) && c[k].quantity > 1
    ensures Remove(c, id) == c[k := CartLine(c[k].item, c[k].quantity - 1)]
  {
  }

  /** Removing an id that only line `k` carries, when that line holds at
      most one unit, deletes the line; the others keep their relative order. */
  lemma RemoveDeletesLine(c: Cart, id: int, k: nat)
    requires SoleLine(c, id, k) && c[k].quantity <= 1
    ensures Remove(c, id) == c[..k] + c[k + 1..]
  {
    WithoutSingleLine(c, id, k);
  }

  /** The empty cart the page starts with satisfies the invariant. */
  lemma EmptyIsValid()
    ensures Valid(Empty)
  {
  }

  /** Deleting any one line of a valid cart leaves a valid cart. */
  lemma DeleteKeepsValid(c: Cart, k: nat)
    requires Valid(c) && k < |c|
    ensures Valid(c[..k] + c[k + 1..])
  {
    var r := c[..k] + c[k + 1..];
    assert forall j :: 0 <= j < k ==> r[j] == c[j];
    assert forall j :: k <= j < |r| ==> r[j] == c[j + 1];
  }

  /** Adding keeps ids distinct and quantities at least one. */
  lemma AddPreservesValid(c: Cart, item: MenuItem)
    requires Valid(c)
    ensures Valid(Add(c, item))
  {
    if HasId(c, item.id) {
      var k :| 0 <= k < |c| && c[k].item.id == item.id;
      ValidSoleLine(c, k);
      AddExistingLine(c, item, k);
    } else {
      AddNewLine(c, item);
    }
  }

  /** Removing keeps ids distinct and quantities at least one. */
  lemma RemovePreservesValid(c: Cart, id: int)
    requires Valid(c)
    ensures Valid(Remove(c, id))
  {
    if HasId(c, id) {
      var k :| 0 <= k < |c| && c[k].item.id == id;
      ValidSoleLine(c, k);
      if c[k].quantity > 1 {
        RemoveDecrements(c, id, k);
      } else {
        RemoveDeletesLine(c, id, k);
        DeleteKeepsValid(c, k);
      }
    }
  }

  /** Raising line `k` by one unit keeps it the only line with its id. */
  lemma IncrementKeepsSoleLine(c: Cart, id: int, k: nat)
    requires SoleLine(c, id, k)
    ensures SoleLine(c[k := CartLine(c[k].item, c[k].quantity + 1)], id, k)
  {
  }

  /** Removing an item's id right after adding that item gives back the cart
      as it was, whether the add appended a line or raised a quantity. */
  lemma RemoveUndoesAdd(c: Cart, item: MenuItem)
    requires Valid(c)
    ensures Remove(Add(c, item), item.id) == c
  {
    if HasId(c, item.id) {
      var k :| 0 <= k < |c| && c[k].item.id == item.id;
      ValidSoleLine(c, k);
      AddExistingLine(c, item, k);
      var r := c[k := CartLine(c[k].item, c[k].quantity + 1)];
      IncrementKeepsSoleLine(c, item.id, k);
      RemoveDecrements(r, item.id, k);
      assert r[k := CartLine(r[k].item, r[k].quantity - 1)] == c;
    } else {
      AddNewLine(c, item);
      var r := c + [CartLine(item, 1)];
      assert SoleLine(r, item.id, |c|);
      RemoveDeletesLine(r, item.id, |c|);
      assert r[..|c|] + r[|c| + 1..] == c;
    }
  }

  /** Adding the item whose id only line `k` carries raises the unit count by
      one and the amount to pay by line `k`'s stored price. */
  lemma AddLineTotals(c: Cart, item: MenuItem, k: nat)
    requires SoleLine(c, item.id, k)
    ensures TotalItems(Add(c, item)) == TotalItems(c) + 1
    ensures TotalPrice(Add(c, item)) == TotalPrice(c) + c[k].item.price
  {
    AddExistingLine(c, item, k);
    TotalsOfQuantityChange(c, k, 1);
  }

  /** Adding an item whose id is not in the cart raises the unit count by
      one and the amount to pay by the item's price. */
  lemma AddNewLineTotals(c: Cart, item: MenuItem)
    requires !HasId(c, item.id)
    ensures TotalItems(Add(c, item)) == TotalItems(c) + 1
    ensures TotalPrice(Add(c, item)) == TotalPrice(c) + item.price
  {
    AddNewLine(c, item);
    TotalsOfConcat(c, [CartLine(item, 1)]);
  }

  /** Adding raises the unit count by one. The amount to pay rises by the
      new item's price when a line is appended, and by the stored line's
      price when an existing line is incremented. */
  lemma AddTotals(c: Cart, item: MenuItem)
    requires Valid(c)
    ensures TotalItems(Add(c, item)) == TotalItems(c) + 1
    ensures !HasId(c, item.id) ==> TotalPrice(Add(c, item)) == TotalPrice(c) + item.price
    ensures forall k :: 0 <= k < |c| && c[k].item.id == item.id ==>
              TotalPrice(Add(c, item)) == TotalPrice(c) + c[k].item.price
  {
    if HasId(c, item.id) {
      forall k | 0 <= k < |c| && c[k].item.id == item.id
        ensures TotalItems(Add(c, item)) == TotalItems(c) + 1
        ensures TotalPrice(Add(c, item)) == TotalPrice(c) + c[k].item.price
      {
        ValidSoleLine(c, k);
        AddLineTotals(c, item, k);
      }
    } else {
      AddNewLineTotals(c, item);
    }
  }

  /** Removing an id that only line `k` carries, with at least one unit on
      that line, lowers the unit count by one and the amount to pay by line
      `k`'s price, whichever branch the removal takes. */
  lemma RemoveLineTotals(c: Cart, id: int, k: nat)
    requires SoleLine(c, id, k) && c[k].quantity >= 1
    ensures TotalItems(Remove(c, id)) == TotalItems(c) - 1
    ensures TotalPrice(Remove(c, id)) == TotalPrice(c) - c[k].item.price
  {
    if c[k].quantity > 1 {
      RemoveDecrements(c, id, k);
      TotalsOfQuantityChange(c, k, -1);
    } else {
      RemoveDeletesLine(c, id, k);
      TotalsOfDelete(c, k);
    }
  }

  /** Removing a present id lowers the unit count by one and the amount to
      pay by that line's price; removing an absent id changes neither. */
  lemma RemoveTotals(c: Cart, id: int)
    requires Valid(c)
    ensures !HasId(c, id) ==>
              TotalItems(Remove(c, id)) == TotalItems(c) && TotalPrice(Remove(c, id)) == TotalPrice(c)
    ensures forall k :: 0 <= k < |c| && c[k].item.id == id ==>
              && TotalItems(Remove(c, id)) == TotalItems(c) - 1
              && TotalPrice(Remove(c, id)) == TotalPrice(c) - c[k].item.price
  {
    forall k | 0 <= k < |c| && c[k].item.id == id
      ensures TotalItems(Remove(c, id)) == TotalItems(c) - 1
      ensures TotalPrice(Remove(c, id)) == TotalPrice(c) - c[k].item.price
    {
      ValidSoleLine(c, k);
      RemoveLineTotals(c, id, k);
    }
  }
}
