/**
  The shopping cart of the ordering page: an insertion-ordered sequence of
  lines, each a catalog item with a quantity, and the two updates the page
  applies to it (add one unit of an item, remove one unit by id). Both
  updates are pure functions from the previous cart to the next one, the
  way the page hands them to its state setter.
 */
module ShoppingCart {
  import opened Menu

  datatype Option<T> = None | Some(value: T)

  /** A cart line: the item as it was when first added, and how many of it. */
  datatype CartLine = CartLine(item: MenuItem, quantity: int)

  type Cart = seq<CartLine>

  const Empty: Cart := []

  /** Some line of `c` carries identifier `id`. */
  predicate HasId(c: Cart, id: int) {
    exists j :: 0 <= j < |c| && c[j].item.id == id
  }

  /** The representation invariant: at most one line per identifier, and no
      line with a quantity below one. */
  predicate Valid(c: Cart) {
    && (forall i, j :: 0 <= i < j < |c| ==> c[i].item.id != c[j].item.id)
    && (forall i :: 0 <= i < |c| ==> c[i].quantity >= 1)
  }

  /** Line `k` is the one and only line of `c` with identifier `id`. */
  predicate SoleLine(c: Cart, id: int, k: nat) {
    && k < |c|
    && c[k].item.id == id
    && forall j :: 0 <= j < |c| && j != k ==> c[j].item.id != id
  }

  /** The position of the first line with identifier `id`, if any
      (the array `find` the page performs before each update). */
  function FindIndex(c: Cart, id: int): (r: Option<nat>)
    ensures r.None? <==> !HasId(c, id)
    ensures r.Some? ==> r.value < |c| && c[r.value].item.id == id
    ensures r.Some? ==> forall j :: 0 <= j < r.value ==> c[j].item.id != id
  {
    if c == [] then None
    else if c[0].item.id == id then Some(0)
    else match FindIndex(c[1..], id)
      case None =>
        assert forall j :: 1 <= j < |c| ==> c[j] == c[1..][j - 1];
        None
      case Some(k) => Some(k + 1)
  }

  /** Adds `delta` to the quantity of every line with identifier `id` and
      leaves every other line as it is (the page's `map` over the lines). */
  function AdjustQuantity(c: Cart, id: int, delta: int): (r: Cart)
    ensures |r| == |c|
    ensures forall i :: 0 <= i < |c| && c[i].item.id != id ==> r[i] == c[i]
    ensures forall i :: 0 <= i < |c| && c[i].item.id == id ==>
              r[i] == CartLine(c[i].item, c[i].quantity + delta)
  {
    if c == [] then []
    else
      var head := if c[0].item.id == id then CartLine(c[0].item, c[0].quantity + delta) else c[0];
      [head] + AdjustQuantity(c[1..], id, delta)
  }

  /** Drops every line with identifier `id`, keeping the others in order
      (the page's `filter` over the lines). The contract below tracks which
      lines are kept; that their order is kept too is
      `CartProperties.WithoutOfConcat` and `CartProperties.WithoutSingleLine`. */
  function Without(c: Cart, id: int): (r: Cart)
    ensures |r| <= |c|
    ensures !HasId(r, id)
    ensures forall i :: 0 <= i < |r| ==> r[i] in c
    ensures forall i :: 0 <= i < |c| && c[i].item.id != id ==> c[i] in r
    ensures !HasId(c, id) ==> r == c
  {
    if c == [] then []
    else if c[0].item.id == id then Without(c[1..], id)
    else
      assert !HasId(c, id) ==> !HasId(c[1..], id) by {
        assert forall j :: 0 <= j < |c[1..]| ==> c[1..][j] == c[j + 1];
      }
      [c[0]] + Without(c[1..], id)
  }

  /** addToCart: one more unit of `item`. An existing line with the same id
      has its quantity raised by one; otherwise a new line with quantity one
      is appended at the end. */
  function Add(c: Cart, item: MenuItem): (r: Cart)
    ensures HasId(r, item.id)
    ensures HasId(c, item.id) ==>
              && |r| == |c|
              && (forall i :: 0 <= i < |c| ==> r[i].item == c[i].item)
              && (forall i :: 0 <= i < |c| ==>
                    r[i].quantity == c[i].quantity + (if c[i].item.id == item.id then 1 else 0))
    ensures !HasId(c, item.id) ==>
              && |r| == |c| + 1
              && r[..|c|] == c
              && r[|c|].item == item
              && r[|c|].quantity == 1
  {
    match FindIndex(c, item.id)
    case Some(_) => AdjustQuantity(c, item.id, 1)
    case None =>
      var r := c + [CartLine(item, 1)];
      assert r[|c|].item.id == item.id;
      r
  }

  /** removeFromCart: one unit fewer of the item with identifier `id`. When
      the first line with that id holds more than one unit, quantities with
      that id drop by one; otherwise every line with that id is filtered out
      (which leaves a cart without such a line unchanged). The exact result
      of each branch, order included, is stated by
      `CartProperties.RemoveDecrements` and `CartProperties.RemoveDeletesLine`. */
  function Remove(c: Cart, id: int): (r: Cart)
    ensures !HasId(c, id) ==> r == c
    ensures |r| <= |c|
    ensures forall i :: 0 <= i < |r| ==> r[i].item.id != id ==> r[i] in c
    ensures forall l :: l in c && l.item.id != id ==> l in r
  {
    match FindIndex(c, id)
    case Some(k) =>
      if c[k].quantity > 1 then AdjustQuantity(c, id, -1) else Without(c, id)
    case None => Without(c, id)
  }
}
