/**
  A page session: the cart starts empty when the page loads and then sees
  a sequence of button presses, each an add of a dish or a remove by id.
 */
module Session {
  import opened Menu
  import opened ShoppingCart
  import opened CartTotals
  import opened CartProperties

  /** One press of an add ("+" or "В корзину") or remove ("-") button. */
  datatype Event = AddItem(item: MenuItem) | RemoveId(id: int)

  function Step(c: Cart, e: Event): Cart {
    match e
    case AddItem(item) => Add(c, item)
    case RemoveId(id) => Remove(c, id)
  }

  /** The cart after the given presses, applied in order to the empty cart. */
  function Replay(events: seq<Event>): Cart {
    if events == [] then Empty
    else Step(Replay(events[..|events| - 1]), events[|events| - 1])
  }

  /** Presses that changed the unit count: every add counts plus one, and a
      remove counts minus one when its id was in the cart at that moment
      (a remove of an absent id does nothing). */
  function NetUnits(events: seq<Event>): int {
    if events == [] then 0
    else
      var before := events[..|events| - 1];
      NetUnits(before) +
        match events[|events| - 1]
        case AddItem(_) => 1
        case RemoveId(id) => if HasId(Replay(before), id) then -1 else 0
  }

  /** Every cart a session can reach satisfies the invariant, and its unit
      count equals the number of effective presses, so it is never negative
      and is zero exactly when the cart has no lines. */
  lemma {:induction false} ReplayInvariant(events: seq<Event>)
    ensures Valid(Replay(events))
    ensures TotalItems(Replay(events)) == NetUnits(events)
    ensures NetUnits(events) >= 0
    ensures NetUnits(events) == 0 <==> Replay(events) == []
  {
    if events == [] {
      EmptyIsValid();
    } else {
      var before := events[..|events| - 1];
      ReplayInvariant(before);
      var c := Replay(before);
      match events[|events| - 1]
      case AddItem(item) =>
        AddPreservesValid(c, item);
        AddTotals(c, item);
      case RemoveId(id) =>
        RemovePreservesValid(c, id);
        RemoveTotals(c, id);
    }
    TotalItemsBoundsLines(Replay(events));
  }

  /** Adding the same dish twice to an empty cart gives one line holding two
      units, not two lines. */
  lemma AddTwiceMakesOneLine(item: MenuItem)
    ensures Add(Add(Empty, item), item) == [CartLine(item, 2)]
  {
    AddNewLine(Empty, item);
    AddExistingLine([CartLine(item, 1)], item, 0);
  }

  /** The two dishes of the walk-through below: pork skewers (id 1, 450)
      and chicken skewers (id 2, 350). */
  const Pork: MenuItem := Catalog[0]
  const Chicken: MenuItem := Catalog[1]

  /** Walk-through, adding: pork, pork again, then chicken. */
  lemma WalkthroughAdds()
    ensures Add(Empty, Pork) == [CartLine(Pork, 1)]
    ensures Add([CartLine(Pork, 1)], Pork) == [CartLine(Pork, 2)]
    ensures Add([CartLine(Pork, 2)], Chicken) == [CartLine(Pork, 2), CartLine(Chicken, 1)]
  {
    assert Pork.id == 1 && Chicken.id == 2;
    AddNewLine(Empty, Pork);
    AddExistingLine([CartLine(Pork, 1)], Pork, 0);
    assert !HasId([CartLine(Pork, 2)], Chicken.id);
    AddNewLine([CartLine(Pork, 2)], Chicken);
  }

  /** Walk-through, removing id 1 twice: first a decrement, then the pork
      line disappears and only chicken is left. */
  lemma WalkthroughRemoves()
    ensures Remove([CartLine(Pork, 2), CartLine(Chicken, 1)], 1) == [CartLine(Pork, 1), CartLine(Chicken, 1)]
    ensures Remove([CartLine(Pork, 1), CartLine(Chicken, 1)], 1) == [CartLine(Chicken, 1)]
  {
    assert Pork.id == 1 && Chicken.id == 2;
    RemoveDecrements([CartLine(Pork, 2), CartLine(Chicken, 1)], 1, 0);
    var c4 := [CartLine(Pork, 1), CartLine(Chicken, 1)];
    RemoveDeletesLine(c4, 1, 0);
    assert c4[..0] + c4[1..] == [CartLine(Chicken, 1)];
  }

  /** Walk-through, the amount to pay and the unit count after each press. */
  lemma WalkthroughTotals()
    ensures TotalPrice([CartLine(Pork, 1)]) == 450 && TotalItems([CartLine(Pork, 1)]) == 1
    ensures TotalPrice([CartLine(Pork, 2)]) == 900 && TotalItems([CartLine(Pork, 2)]) == 2
    ensures TotalPrice([CartLine(Pork, 2), CartLine(Chicken, 1)]) == 1250
    ensures TotalItems([CartLine(Pork, 2), CartLine(Chicken, 1)]) == 3
    ensures TotalPrice([CartLine(Pork, 1), CartLine(Chicken, 1)]) == 800
    ensures TotalItems([CartLine(Pork, 1), CartLine(Chicken, 1)]) == 2
    ensures TotalPrice([CartLine(Chicken, 1)]) == 350 && TotalItems([CartLine(Chicken, 1)]) == 1
  {
    assert Pork.price == 450 && Chicken.price == 350;
    TotalsOfConcat([CartLine(Pork, 2)], [CartLine(Chicken, 1)]);
    TotalsOfConcat([CartLine(Pork, 1)], [CartLine(Chicken, 1)]);
    assert [CartLine(Pork, 2)] + [CartLine(Chicken, 1)] == [CartLine(Pork, 2), CartLine(Chicken, 1)];
    assert [CartLine(Pork, 1)] + [CartLine(Chicken, 1)] == [CartLine(Pork, 1), CartLine(Chicken, 1)];
  }
}
