/**
  The restaurant's menu: the shape of a catalog entry and the fixed catalog
  the page offers. Identifiers and prices are whole numbers (prices are in
  roubles), so they are modelled as mathematical integers.
 */
module Menu {

  /** A catalog entry. Only `id` and `price` influence the cart; the other
      fields are carried along unchanged into cart lines. */
  datatype MenuItem = MenuItem(
    id: int,
    name: string,
    description: string,
    price: int,
    weight: string,
    image: string,
    isPopular: bool)

  /** The six dishes the page lists, in display order. */
  const Catalog: seq<MenuItem> := [
    MenuItem(1, "Шашлык из свинины", "Сочное мясо, маринованное по классическому рецепту", 450, "300г",
      "https://cdn.poehali.dev/projects/846d26ec-eea5-49de-abd3-3bffbfd04a10/files/9df55331-9399-4c38-b07b-baada925e3bc.jpg", true),
    MenuItem(2, "Шашлык из курицы", "Нежная куриная грудка с пряными травами", 350, "300г",
      "https://cdn.poehali.dev/projects/846d26ec-eea5-49de-abd3-3bffbfd04a10/files/771374b5-b1ec-4ece-8266-93176d67c79d.jpg", true),
    MenuItem(3, "Шашлык из баранины", "Традиционный восточный шашлык с луком", 550, "300г",
      "https://cdn.poehali.dev/projects/846d26ec-eea5-49de-abd3-3bffbfd04a10/files/6fc3596f-e887-467e-8886-ddb5f52d426c.jpg", false),
    MenuItem(4, "Люля-кебаб", "Рубленое мясо с ароматными специями", 380, "250г",
      "https://cdn.poehali.dev/projects/846d26ec-eea5-49de-abd3-3bffbfd04a10/files/9df55331-9399-4c38-b07b-baada925e3bc.jpg", true),
    MenuItem(5, "Шашлык из говядины", "Отборная мраморная говядина", 520, "300г",
      "https://cdn.poehali.dev/projects/846d26ec-eea5-49de-abd3-3bffbfd04a10/files/771374b5-b1ec-4ece-8266-93176d67c79d.jpg", false),
    MenuItem(6, "Овощи на мангале", "Микс из свежих овощей гриль", 250, "200г",
      "/placeholder.svg", false)
  ]

  /** No two entries share an identifier. This is a fact about the catalog
      data, not an operation: the page's remove button passes only an id, so
      an id must name exactly one dish. The cart's own invariant
      (`ShoppingCart.Valid`) states the same of cart lines. */
  predicate DistinctIds(items: seq<MenuItem>) {
    forall i, j :: 0 <= i < j < |items| ==> items[i].id != items[j].id
  }

  /** The catalog's identifiers are distinct and every price is positive. */
  lemma CatalogWellFormed()
    ensures DistinctIds(Catalog)
    ensures forall i :: 0 <= i < |Catalog| ==> Catalog[i].price > 0
  {
    assert forall i :: 0 <= i < |Catalog| ==> Catalog[i].id == i + 1;
  }
}
