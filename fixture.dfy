/** The data the test suite seeds before each test, and the values its tests
    expect, stated over the model. Ids are the ones the store assigns on
    insertion, in insertion order. */
module Fixture {

  import opened Wrappers
  import opened Text
  import opened Models
  import opened Tables
  import opened Handlers

  const Amy := Cashier(1, "Amy", "Simpson")
  const Derek := Cashier(2, "Derek", "Masters")
  const Charlie := Cashier(3, "Charlie", "Vernon")

  const Food := Category(1, "Food")
  const Cleaning := Category(2, "Cleaning")
  const HomeImprovement := Category(3, "Home Improvement")

  const Tuna := Product(1, "Tuna", 1.25, "Bumble Bee", 1)
  const Tomatoes := Product(2, "Canned Tomatoes", 0.99, "Dole", 1)
  const ToiletPaper := Product(3, "Toilet Paper", 5.00, "Scott", 2)
  const DishSoap := Product(4, "Dishwashing Soap", 3.75, "Dawn", 2)
  const PictureKit := Product(5, "picture hanging kit", 8.75, "Acme", 3)
  const Milk := Product(6, "Milk 2%", 1.99, "Dairy", 1)

  function Midnight(year: int, month: int, day: int): DateTime
  {
    DateTime(Date(year, month, day), 0)
  }

  const Order1 := Order(1, 1, Some(Midnight(2023, 7, 16)))
  const Order2 := Order(2, 2, Some(Midnight(2023, 7, 18)))
  const Order3 := Order(3, 1, Some(Midnight(2023, 7, 20)))
  const Order4 := Order(4, 3, Some(Midnight(2023, 7, 13)))

  // The seeded line items, order by order.
  const Items1 := [OrderProduct(1, 1, 1), OrderProduct(3, 1, 1), OrderProduct(6, 1, 1)]
  const Items2 := [OrderProduct(1, 2, 5), OrderProduct(6, 2, 1), OrderProduct(5, 2, 1), OrderProduct(2, 2, 1)]
  const Items3 := [OrderProduct(3, 3, 1), OrderProduct(4, 3, 1), OrderProduct(2, 3, 1)]
  const Items4 := [OrderProduct(2, 4, 1)]

  function Seed(): Db
  {
    Db(
      map[1 := Amy, 2 := Derek, 3 := Charlie],
      map[1 := Food, 2 := Cleaning, 3 := HomeImprovement],
      map[1 := Tuna, 2 := Tomatoes, 3 := ToiletPaper, 4 := DishSoap, 5 := PictureKit, 6 := Milk],
      map[1 := Order1, 2 := Order2, 3 := Order3, 4 := Order4],
      Items1 + Items2 + Items3 + Items4,
      4, 7, 5)
  }

  lemma SeedValid()
    ensures Seed().Valid()
  {
  }

  /** The seeded line items of one order, loaded block by block. */
  lemma SeedLines(orderId: int, withCategory: bool)
    ensures LoadLines(Seed(), Seed().orderProducts, orderId, withCategory) ==
      LoadLines(Seed(), Items1, orderId, withCategory) + LoadLines(Seed(), Items2, orderId, withCategory) +
      LoadLines(Seed(), Items3, orderId, withCategory) + LoadLines(Seed(), Items4, orderId, withCategory)
  {
    LoadLinesAppend(Seed(), Items1 + Items2 + Items3, Items4, orderId, withCategory);
    LoadLinesAppend(Seed(), Items1 + Items2, Items3, orderId, withCategory);
    LoadLinesAppend(Seed(), Items1, Items2, orderId, withCategory);
  }

  /** The seeded orders, as GET /orders lists them. */
  lemma SeedOrders()
    ensures AllOrders(Seed()) == [Order1, Order2, Order3, Order4]
  {
    var m := Seed().orders;
    assert ListRows(m, 5, 5) == [];
    assert ListRows(m, 4, 5) == [Order4];
    assert ListRows(m, 3, 5) == [Order3, Order4];
    assert ListRows(m, 2, 5) == [Order2, Order3, Order4];
  }

  /** The seeded products, in id order. */
  lemma SeedProducts()
    ensures AllProducts(Seed()) == [Tuna, Tomatoes, ToiletPaper, DishSoap, PictureKit, Milk]
  {
    var m := Seed().products;
    assert ListRows(m, 7, 7) == [];
    assert ListRows(m, 6, 7) == [Milk];
    assert ListRows(m, 5, 7) == [PictureKit, Milk];
    assert ListRows(m, 4, 7) == [DishSoap, PictureKit, Milk];
    assert ListRows(m, 3, 7) == [ToiletPaper, DishSoap, PictureKit, Milk];
    assert ListRows(m, 2, 7) == [Tomatoes, ToiletPaper, DishSoap, PictureKit, Milk];
  }

  /** Each block of seeded line items loads nothing for the other orders. */
  lemma OtherBlocks(orderId: int, withCategory: bool)
    ensures orderId != 1 ==> LoadLines(Seed(), Items1, orderId, withCategory) == []
    ensures orderId != 2 ==> LoadLines(Seed(), Items2, orderId, withCategory) == []
    ensures orderId != 3 ==> LoadLines(Seed(), Items3, orderId, withCategory) == []
    ensures orderId != 4 ==> LoadLines(Seed(), Items4, orderId, withCategory) == []
  {
    if orderId != 1 { LoadLinesNoneNamed(Seed(), Items1, orderId, withCategory); }
    if orderId != 2 { LoadLinesNoneNamed(Seed(), Items2, orderId, withCategory); }
    if orderId != 3 { LoadLinesNoneNamed(Seed(), Items3, orderId, withCategory); }
    if orderId != 4 { LoadLinesNoneNamed(Seed(), Items4, orderId, withCategory); }
  }
}
