/** The order endpoints on the seeded store: GET /orders/2, GET /orders with
    and without a date, DELETE /orders/1 and POST /orders. */
module OrderExamples {

  import opened Wrappers
  import opened Text
  import opened Models
  import opened Tables
  import opened Handlers
  import opened Fixture

  lemma OrderTwoBlock()
    ensures LoadLines(Seed(), Items2, 2, true) == [
      LineView(OrderProduct(1, 2, 5), Some(ProductView(Tuna, Some(Food)))),
      LineView(OrderProduct(6, 2, 1), Some(ProductView(Milk, Some(Food)))),
      LineView(OrderProduct(5, 2, 1), Some(ProductView(PictureKit, Some(HomeImprovement)))),
      LineView(OrderProduct(2, 2, 1), Some(ProductView(Tomatoes, Some(Food))))]
  {
    LoadLinesAllNamed(Seed(), Items2, 2, true);
  }

  lemma OrderTwoLines()
    ensures LoadLines(Seed(), Seed().orderProducts, 2, true) == [
      LineView(OrderProduct(1, 2, 5), Some(ProductView(Tuna, Some(Food)))),
      LineView(OrderProduct(6, 2, 1), Some(ProductView(Milk, Some(Food)))),
      LineView(OrderProduct(5, 2, 1), Some(ProductView(PictureKit, Some(HomeImprovement)))),
      LineView(OrderProduct(2, 2, 1), Some(ProductView(Tomatoes, Some(Food))))]
  {
    SeedLines(2, true);
    OtherBlocks(2, true);
    OrderTwoBlock();
  }

  lemma OrderTwoTotal()
    ensures Total(Some(LoadLines(Seed(), Seed().orderProducts, 2, true))) == 17.98
  {
    OrderTwoLines();
    var lines := LoadLines(Seed(), Seed().orderProducts, 2, true);
    assert SumLines(lines[3..]) == 0.99;
    assert SumLines(lines[2..]) == 8.75 + 0.99;
    assert SumLines(lines[1..]) == 1.99 + 8.75 + 0.99;
    assert SumLines(lines) == 6.25 + 1.99 + 8.75 + 0.99;
  }

  /** GET /orders/2: four line items, Tuna five times, total 17.98. */
  lemma OrderTwoExample()
    ensures GetOrder(Seed(), 2).Ok?
    ensures var v := GetOrder(Seed(), 2).value;
      && v.order.id == 2
      && |v.orderProducts| == 4
      && v.orderProducts[0].product == Some(ProductView(Tuna, Some(Food)))
      && v.orderProducts[0].item.quantity == 5
      && OrderTotal(v) == 17.98
  {
    SeedValid();
    GetOrderFinds(Seed(), 2);
    OrderTwoLines();
    OrderTwoTotal();
  }

  /** GET /orders lists the four seeded orders. */
  lemma ListOrdersExample(parse: string -> Option<DateTime>)
    ensures |ListOrders(Seed(), None, parse)| == 4
  {
    SeedOrders();
  }

  lemma DateFilter()
    ensures Filter([Order1, Order2, Order3, Order4], (o: Order) => PaidOn(o, Date(2023, 7, 20))) == [Order3]
  {
    var keep := (o: Order) => PaidOn(o, Date(2023, 7, 20));
    assert Filter([Order4], keep) == [];
    assert Filter([Order3, Order4], keep) == [Order3];
    assert Filter([Order2, Order3, Order4], keep) == [Order3];
  }

  /** GET /orders?orderDate=2023-07-20 lists order 3 alone, given that the
      date parser reads the parameter as midnight of that day. */
  lemma DateFilterExample(parse: string -> Option<DateTime>)
    requires parse("2023-07-20") == Some(Midnight(2023, 7, 20))
    ensures ListOrders(Seed(), Some("2023-07-20"), parse) == [LoadOrder(Seed(), Order3, true)]
  {
    SeedOrders();
    DateFilter();
  }

  /** DELETE /orders/1 answers 204, and GET /orders/1 then answers 404. */
  lemma DeleteOrderExample()
    ensures var (db', r) := DeleteOrder(Seed(), 1);
      r == NoContent && GetOrder(db', 1) == NotFound
  {
    SeedValid();
    DeleteOrderSound(Seed(), 1);
  }

  lemma NoSeededLinesForFive()
    ensures LoadLines(Seed(), Seed().orderProducts, 5, true) == []
  {
    SeedLines(5, true);
    OtherBlocks(5, true);
  }

  lemma TwoTunas(db: Db)
    requires db.products == Seed().products && db.categories == Seed().categories
    ensures AttachItems([OrderProduct(1, 0, 2)], 5) == [OrderProduct(1, 5, 2)]
    ensures LoadLines(db, [OrderProduct(1, 5, 2)], 5, true) ==
      [LineView(OrderProduct(1, 5, 2), Some(ProductView(Tuna, Some(Food))))]
    ensures SumLines([LineView(OrderProduct(1, 5, 2), Some(ProductView(Tuna, Some(Food))))]) == 2.50
  {
    var items := [OrderProduct(1, 5, 2)];
    assert items[1..] == [];
    var l := LineView(OrderProduct(1, 5, 2), Some(ProductView(Tuna, Some(Food))));
    assert [l][1..] == [];
  }

  lemma OrderLocation()
    ensures Location("orders", 5) == "/orders/5"
  {
    assert IntToString(5) == "5";
    assert "/" + "orders" == "/orders";
    assert "/orders" + "/" == "/orders/";
    assert "/orders/" + "5" == "/orders/5";
  }

  /** POST /orders with two tins of tuna for cashier 2, on a store that
      holds the seeded cashiers, products and line items and whose next
      order id is 5. */
  lemma CreateOrderOnSeeded(db: Db)
    requires db.Valid()
    requires db.cashiers == Seed().cashiers && db.products == Seed().products
    requires db.categories == Seed().categories && db.orderProducts == Seed().orderProducts
    requires db.nextOrderId == 5
    ensures var r := CreateOrder(db, Order(0, 2, Some(Midnight(2023, 7, 24))), [OrderProduct(1, 0, 2)]).1;
      && r.Created?
      && r.location == "/orders/5"
      && r.value.Some?
      && r.value.value.order == Order(5, 2, Some(Midnight(2023, 7, 24)))
      && r.value.value.cashier == Some(Derek)
      && OrderTotal(r.value.value) == 2.50
  {
    CreateOrderSound(db, Order(0, 2, Some(Midnight(2023, 7, 24))), [OrderProduct(1, 0, 2)]);
    NoSeededLinesForFive();
    LoadLinesSameProducts(Seed(), db, Seed().orderProducts, 5, true);
    TwoTunas(db);
    OrderLocation();
    var r := CreateOrder(db, Order(0, 2, Some(Midnight(2023, 7, 24))), [OrderProduct(1, 0, 2)]).1;
    var l := LineView(OrderProduct(1, 5, 2), Some(ProductView(Tuna, Some(Food))));
    assert r.value.value.orderProducts == [] + [l] == [l];
  }

  /** After DELETE /orders/1, POST /orders creates order 5 (not 1, nor 4) at
      /orders/5, totalling 2.50. */
  lemma CreateOrderExample()
    ensures var r := CreateOrder(DeleteOrder(Seed(), 1).0, Order(0, 2, Some(Midnight(2023, 7, 24))), [OrderProduct(1, 0, 2)]).1;
      && r.Created?
      && r.location == "/orders/5"
      && r.value.Some?
      && r.value.value.order == Order(5, 2, Some(Midnight(2023, 7, 24)))
      && r.value.value.cashier == Some(Derek)
      && OrderTotal(r.value.value) == 2.50
  {
    SeedValid();
    DeleteOrderSound(Seed(), 1);
    CreateOrderOnSeeded(DeleteOrder(Seed(), 1).0);
  }
}
