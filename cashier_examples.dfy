/** The cashier endpoints on the seeded store: GET /cashiers/1 and
    POST /cashiers. */
module CashierExamples {

  import opened Wrappers
  import opened Text
  import opened Models
  import opened Tables
  import opened Handlers
  import opened Fixture

  /** Order 1 as the cashier endpoints load it (no categories). */
  lemma OrderOneBlock()
    ensures LoadLines(Seed(), Items1, 1, false) == [
      LineView(OrderProduct(1, 1, 1), Some(ProductView(Tuna, None))),
      LineView(OrderProduct(3, 1, 1), Some(ProductView(ToiletPaper, None))),
      LineView(OrderProduct(6, 1, 1), Some(ProductView(Milk, None)))]
  {
    LoadLinesAllNamed(Seed(), Items1, 1, false);
  }

  lemma OrderOneLines()
    ensures LoadLines(Seed(), Seed().orderProducts, 1, false) == [
      LineView(OrderProduct(1, 1, 1), Some(ProductView(Tuna, None))),
      LineView(OrderProduct(3, 1, 1), Some(ProductView(ToiletPaper, None))),
      LineView(OrderProduct(6, 1, 1), Some(ProductView(Milk, None)))]
  {
    SeedLines(1, false);
    OrderOneBlock();
    OtherBlocks(1, false);
  }

  /** Order 3 as the cashier endpoints load it. */
  lemma OrderThreeBlock()
    ensures LoadLines(Seed(), Items3, 3, false) == [
      LineView(OrderProduct(3, 3, 1), Some(ProductView(ToiletPaper, None))),
      LineView(OrderProduct(4, 3, 1), Some(ProductView(DishSoap, None))),
      LineView(OrderProduct(2, 3, 1), Some(ProductView(Tomatoes, None)))]
  {
    LoadLinesAllNamed(Seed(), Items3, 3, false);
  }

  lemma OrderThreeLines()
    ensures LoadLines(Seed(), Seed().orderProducts, 3, false) == [
      LineView(OrderProduct(3, 3, 1), Some(ProductView(ToiletPaper, None))),
      LineView(OrderProduct(4, 3, 1), Some(ProductView(DishSoap, None))),
      LineView(OrderProduct(2, 3, 1), Some(ProductView(Tomatoes, None)))]
  {
    SeedLines(3, false);
    OtherBlocks(3, false);
    OrderThreeBlock();
  }

  lemma OrderOneTotal()
    ensures Total(Some(LoadLines(Seed(), Seed().orderProducts, 1, false))) == 8.24
  {
    OrderOneLines();
    var lines := LoadLines(Seed(), Seed().orderProducts, 1, false);
    assert SumLines(lines[2..]) == 1.99;
    assert SumLines(lines[1..]) == 5.00 + 1.99;
    assert SumLines(lines) == 1.25 + 5.00 + 1.99;
  }

  lemma OrderThreeTotal()
    ensures Total(Some(LoadLines(Seed(), Seed().orderProducts, 3, false))) == 9.74
  {
    OrderThreeLines();
    var lines := LoadLines(Seed(), Seed().orderProducts, 3, false);
    assert SumLines(lines[2..]) == 0.99;
    assert SumLines(lines[1..]) == 3.75 + 0.99;
    assert SumLines(lines) == 5.00 + 3.75 + 0.99;
  }

  /** Amy's orders, in id order. */
  lemma AmyFilter()
    ensures Filter([Order1, Order2, Order3, Order4], (o: Order) => o.cashierId == Amy.id) == [Order1, Order3]
  {
    var keep := (o: Order) => o.cashierId == Amy.id;
    assert Filter([Order4], keep) == [];
    assert Filter([Order3, Order4], keep) == [Order3];
    assert Filter([Order2, Order3, Order4], keep) == [Order3];
  }

  lemma AmyOrders()
    ensures LoadCashier(Seed(), Amy).orders == ViewOrders(Seed(), [Order1, Order3], false)
  {
    SeedOrders();
    AmyFilter();
  }

  lemma AmyFullName()
    ensures FullName(Amy) == "Amy Simpson"
  {
    assert "Amy" + " " == "Amy ";
    assert "Amy " + "Simpson" == "Amy Simpson";
  }

  /** Amy as the cashier endpoints load her: orders 1 and 3, totalling 8.24
      and 9.74. */
  lemma AmyView()
    ensures var v := LoadCashier(Seed(), Amy);
      && |v.orders| == 2
      && v.orders[0].order.id == 1 && OrderTotal(v.orders[0]) == 8.24
      && v.orders[1].order.id == 3 && OrderTotal(v.orders[1]) == 9.74
  {
    AmyOrders();
    OrderOneTotal();
    OrderThreeTotal();
  }

  lemma AmyFound()
    ensures GetCashier(Seed(), 1) == Ok(LoadCashier(Seed(), Amy))
  {
    SeedValid();
    GetCashierFinds(Seed(), 1);
  }

  /** GET /cashiers/1: Amy Simpson with orders 1 and 3, totalling 8.24 and 9.74. */
  lemma CashierOneExample()
    ensures GetCashier(Seed(), 1).Ok?
    ensures var v := GetCashier(Seed(), 1).value;
      && v.cashier == Amy
      && FullName(v.cashier) == "Amy Simpson"
      && |v.orders| == 2
      && v.orders[0].order.id == 1 && OrderTotal(v.orders[0]) == 8.24
      && v.orders[1].order.id == 3 && OrderTotal(v.orders[1]) == 9.74
  {
    AmyFound();
    AmyView();
    AmyFullName();
  }

  lemma CashierLocation()
    ensures Location("cashiers", 4) == "/cashiers/4"
  {
    assert IntToString(4) == "4";
    assert "/" + "cashiers" == "/cashiers";
    assert "/cashiers" + "/" == "/cashiers/";
    assert "/cashiers/" + "4" == "/cashiers/4";
  }

  /** POST /cashiers on the seeded store creates cashier 4 at /cashiers/4. */
  lemma CreateCashierExample()
    ensures var (db', r) := CreateCashier(Seed(), Cashier(0, "Test", "Cashier"));
      && r.Created?
      && r.value == Cashier(4, "Test", "Cashier")
      && r.location == "/cashiers/4"
      && GetCashier(db', 4).Ok?
  {
    SeedValid();
    CreateCashierSound(Seed(), Cashier(0, "Test", "Cashier"));
    CashierLocation();
  }
}
