/** The route handlers of `CornerStore/Program.cs` over the abstract store.
    The GET handlers are queries: functions of the store. The POST, PUT and
    DELETE handlers are transitions: functions from the store before the
    request to the store after it and the response; class `Server.Store`
    performs them in place. Ids of new rows come from the table's counter. */
module Handlers {

  import opened Wrappers
  import opened Text
  import opened Models
  import opened Tables

  /** The `IResult` a handler returns: 404, 200 with a body, 201 with a
      `Location` header and a body, or 204. */
  datatype Response<T> = NotFound | Ok(value: T) | Created(location: string, value: T) | NoContent

  /** `$"/{resource}/{id}"`. */
  function Location(resource: string, id: int): string
  {
    "/" + resource + "/" + IntToString(id)
  }

  /** A location names its resource and can be read back to its id. */
  lemma LocationNamesId(resource: string, id: int)
    ensures var loc := Location(resource, id);
      |loc| > |resource| + 2 &&
      loc[..|resource| + 2] == "/" + resource + "/" &&
      ParseInt(loc[|resource| + 2..]) == Some(id)
  {
    var loc := Location(resource, id);
    assert loc[|resource| + 2..] == IntToString(id);
    IntRoundTrip(id);
  }

  // ===========================================================================
  // Cashier endpoints

  /** GET /cashiers: every cashier with its orders, their line items and products. */
  function ListCashiers(db: Db): (r: seq<CashierView>)
    ensures |r| == |AllCashiers(db)|
    ensures forall i :: 0 <= i < |r| ==> r[i] == LoadCashier(db, AllCashiers(db)[i])
  {
    var cs := AllCashiers(db);
    seq(|cs|, i requires 0 <= i < |cs| => LoadCashier(db, cs[i]))
  }

  /** The cashier list holds one entry for each stored cashier, and nothing else. */
  lemma ListCashiersExact(db: Db, c: Cashier)
    requires db.Valid()
    ensures LoadCashier(db, c) in ListCashiers(db) <==> c.id in db.cashiers && db.cashiers[c.id] == c
  {
    var cs := AllCashiers(db);
    var r := ListCashiers(db);
    ListRowsMembers(db.cashiers, 1, db.nextCashierId, c);
    if LoadCashier(db, c) in r {
      var i :| 0 <= i < |r| && r[i] == LoadCashier(db, c);
      assert cs[i] == c;
      assert c in cs;
    }
    if c.id in db.cashiers && db.cashiers[c.id] == c {
      assert c in cs;
      var i :| 0 <= i < |cs| && cs[i] == c;
      assert r[i] == LoadCashier(db, c);
    }
  }

  /** A cashier's `Orders` are exactly the stored orders that name the cashier. */
  lemma CashierOrdersExact(db: Db, c: Cashier, o: Order)
    requires db.Valid()
    ensures (exists v :: v in LoadCashier(db, c).orders && v.order == o) <==>
            (o.id in db.orders && db.orders[o.id] == o && o.cashierId == c.id)
  {
    var sel := Filter(AllOrders(db), (x: Order) => x.cashierId == c.id);
    ViewOrdersHas(db, sel, false, o);
    ListRowsMembers(db.orders, 1, db.nextOrderId, o);
    if o in AllOrders(db) && o.cashierId == c.id {
      var j :| 0 <= j < |AllOrders(db)| && AllOrders(db)[j] == o;
    }
  }

  /** GET /cashiers/{id}. */
  function GetCashier(db: Db, id: int): Response<CashierView>
  {
    match FindById(AllCashiers(db), CashierKey, id)
    case None => NotFound
    case Some(c) => Ok(LoadCashier(db, c))
  }

  /** GET /cashiers/{id} answers 404 exactly when no cashier has that id, and
      otherwise the cashier stored under it. */
  lemma GetCashierFinds(db: Db, id: int)
    requires db.Valid()
    ensures GetCashier(db, id) == if id in db.cashiers then Ok(LoadCashier(db, db.cashiers[id])) else NotFound
  {
    FindByIdInRows(db.cashiers, CashierKey, 1, db.nextCashierId, id);
  }

  /** POST /cashiers: the record from the body under a fresh id. */
  function CreateCashier(db: Db, body: Cashier): (Db, Response<Cashier>)
  {
    var id := db.nextCashierId;
    var c := body.(id := id);
    (db.(cashiers := db.cashiers[id := c], nextCashierId := id + 1), Created(Location("cashiers", id), c))
  }

  /** A created cashier gets an id no cashier had, keeps the body's names, is
      found by a later GET, and its location names its id; nothing else changes. */
  lemma CreateCashierSound(db: Db, body: Cashier)
    requires db.Valid()
    ensures var (db', r) := CreateCashier(db, body);
      && db'.Valid()
      && r.Created?
      && r.value.id !in db.cashiers
      && r.value == body.(id := r.value.id)
      && r.location == Location("cashiers", r.value.id)
      && r.value.id == db.nextCashierId
      && db'.cashiers == db.cashiers[r.value.id := r.value]
      && GetCashier(db', r.value.id) == Ok(LoadCashier(db', r.value))
      && db' == db.(cashiers := db.cashiers[r.value.id := r.value], nextCashierId := r.value.id + 1)
  {
    var (db', r) := CreateCashier(db, body);
    GetCashierFinds(db', r.value.id);
  }

  // ===========================================================================
  // Product endpoints

  /** `Products.Include(p => p.Category)`. */
  function ProductRows(db: Db): (r: seq<ProductView>)
    ensures |r| == |AllProducts(db)|
    ensures forall i :: 0 <= i < |r| ==> r[i] == ViewProduct(db, AllProducts(db)[i], true)
  {
    var ps := AllProducts(db);
    seq(|ps|, i requires 0 <= i < |ps| => ViewProduct(db, ps[i], true))
  }

  lemma ProductRowsMembers(db: Db, p: Product)
    requires db.Valid()
    ensures ViewProduct(db, p, true) in ProductRows(db) <==> p.id in db.products && db.products[p.id] == p
  {
    var ps := AllProducts(db);
    var r := ProductRows(db);
    ListRowsMembers(db.products, 1, db.nextProductId, p);
    if ViewProduct(db, p, true) in r {
      var i :| 0 <= i < |r| && r[i] == ViewProduct(db, p, true);
      assert ps[i] == p;
    }
    if p.id in db.products && db.products[p.id] == p {
      var i :| 0 <= i < |ps| && ps[i] == p;
      assert r[i] == ViewProduct(db, p, true);
    }
  }

  /** The search condition: the lowered term occurs in the lowered product name
      or in the lowered name of the product's category. A product whose category
      is not in the store matches on its name only. */
  predicate Matches(v: ProductView, term: string)
  {
    || Contains(Lower(v.product.productName), Lower(term))
    || (v.category.Some? && Contains(Lower(v.category.value.categoryName), Lower(term)))
  }

  /** `Matches` is case-insensitive substring search on the name or the
      category name. */
  lemma MatchesIffOccurs(v: ProductView, term: string)
    ensures Matches(v, term) <==>
      || (exists i :: OccursAt(Lower(v.product.productName), Lower(term), i))
      || (v.category.Some? && exists i :: OccursAt(Lower(v.category.value.categoryName), Lower(term), i))
  {
    ContainsIffOccurs(Lower(v.product.productName), Lower(term));
    if v.category.Some? {
      ContainsIffOccurs(Lower(v.category.value.categoryName), Lower(term));
    }
  }

  /** GET /products?search={search}. */
  function SearchProducts(db: Db, search: Option<string>): (r: seq<ProductView>)
    ensures search == None || search == Some("") ==> r == ProductRows(db)
    ensures search.Some? && search.value != "" ==>
      && (forall i :: 0 <= i < |r| ==> r[i] in ProductRows(db) && Matches(r[i], search.value))
      && (forall v :: v in ProductRows(db) && Matches(v, search.value) ==> v in r)
      && IsSubsequence(r, ProductRows(db))
  {
    match search
    case Some(term) =>
      if term == "" then ProductRows(db)
      else
        var rows := ProductRows(db);
        var r := Filter(rows, (v: ProductView) => Matches(v, term));
        assert forall v :: v in rows && Matches(v, term) ==> v in r by {
          forall v | v in rows && Matches(v, term) ensures v in r {
            var i :| 0 <= i < |rows| && rows[i] == v;
          }
        }
        r
    case None => ProductRows(db)
  }

  /** The search does not depend on the case of the term: terms that lower to
      the same string select the same products. */
  lemma SearchCaseInsensitive(db: Db, t1: string, t2: string)
    requires Lower(t1) == Lower(t2)
    ensures SearchProducts(db, Some(t1)) == SearchProducts(db, Some(t2))
  {
    if t1 != "" {
      assert |t2| == |Lower(t2)| == |Lower(t1)| == |t1|;
      FilterCongruent(ProductRows(db), (v: ProductView) => Matches(v, t1), (v: ProductView) => Matches(v, t2));
    } else {
      assert |t2| == |Lower(t2)| == 0;
    }
  }

  /** A stored product is in the search result exactly when it matches the term. */
  lemma SearchFindsStored(db: Db, id: int, term: string)
    requires db.Valid() && id in db.products && term != ""
    ensures var v := ViewProduct(db, db.products[id], true);
      v in SearchProducts(db, Some(term)) <==> Matches(v, term)
  {
    ProductRowsMembers(db, db.products[id]);
  }

  /** POST /products. */
  function CreateProduct(db: Db, body: Product): (Db, Response<Product>)
  {
    var id := db.nextProductId;
    var p := body.(id := id);
    (db.(products := db.products[id := p], nextProductId := id + 1), Created(Location("products", id), p))
  }

  lemma CreateProductSound(db: Db, body: Product)
    requires db.Valid()
    ensures var (db', r) := CreateProduct(db, body);
      && db'.Valid()
      && r.Created?
      && r.value.id !in db.products
      && r.value == body.(id := r.value.id)
      && r.location == Location("products", r.value.id)
      && r.value.id == db.nextProductId
      && db'.products == db.products[r.value.id := r.value]
      && ViewProduct(db', r.value, true) in SearchProducts(db', None)
      && db' == db.(products := db.products[r.value.id := r.value], nextProductId := r.value.id + 1)
  {
    var (db', r) := CreateProduct(db, body);
    ProductRowsMembers(db', r.value);
  }

  /** The four fields PUT /products/{id} overwrites. */
  function ApplyUpdate(p: Product, body: Product): (q: Product)
    ensures q.id == p.id
  {
    p.(productName := body.productName, price := body.price, brand := body.brand, categoryId := body.categoryId)
  }

  /** PUT /products/{id}. */
  function UpdateProduct(db: Db, id: int, body: Product): (Db, Response<()>)
  {
    match FindById(AllProducts(db), ProductKey, id)
    case None => (db, NotFound)
    case Some(p) => (db.(products := db.products[p.id := ApplyUpdate(p, body)]), NoContent)
  }

  /** PUT answers 404 and changes nothing when no product has the id; otherwise
      it answers 204 and sets exactly the name, price, brand and category of that
      product, leaving its id and every other row alone. */
  lemma UpdateProductSound(db: Db, id: int, body: Product)
    requires db.Valid()
    ensures var (db', r) := UpdateProduct(db, id, body);
      && db'.Valid()
      && (id !in db.products ==> r == NotFound && db' == db)
      && (id in db.products ==>
            && r == NoContent
            && db'.products.Keys == db.products.Keys
            && db'.products[id] == Product(id, body.productName, body.price, body.brand, body.categoryId)
            && (forall k :: k in db.products && k != id ==> db'.products[k] == db.products[k])
            && db' == db.(products := db'.products))
  {
    FindByIdInRows(db.products, ProductKey, 1, db.nextProductId, id);
  }

  /** Sending the same PUT twice leaves the store as sending it once. */
  lemma UpdateProductIdempotent(db: Db, id: int, body: Product)
    requires db.Valid()
    ensures var (db1, r1) := UpdateProduct(db, id, body);
      UpdateProduct(db1, id, body) == (db1, r1)
  {
    var (db1, r1) := UpdateProduct(db, id, body);
    UpdateProductSound(db, id, body);
    UpdateProductSound(db1, id, body);
    if id in db.products {
      FindByIdInRows(db1.products, ProductKey, 1, db1.nextProductId, id);
      var p := db1.products[id];
      assert ApplyUpdate(p, body) == p;
      assert db1.products[id := p] == db1.products;
    }
  }

  /** The number of units of product `productId` in order `orderId`. */
  function ProductQuantity(items: seq<OrderProduct>, orderId: int, productId: int): real
  {
    if items == [] then 0.0
    else
      (if items[0].orderId == orderId && items[0].productId == productId then items[0].quantity as real else 0.0)
      + ProductQuantity(items[1..], orderId, productId)
  }

  lemma Distribute(d: real, x: real, y: real)
    ensures d * (x + y) == d * x + d * y
  {
  }

  lemma Reprice(p': real, p: real, q: real)
    ensures p' * q == p * q + (p' - p) * q
  {
  }

  /** The change `delta` in unit price, summed over the units of product
      `productId` in order `orderId`. */
  function PriceChange(items: seq<OrderProduct>, orderId: int, productId: int, delta: real): real
  {
    if items == [] then 0.0
    else
      (if items[0].orderId == orderId && items[0].productId == productId then delta * items[0].quantity as real else 0.0)
      + PriceChange(items[1..], orderId, productId, delta)
  }

  lemma {:induction false} PriceChangeScales(items: seq<OrderProduct>, orderId: int, productId: int, delta: real)
    ensures PriceChange(items, orderId, productId, delta) == delta * ProductQuantity(items, orderId, productId)
  {
    if items != [] {
      PriceChangeScales(items[1..], orderId, productId, delta);
      var q := if items[0].orderId == orderId && items[0].productId == productId then items[0].quantity as real else 0.0;
      Distribute(delta, q, ProductQuantity(items[1..], orderId, productId));
    }
  }

  /** Changing the price of one product moves the amount of one line item by
      the price difference times its quantity when it is a line of that
      product, and leaves it alone otherwise. */
  lemma RepriceItem(db: Db, db': Db, op: OrderProduct, productId: int, withCategory: bool, delta: real)
    requires productId in db.products && db'.products.Keys == db.products.Keys
    requires forall k :: k in db.products && k != productId ==> db'.products[k].price == db.products[k].price
    requires delta == db'.products[productId].price - db.products[productId].price
    ensures LineAmount(LineView(op, LoadProduct(db', op.productId, withCategory))) ==
            LineAmount(LineView(op, LoadProduct(db, op.productId, withCategory))) +
            (if op.productId == productId then delta * op.quantity as real else 0.0)
  {
    if op.productId == productId {
      Reprice(db'.products[productId].price, db.products[productId].price, op.quantity as real);
    }
  }

  /** Changing the price of one product moves the sum over any line items by the
      price difference times the units of that product among them. */
  lemma {:induction false} RepriceLines(db: Db, db': Db, items: seq<OrderProduct>, orderId: int, productId: int, withCategory: bool, delta: real)
    requires productId in db.products && db'.products.Keys == db.products.Keys
    requires forall k :: k in db.products && k != productId ==> db'.products[k].price == db.products[k].price
    requires delta == db'.products[productId].price - db.products[productId].price
    ensures SumLines(LoadLines(db', items, orderId, withCategory)) ==
            SumLines(LoadLines(db, items, orderId, withCategory)) + PriceChange(items, orderId, productId, delta)
  {
    if items != [] {
      var op := items[0];
      RepriceLines(db, db', items[1..], orderId, productId, withCategory, delta);
      var rest := LoadLines(db, items[1..], orderId, withCategory);
      var rest' := LoadLines(db', items[1..], orderId, withCategory);
      if op.orderId == orderId {
        var l := LineView(op, LoadProduct(db, op.productId, withCategory));
        var l' := LineView(op, LoadProduct(db', op.productId, withCategory));
        RepriceItem(db, db', op, productId, withCategory, delta);
        assert ([l] + rest)[1..] == rest;
        assert ([l'] + rest')[1..] == rest';
        assert SumLines(LoadLines(db, items, orderId, withCategory)) == LineAmount(l) + SumLines(rest);
        assert SumLines(LoadLines(db', items, orderId, withCategory)) == LineAmount(l') + SumLines(rest');
      } else {
        assert LoadLines(db, items, orderId, withCategory) == rest;
        assert LoadLines(db', items, orderId, withCategory) == rest';
      }
    }
  }

  /** `Total` is recomputed from current prices: after a PUT on a product, every
      order's total moves by the price difference times the number of units of
      that product in the order, and orders without it keep their total. */
  lemma UpdateRepricesOrders(db: Db, id: int, body: Product, o: Order, withCategory: bool)
    requires db.Valid() && id in db.products
    ensures var db' := UpdateProduct(db, id, body).0;
      OrderTotal(LoadOrder(db', o, withCategory)) ==
      OrderTotal(LoadOrder(db, o, withCategory)) +
      (body.price - db.products[id].price) * ProductQuantity(db.orderProducts, o.id, id)
  {
    var db' := UpdateProduct(db, id, body).0;
    UpdateShiftsTotal(db, id, body, o, withCategory);
    ShiftScales(OrderTotal(LoadOrder(db', o, withCategory)), OrderTotal(LoadOrder(db, o, withCategory)),
                db.orderProducts, o.id, id, body.price - db.products[id].price);
  }

  /** After a PUT on a product, an order's total moves by the price change on
      each unit of that product in the order. */
  lemma UpdateShiftsTotal(db: Db, id: int, body: Product, o: Order, withCategory: bool)
    requires db.Valid() && id in db.products
    ensures var db' := UpdateProduct(db, id, body).0;
      OrderTotal(LoadOrder(db', o, withCategory)) ==
      OrderTotal(LoadOrder(db, o, withCategory)) + PriceChange(db.orderProducts, o.id, id, body.price - db.products[id].price)
  {
    UpdateProductSound(db, id, body);
    var db' := UpdateProduct(db, id, body).0;
    RepriceLines(db, db', db.orderProducts, o.id, id, withCategory, body.price - db.products[id].price);
  }

  /** A shift by the price change over some line items is a shift by the
      price difference times the units of the product among them. */
  lemma ShiftScales(after: real, before: real, items: seq<OrderProduct>, orderId: int, productId: int, delta: real)
    requires after == before + PriceChange(items, orderId, productId, delta)
    ensures after == before + delta * ProductQuantity(items, orderId, productId)
  {
    PriceChangeScales(items, orderId, productId, delta);
  }

  // ===========================================================================
  // Order endpoints

  /** GET /orders/{id}: the order with its cashier, line items, products and categories. */
  function GetOrder(db: Db, id: int): Response<OrderView>
  {
    match FindById(AllOrders(db), OrderKey, id)
    case None => NotFound
    case Some(o) => Ok(LoadOrder(db, o, true))
  }

  lemma GetOrderFinds(db: Db, id: int)
    requires db.Valid()
    ensures GetOrder(db, id) == if id in db.orders then Ok(LoadOrder(db, db.orders[id], true)) else NotFound
  {
    FindByIdInRows(db.orders, OrderKey, 1, db.nextOrderId, id);
  }

  /** The order's `PaidOnDate` is set and falls on calendar date `d`. */
  predicate PaidOn(o: Order, d: Date)
  {
    o.paidOnDate.Some? && o.paidOnDate.value.date == d
  }

  /** No filter applies: the parameter is missing or empty, or `DateTime.TryParse`
      (the function `parse`) rejects it. */
  predicate NoDateFilter(orderDate: Option<string>, parse: string -> Option<DateTime>)
  {
    orderDate == None || orderDate == Some("") || parse(orderDate.value) == None
  }

  /** The `Where` of GET /orders?orderDate={orderDate}. */
  function SelectOrders(rows: seq<Order>, orderDate: Option<string>, parse: string -> Option<DateTime>): (r: seq<Order>)
    ensures NoDateFilter(orderDate, parse) ==> r == rows
    ensures !NoDateFilter(orderDate, parse) ==>
      var d := parse(orderDate.value).value.date;
      && (forall i :: 0 <= i < |r| ==> r[i] in rows && PaidOn(r[i], d))
      && (forall i :: 0 <= i < |rows| && PaidOn(rows[i], d) ==> rows[i] in r)
      && IsSubsequence(r, rows)
  {
    match orderDate
    case None => rows
    case Some(s) =>
      if s == "" then rows
      else
        match parse(s)
        case None => rows
        case Some(date) => Filter(rows, (o: Order) => PaidOn(o, date.date))
  }

  /** GET /orders?orderDate={orderDate}. */
  function ListOrders(db: Db, orderDate: Option<string>, parse: string -> Option<DateTime>): seq<OrderView>
  {
    ViewOrders(db, SelectOrders(AllOrders(db), orderDate, parse), true)
  }

  /** A date filter selects a stored order exactly when the order was paid on
      that calendar date, whatever the time of day. */
  lemma ListOrdersOnDate(db: Db, s: string, parse: string -> Option<DateTime>, id: int)
    requires db.Valid() && s != "" && parse(s).Some? && id in db.orders
    ensures LoadOrder(db, db.orders[id], true) in ListOrders(db, Some(s), parse) <==>
            PaidOn(db.orders[id], parse(s).value.date)
  {
    var o := db.orders[id];
    var rows := AllOrders(db);
    var sel := SelectOrders(rows, Some(s), parse);
    var vs := ListOrders(db, Some(s), parse);
    ListRowsMembers(db.orders, 1, db.nextOrderId, o);
    var j :| 0 <= j < |rows| && rows[j] == o;
    if LoadOrder(db, o, true) in vs {
      var i :| 0 <= i < |vs| && vs[i] == LoadOrder(db, o, true);
      assert sel[i] == o;
    }
    if PaidOn(o, parse(s).value.date) {
      var i :| 0 <= i < |sel| && sel[i] == o;
      assert vs[i] == LoadOrder(db, o, true);
    }
  }

  /** When every stored order was paid on the parsed date, the date filter keeps
      them all. */
  lemma ListOrdersAllOnDate(db: Db, s: string, parse: string -> Option<DateTime>)
    requires s != "" && parse(s).Some?
    requires forall o :: o in AllOrders(db) ==> PaidOn(o, parse(s).value.date)
    ensures ListOrders(db, Some(s), parse) == ListOrders(db, None, parse)
  {
    var d := parse(s).value.date;
    FilterAll(AllOrders(db), (o: Order) => PaidOn(o, d));
  }

  /** An unparseable date acts as no filter at all. */
  lemma ListOrdersUnparseable(db: Db, s: string, parse: string -> Option<DateTime>)
    requires parse(s) == None
    ensures ListOrders(db, Some(s), parse) == ListOrders(db, None, parse)
  {
  }

  /** DELETE /orders/{id}. The line items are left to the data store. */
  function DeleteOrder(db: Db, id: int): (Db, Response<()>)
  {
    match FindById(AllOrders(db), OrderKey, id)
    case None => (db, NotFound)
    case Some(o) => (db.(orders := db.orders - {o.id}), NoContent)
  }

  /** DELETE answers 404 and changes nothing for an absent id; otherwise it
      answers 204, removes that order only, and a later GET of the id answers 404
      while every other order reads as before. */
  lemma DeleteOrderSound(db: Db, id: int)
    requires db.Valid()
    ensures var (db', r) := DeleteOrder(db, id);
      && db'.Valid()
      && (id !in db.orders ==> r == NotFound && db' == db)
      && (id in db.orders ==>
            && r == NoContent
            && db'.orders == db.orders - {id}
            && db' == db.(orders := db'.orders))
      && GetOrder(db', id) == NotFound
      && (forall k :: k != id ==> GetOrder(db', k) == GetOrder(db, k))
  {
    var (db', r) := DeleteOrder(db, id);
    FindByIdInRows(db.orders, OrderKey, 1, db.nextOrderId, id);
    assert db'.Valid();
    forall k | k != id ensures GetOrder(db', k) == GetOrder(db, k) {
      GetOrderFinds(db, k);
      GetOrderFinds(db', k);
      LoadLinesSameProducts(db, db', db.orderProducts, k, true);
    }
    GetOrderFinds(db', id);
  }

  /** The nested line items of a POST /orders body, attached to order `id`. */
  function AttachItems(items: seq<OrderProduct>, id: int): (r: seq<OrderProduct>)
    ensures |r| == |items|
    ensures forall i :: 0 <= i < |r| ==>
      r[i] == OrderProduct(items[i].productId, id, items[i].quantity)
  {
    seq(|items|, i requires 0 <= i < |items| => items[i].(orderId := id))
  }

  /** POST /orders: the order and its nested line items are inserted together,
      then the order is read back with everything attached. */
  function CreateOrder(db: Db, body: Order, items: seq<OrderProduct>): (Db, Response<Option<OrderView>>)
  {
    var id := db.nextOrderId;
    var o := body.(id := id);
    var db' := db.(orders := db.orders[id := o],
                   orderProducts := db.orderProducts + AttachItems(items, id),
                   nextOrderId := id + 1);
    var reloaded :=
      match FindById(AllOrders(db'), OrderKey, id)
      case None => None
      case Some(x) => Some(LoadOrder(db', x, true));
    (db', Created(Location("orders", id), reloaded))
  }

  /** A created order gets the counter's id, which no stored order has; it is
      read back with the body's cashier and date, its line items are the nested
      ones (after any stored line item that already named the id), and its
      location names its id. Only the order table, the line items and the order
      counter change. */
  lemma CreateOrderSound(db: Db, body: Order, items: seq<OrderProduct>)
    requires db.Valid()
    ensures var (db', r) := CreateOrder(db, body, items);
      && db'.Valid()
      && r.Created?
      && var id := db.nextOrderId;
      && id !in db.orders
      && r.location == Location("orders", id)
      && db'.orders == db.orders[id := body.(id := id)]
      && r.value == Some(LoadOrder(db', body.(id := id), true))
      && r.value.value.cashier == LoadCashierOf(db, body.cashierId)
      && r.value.value.orderProducts ==
           LoadLines(db, db.orderProducts, id, true) + LoadLines(db, AttachItems(items, id), id, true)
      && |LoadLines(db, AttachItems(items, id), id, true)| == |items|
      && db' == db.(orders := db.orders[id := body.(id := id)],
                    orderProducts := db.orderProducts + AttachItems(items, id),
                    nextOrderId := id + 1)
  {
    var (db', r) := CreateOrder(db, body, items);
    var id := db.nextOrderId;
    var attached := AttachItems(items, id);
    FindByIdInRows(db'.orders, OrderKey, 1, db'.nextOrderId, id);
    LoadLinesAppend(db', db.orderProducts, attached, id, true);
    LoadLinesSameProducts(db, db', db.orderProducts, id, true);
    LoadLinesSameProducts(db, db', attached, id, true);
    LoadLinesAllNamed(db, attached, id, true);
  }

  /** An order created after another is deleted does not get the deleted id:
      the deleted id stays absent and the new location names a different id. */
  lemma DeletedOrderIdNotReused(db: Db, k: int, body: Order, items: seq<OrderProduct>)
    requires db.Valid() && k in db.orders
    ensures var db1 := DeleteOrder(db, k).0;
      var (db2, r) := CreateOrder(db1, body, items);
      && k !in db2.orders
      && r.Created?
      && r.location != Location("orders", k)
  {
    DeleteOrderSound(db, k);
    var db1 := DeleteOrder(db, k).0;
    CreateOrderSound(db1, body, items);
    var id := db1.nextOrderId;
    assert k < id;
    LocationNamesId("orders", k);
    LocationNamesId("orders", id);
  }

  lemma {:induction false} LoadLinesSameProducts(db: Db, db': Db, items: seq<OrderProduct>, orderId: int, withCategory: bool)
    requires db'.products == db.products && db'.categories == db.categories
    ensures LoadLines(db', items, orderId, withCategory) == LoadLines(db, items, orderId, withCategory)
  {
    if items != [] {
      LoadLinesSameProducts(db, db', items[1..], orderId, withCategory);
    }
  }

  /** POST /orders/{orderId}/products: the line item from the body, with its
      `OrderId` forced to the path's value. */
  function AddOrderProduct(db: Db, orderId: int, body: OrderProduct): (Db, Response<Option<LineItemView>>)
  {
    var item := body.(orderId := orderId);
    var db' := db.(orderProducts := db.orderProducts + [item]);
    var reloaded :=
      match FindLine(db'.orderProducts, orderId, body.productId)
      case None => None
      case Some(op) => Some(LineItemView(op, LoadProduct(db', op.productId, false), LoadOrderOf(db', op.orderId)));
    (db', Created(Location("orders", orderId) + "/products", reloaded))
  }

  /** A line item read back with its `Product` and its `Order`. */
  datatype LineItemView = LineItemView(item: OrderProduct, product: Option<ProductView>, order: Option<Order>)

  function LoadOrderOf(db: Db, id: int): Option<Order>
  {
    if id in db.orders then Some(db.orders[id]) else None
  }

  /** `OrderProducts.FirstOrDefault(op => op.OrderId == orderId && op.ProductId == productId)`. */
  function FindLine(items: seq<OrderProduct>, orderId: int, productId: int): (r: Option<OrderProduct>)
    ensures r.Some? ==> r.value in items && r.value.orderId == orderId && r.value.productId == productId
    ensures r.None? ==> forall op :: op in items ==> !(op.orderId == orderId && op.productId == productId)
    ensures r.Some? ==> exists j :: 0 <= j < |items| && items[j] == r.value &&
                                   (forall k :: 0 <= k < j ==> !(items[k].orderId == orderId && items[k].productId == productId))
  {
    if items == [] then None
    else if items[0].orderId == orderId && items[0].productId == productId then Some(items[0])
    else FindLine(items[1..], orderId, productId)
  }

  lemma {:induction false} FindLineAppend(items: seq<OrderProduct>, op: OrderProduct)
    requires FindLine(items, op.orderId, op.productId) == None
    ensures FindLine(items + [op], op.orderId, op.productId) == Some(op)
  {
    if items == [] {
      assert items + [op] == [op];
    } else {
      assert (items + [op])[1..] == items[1..] + [op];
      FindLineAppend(items[1..], op);
    }
  }

  /** What a line item adds to its order's total in store `db`: the amount of
      the line it loads as. */
  function ItemAmount(db: Db, op: OrderProduct): real
  {
    LineAmount(LineView(op, LoadProduct(db, op.productId, false)))
  }

  /** A line's amount does not depend on whether its product's category is loaded. */
  lemma ItemAmountAnyView(db: Db, op: OrderProduct, withCategory: bool)
    ensures LineAmount(LineView(op, LoadProduct(db, op.productId, withCategory))) == ItemAmount(db, op)
  {
  }

  /** Adding a line item stores it with the path's order id and the body's
      product and quantity, answers with location /orders/{orderId}/products,
      and reads back a line item of that order and product: the new one unless
      the order already had that product. */
  lemma AddOrderProductSound(db: Db, orderId: int, body: OrderProduct)
    requires db.Valid()
    ensures var (db', r) := AddOrderProduct(db, orderId, body);
      var item := OrderProduct(body.productId, orderId, body.quantity);
      && db'.Valid()
      && db' == db.(orderProducts := db.orderProducts + [item])
      && r.Created?
      && r.location == Location("orders", orderId) + "/products"
      && r.value.Some?
      && r.value.value.item.orderId == orderId
      && r.value.value.item.productId == body.productId
      && (FindLine(db.orderProducts, orderId, body.productId) == None ==> r.value.value.item == item)
      && r.value.value.product == LoadProduct(db, body.productId, false)
      && r.value.value.order == LoadOrderOf(db, orderId)
  {
    var (db', r) := AddOrderProduct(db, orderId, body);
    var item := OrderProduct(body.productId, orderId, body.quantity);
    assert item == db'.orderProducts[|db.orderProducts|];
    if FindLine(db.orderProducts, orderId, body.productId) == None {
      FindLineAppend(db.orderProducts, item);
    }
  }

  /** Adding a line item raises the total of its order by the item's price times
      its quantity (by nothing when its product is not in the store). */
  lemma AddOrderProductTotal(db: Db, orderId: int, body: OrderProduct, o: Order, withCategory: bool)
    requires o.id == orderId
    ensures var db' := AddOrderProduct(db, orderId, body).0;
      OrderTotal(LoadOrder(db', o, withCategory)) ==
      OrderTotal(LoadOrder(db, o, withCategory)) + ItemAmount(db, body.(orderId := orderId))
  {
    var db' := AddOrderProduct(db, orderId, body).0;
    var item := body.(orderId := orderId);
    assert db' == db.(orderProducts := db.orderProducts + [item]);
    assert [item][1..] == [];
    LoadLinesAppend(db', db.orderProducts, [item], orderId, withCategory);
    LoadLinesSameProducts(db, db', db.orderProducts, orderId, withCategory);
    var before := LoadLines(db, db.orderProducts, orderId, withCategory);
    var line := LineView(item, LoadProduct(db, item.productId, withCategory));
    assert LoadLines(db', [item], orderId, withCategory) == [line];
    TotalAppendLine(before, line);
    ItemAmountAnyView(db, item, withCategory);
  }

}
