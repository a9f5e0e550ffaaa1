/** The abstract store behind `CornerStoreDbContext`: one map per table from id
    to record, the line items as a sequence, and one id counter per table whose
    ids the store assigns. Also the query building blocks the handlers use —
    listing a table, `FirstOrDefault` by id, `Where` — and eager loading
    (`Include`/`ThenInclude`) as a join by foreign key. */
module Tables {

  import opened Wrappers
  import opened Models

  datatype Db = Db(
    cashiers: map<int, Cashier>,
    categories: map<int, Category>,
    products: map<int, Product>,
    orders: map<int, Order>,
    orderProducts: seq<OrderProduct>,
    nextCashierId: int,
    nextProductId: int,
    nextOrderId: int)
  {
    /** Every record sits under its own id, and every id the store assigned is
        below the table's counter, so the counter never hands out a used id. */
    ghost predicate Valid()
    {
      && KeyedBelow(cashiers, CashierKey, nextCashierId)
      && KeyedBelow(products, ProductKey, nextProductId)
      && KeyedBelow(orders, OrderKey, nextOrderId)
      && (forall id :: id in categories ==> categories[id].id == id)
    }
  }

  function CashierKey(c: Cashier): int { c.id }
  function ProductKey(p: Product): int { p.id }
  function OrderKey(o: Order): int { o.id }

  ghost predicate Keyed<T>(m: map<int, T>, key: T -> int)
  {
    forall id :: id in m ==> key(m[id]) == id
  }

  ghost predicate KeyedBelow<T>(m: map<int, T>, key: T -> int, next: int)
  {
    1 <= next && Keyed(m, key) && forall id :: id in m ==> 1 <= id < next
  }

  // ---------------------------------------------------------------------------
  // Listing a table

  /** The rows whose ids lie in [lo, hi), in ascending id order. */
  function ListRows<T>(m: map<int, T>, lo: int, hi: int): seq<T>
    decreases hi - lo
  {
    if lo >= hi then []
    else (if lo in m then [m[lo]] else []) + ListRows(m, lo + 1, hi)
  }

  lemma {:induction false} ListRowsMembers<T>(m: map<int, T>, lo: int, hi: int, x: T)
    ensures x in ListRows(m, lo, hi) <==> exists id :: lo <= id < hi && id in m && m[id] == x
    decreases hi - lo
  {
    if lo < hi {
      ListRowsMembers(m, lo + 1, hi, x);
      var rest := ListRows(m, lo + 1, hi);
      if lo in m {
        assert ListRows(m, lo, hi) == [m[lo]] + rest;
      } else {
        assert ListRows(m, lo, hi) == rest;
      }
      if exists id :: lo <= id < hi && id in m && m[id] == x {
        var id :| lo <= id < hi && id in m && m[id] == x;
        if id != lo {
          assert lo + 1 <= id < hi && id in m && m[id] == x;
        }
      }
    }
  }

  /** `FirstOrDefault(r => r.Id == id)` over a list of rows. */
  function FindById<T>(rows: seq<T>, key: T -> int, id: int): (r: Option<T>)
    ensures r.Some? ==> r.value in rows && key(r.value) == id
    ensures r.None? ==> forall x :: x in rows ==> key(x) != id
  {
    if rows == [] then None
    else if key(rows[0]) == id then Some(rows[0])
    else FindById(rows[1..], key, id)
  }

  /** Looking a row up by id in a listed table finds exactly the record stored
      under that id, when every record sits under its own id. */
  lemma {:induction false} FindByIdInRows<T>(m: map<int, T>, key: T -> int, lo: int, hi: int, id: int)
    requires Keyed(m, key)
    ensures FindById(ListRows(m, lo, hi), key, id) ==
            if lo <= id < hi && id in m then Some(m[id]) else None
    decreases hi - lo
  {
    if lo < hi {
      FindByIdInRows(m, key, lo + 1, hi, id);
      var rest := ListRows(m, lo + 1, hi);
      if lo in m {
        var rows := [m[lo]] + rest;
        assert ListRows(m, lo, hi) == rows;
        assert rows[0] == m[lo] && key(m[lo]) == lo;
        assert rows[1..] == rest;
        assert FindById(rows, key, id) == if lo == id then Some(m[lo]) else FindById(rest, key, id);
      } else {
        assert ListRows(m, lo, hi) == rest;
      }
    }
  }

  // ---------------------------------------------------------------------------
  // Where

  /** `a` keeps some of the elements of `b`, in their order. */
  ghost predicate IsSubsequence<T>(a: seq<T>, b: seq<T>)
    decreases |b|
  {
    a == [] || (b != [] && ((a[0] == b[0] && IsSubsequence(a[1..], b[1..])) || IsSubsequence(a, b[1..])))
  }

  /** LINQ's `Where`: the elements satisfying `keep`, in their original order. */
  function Filter<T>(s: seq<T>, keep: T -> bool): (r: seq<T>)
    ensures forall i :: 0 <= i < |r| ==> r[i] in s && keep(r[i])
    ensures forall i :: 0 <= i < |s| && keep(s[i]) ==> s[i] in r
    ensures IsSubsequence(r, s)
  {
    if s == [] then []
    else if keep(s[0]) then
      var rest := Filter(s[1..], keep);
      assert ([s[0]] + rest)[1..] == rest;
      [s[0]] + rest
    else Filter(s[1..], keep)
  }

  /** `Where` keeps every copy of a satisfying element and no copy of any other. */
  lemma {:induction false} FilterCounts<T>(s: seq<T>, keep: T -> bool)
    ensures forall x :: multiset(Filter(s, keep))[x] == if keep(x) then multiset(s)[x] else 0
  {
    if s != [] {
      FilterCounts(s[1..], keep);
      assert s == [s[0]] + s[1..];
      assert multiset(s) == multiset{s[0]} + multiset(s[1..]);
      if keep(s[0]) {
        assert multiset(Filter(s, keep)) == multiset{s[0]} + multiset(Filter(s[1..], keep));
      }
    }
  }

  /** One step of `Where` along a suffix. */
  lemma FilterStep<T>(s: seq<T>, i: int, keep: T -> bool)
    requires 0 <= i < |s|
    ensures Filter(s[i..], keep) == (if keep(s[i]) then [s[i]] else []) + Filter(s[i + 1..], keep)
  {
    assert s[i..][1..] == s[i + 1..];
  }

  lemma {:induction false} FilterAll<T>(s: seq<T>, keep: T -> bool)
    requires forall x :: x in s ==> keep(x)
    ensures Filter(s, keep) == s
  {
    if s != [] {
      FilterAll(s[1..], keep);
      assert s == [s[0]] + s[1..];
    }
  }

  /** `Where` looks only at the values of its condition. */
  lemma {:induction false} FilterCongruent<T>(s: seq<T>, f: T -> bool, g: T -> bool)
    requires forall x :: x in s ==> f(x) == g(x)
    ensures Filter(s, f) == Filter(s, g)
  {
    if s != [] {
      FilterCongruent(s[1..], f, g);
    }
  }

  // ---------------------------------------------------------------------------
  // Eager loading: navigation properties as joins by foreign key

  function LoadCategory(db: Db, id: int): Option<Category>
  {
    if id in db.categories then Some(db.categories[id]) else None
  }

  /** `Include(p => p.Category)` when `withCategory`, the bare product otherwise. */
  function ViewProduct(db: Db, p: Product, withCategory: bool): ProductView
  {
    ProductView(p, if withCategory then LoadCategory(db, p.categoryId) else None)
  }

  function LoadProduct(db: Db, id: int, withCategory: bool): Option<ProductView>
  {
    if id in db.products then Some(ViewProduct(db, db.products[id], withCategory)) else None
  }

  /** `OrderProducts` of order `orderId` with each `Product` attached: the line
      items of `items` that name the order, in store order. */
  function LoadLines(db: Db, items: seq<OrderProduct>, orderId: int, withCategory: bool): seq<LineView>
  {
    if items == [] then []
    else
      (if items[0].orderId == orderId
       then [LineView(items[0], LoadProduct(db, items[0].productId, withCategory))]
       else [])
      + LoadLines(db, items[1..], orderId, withCategory)
  }

  lemma {:induction false} LoadLinesAppend(db: Db, a: seq<OrderProduct>, b: seq<OrderProduct>, orderId: int, withCategory: bool)
    ensures LoadLines(db, a + b, orderId, withCategory) ==
            LoadLines(db, a, orderId, withCategory) + LoadLines(db, b, orderId, withCategory)
    decreases |a|
  {
    if a == [] {
      assert a + b == b;
    } else {
      LoadLinesAppend(db, a[1..], b, orderId, withCategory);
      assert (a + b)[1..] == a[1..] + b;
    }
  }

  /** Line items that all name the order load one for one, in order. */
  lemma {:induction false} LoadLinesAllNamed(db: Db, items: seq<OrderProduct>, orderId: int, withCategory: bool)
    requires forall i :: 0 <= i < |items| ==> items[i].orderId == orderId
    ensures |LoadLines(db, items, orderId, withCategory)| == |items|
    ensures forall i :: 0 <= i < |items| ==>
      LoadLines(db, items, orderId, withCategory)[i] == LineView(items[i], LoadProduct(db, items[i].productId, withCategory))
  {
    if items != [] {
      LoadLinesAllNamed(db, items[1..], orderId, withCategory);
    }
  }

  /** Line items of other orders load nothing. */
  lemma {:induction false} LoadLinesNoneNamed(db: Db, items: seq<OrderProduct>, orderId: int, withCategory: bool)
    requires forall i :: 0 <= i < |items| ==> items[i].orderId != orderId
    ensures LoadLines(db, items, orderId, withCategory) == []
  {
    if items != [] {
      LoadLinesNoneNamed(db, items[1..], orderId, withCategory);
    }
  }

  /** Every loaded line item names the order and carries the product its
      `ProductId` refers to. */
  lemma {:induction false} LoadLinesMembers(db: Db, items: seq<OrderProduct>, orderId: int, withCategory: bool)
    ensures forall l :: l in LoadLines(db, items, orderId, withCategory) ==>
      l.item in items && l.item.orderId == orderId &&
      l.product == LoadProduct(db, l.item.productId, withCategory)
    ensures forall op :: op in items && op.orderId == orderId ==>
      LineView(op, LoadProduct(db, op.productId, withCategory)) in LoadLines(db, items, orderId, withCategory)
  {
    if items != [] {
      LoadLinesMembers(db, items[1..], orderId, withCategory);
    }
  }

  /** An order with its navigation properties loaded. */
  datatype OrderView = OrderView(order: Order, cashier: Option<Cashier>, orderProducts: seq<LineView>)

  datatype CashierView = CashierView(cashier: Cashier, orders: seq<OrderView>)

  function LoadCashierOf(db: Db, id: int): Option<Cashier>
  {
    if id in db.cashiers then Some(db.cashiers[id]) else None
  }

  /** An order with its `Cashier` and its `OrderProducts`, each with its `Product`. */
  function LoadOrder(db: Db, o: Order, withCategory: bool): OrderView
  {
    OrderView(o, LoadCashierOf(db, o.cashierId), LoadLines(db, db.orderProducts, o.id, withCategory))
  }

  /** The total of a loaded order, as `Order.Total` computes it. */
  function OrderTotal(v: OrderView): real
  {
    Total(Some(v.orderProducts))
  }

  function AllCashiers(db: Db): seq<Cashier> { ListRows(db.cashiers, 1, db.nextCashierId) }
  function AllProducts(db: Db): seq<Product> { ListRows(db.products, 1, db.nextProductId) }
  function AllOrders(db: Db): seq<Order> { ListRows(db.orders, 1, db.nextOrderId) }

  function ViewOrders(db: Db, os: seq<Order>, withCategory: bool): (r: seq<OrderView>)
    ensures |r| == |os|
    ensures forall i :: 0 <= i < |os| ==> r[i] == LoadOrder(db, os[i], withCategory)
  {
    seq(|os|, i requires 0 <= i < |os| => LoadOrder(db, os[i], withCategory))
  }

  /** The loaded orders are the given orders, each loaded once. */
  lemma ViewOrdersHas(db: Db, os: seq<Order>, withCategory: bool, o: Order)
    ensures (exists v :: v in ViewOrders(db, os, withCategory) && v.order == o) <==> o in os
  {
    var vs := ViewOrders(db, os, withCategory);
    if exists v :: v in vs && v.order == o {
      var v :| v in vs && v.order == o;
      var i :| 0 <= i < |vs| && vs[i] == v;
      assert os[i] == o;
    }
    if o in os {
      var i :| 0 <= i < |os| && os[i] == o;
      assert vs[i] in vs;
    }
  }

  /** A cashier with its `Orders`, each with its line items and their products
      (the cashier endpoints do not load categories). */
  function LoadCashier(db: Db, c: Cashier): CashierView
  {
    CashierView(c, ViewOrders(db, Filter(AllOrders(db), (o: Order) => o.cashierId == c.id), false))
  }

}
