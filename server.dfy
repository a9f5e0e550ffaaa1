/** The request handlers as they run against one `CornerStoreDbContext`: the
    tables are fields of a `Store` object, and each POST, PUT or DELETE handler
    is a method that updates them in place (`Add`, `Remove`, field assignments
    and `SaveChanges` in the original). Each method ends in the state, and
    answers the response, that the transition of the same name in module
    `Handlers` describes, so every lemma proved there holds of the methods. */
module Server {

  import opened Wrappers
  import opened Models
  import opened Tables
  import opened Handlers

  class Store {
    var cashiers: map<int, Cashier>
    var categories: map<int, Category>
    var products: map<int, Product>
    var orders: map<int, Order>
    var orderProducts: seq<OrderProduct>
    var nextCashierId: int
    var nextProductId: int
    var nextOrderId: int

    /** The tables as a value, for the queries and transitions of `Handlers`. */
    function State(): Db
      reads this
    {
      Db(cashiers, categories, products, orders, orderProducts, nextCashierId, nextProductId, nextOrderId)
    }

    ghost predicate Valid()
      reads this
    {
      State().Valid()
    }

    /** A store holding the rows of `seed`, as after start-up seeding. */
    constructor (seed: Db)
      requires seed.Valid()
      ensures Valid() && State() == seed
    {
      cashiers, categories, products, orders := seed.cashiers, seed.categories, seed.products, seed.orders;
      orderProducts := seed.orderProducts;
      nextCashierId, nextProductId, nextOrderId := seed.nextCashierId, seed.nextProductId, seed.nextOrderId;
    }

    /** POST /cashiers. */
    method CreateCashier(body: Cashier) returns (response: Response<Cashier>)
      requires Valid()
      modifies this
      ensures Valid()
      ensures (State(), response) == Handlers.CreateCashier(old(State()), body)
    {
      CreateCashierSound(State(), body);
      var id := nextCashierId;
      var cashier := body.(id := id);
      cashiers := cashiers[id := cashier];
      nextCashierId := id + 1;
      response := Created(Location("cashiers", id), cashier);
    }

    /** POST /products. */
    method CreateProduct(body: Product) returns (response: Response<Product>)
      requires Valid()
      modifies this
      ensures Valid()
      ensures (State(), response) == Handlers.CreateProduct(old(State()), body)
    {
      CreateProductSound(State(), body);
      var id := nextProductId;
      var product := body.(id := id);
      products := products[id := product];
      nextProductId := id + 1;
      response := Created(Location("products", id), product);
    }

    /** PUT /products/{id}: the stored product's four fields are overwritten. */
    method UpdateProduct(id: int, body: Product) returns (response: Response<()>)
      requires Valid()
      modifies this
      ensures Valid()
      ensures (State(), response) == Handlers.UpdateProduct(old(State()), id, body)
    {
      UpdateProductSound(State(), id, body);
      var existing := FindById(AllProducts(State()), ProductKey, id);
      if existing.None? {
        return NotFound;
      }
      var p := existing.value;
      products := products[p.id := p.(productName := body.productName, price := body.price,
                                      brand := body.brand, categoryId := body.categoryId)];
      response := NoContent;
    }

    /** DELETE /orders/{id}. */
    method DeleteOrder(id: int) returns (response: Response<()>)
      requires Valid()
      modifies this
      ensures Valid()
      ensures (State(), response) == Handlers.DeleteOrder(old(State()), id)
    {
      DeleteOrderSound(State(), id);
      var existing := FindById(AllOrders(State()), OrderKey, id);
      if existing.None? {
        return NotFound;
      }
      orders := orders - {existing.value.id};
      response := NoContent;
    }

    /** POST /orders, with the line items nested in the body. */
    method CreateOrder(body: Order, items: seq<OrderProduct>) returns (response: Response<Option<OrderView>>)
      requires Valid()
      modifies this
      ensures Valid()
      ensures (State(), response) == Handlers.CreateOrder(old(State()), body, items)
    {
      CreateOrderSound(State(), body, items);
      var id := nextOrderId;
      orders := orders[id := body.(id := id)];
      orderProducts := orderProducts + AttachItems(items, id);
      nextOrderId := id + 1;
      var reloaded := match FindById(AllOrders(State()), OrderKey, id)
        case None => None
        case Some(x) => Some(LoadOrder(State(), x, true));
      response := Created(Location("orders", id), reloaded);
    }

    /** POST /orders/{orderId}/products: the body's `OrderId` is overwritten with
        the path's before the line item is added. */
    method AddOrderProduct(orderId: int, body: OrderProduct) returns (response: Response<Option<LineItemView>>)
      requires Valid()
      modifies this
      ensures Valid()
      ensures (State(), response) == Handlers.AddOrderProduct(old(State()), orderId, body)
    {
      AddOrderProductSound(State(), orderId, body);
      var item := body.(orderId := orderId);
      orderProducts := orderProducts + [item];
      var reloaded := match FindLine(orderProducts, orderId, body.productId)
        case None => None
        case Some(op) => Some(LineItemView(op, LoadProduct(State(), op.productId, false), LoadOrderOf(State(), op.orderId)));
      response := Created(Location("orders", orderId) + "/products", reloaded);
    }
  }

}
