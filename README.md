# CornerStore in Dafny

CornerStore is a small ASP.NET minimal-API service over Entity Framework. It
keeps cashiers, product categories, products, orders and order line items.
This project models the logic the service adds on top of the framework:

- `Cashier.FullName`: the first name, one space, then the last name.
- `Order.Total`: the sum of price × quantity over the order's line items. A
  line whose product is not loaded adds nothing, and a missing or empty list
  totals 0.
- The route handlers in `Program.cs` are modelled as operations on an
  abstract store:
  - cashier list, get and create;
  - product search, create and update;
  - order get, date-filtered list, delete and create;
  - adding a line item to an order.

The store (`Tables.Db`) holds each of the four keyed tables (cashiers,
categories, products, orders) as a map from id to record. Line items are a
sequence. Cashiers, products and orders each have a next-id counter;
categories are only read, so they have none.

- `Db.Valid()` is the store invariant: each row is stored under its own id,
  and every cashier, product and order id is positive and below its table's
  counter.
- Listing a table returns its rows in ascending id order.
- `FirstOrDefault` becomes `Tables.FindById`, and `Where` becomes
  `Tables.Filter`.
- Eager loading (`Include`/`ThenInclude`) becomes a join by foreign key.
  Loading an order attaches its cashier and, in store order, the line items
  that name it, each with its product and, where the route asks for it, the
  product's category.

The read handlers are pure functions in module `Handlers`. A handler that
changes the store is modelled twice:

- In `Handlers`, as a transition function from the old store to the pair
  (new store, response).
- In `Server.Store`, as a method of a class whose fields are the tables and
  counters. The method updates the fields in place, keeps `Valid()`, and
  promises that the new state and the response equal the transition
  function's.

A response is `NotFound`, `Ok(x)`, `Created(location, x)` or `NoContent`.
Module `Fixture` builds the store the tests seed, and modules
`CashierExamples`, `ProductExamples` and `OrderExamples` prove the tests'
expected values about it.

Modules and files:
- `wrappers.dfy`: `Option`.
- `text.dfy`: ASCII lowering, substring search, decimal rendering and parsing
  of ids.
- `models.dfy`: records, `FullName`, `Total`.
- `tables.dfy`: the store, listing, lookup, filtering, eager loading.
- `handlers.dfy`: the handlers and their properties.
- `server.dfy`: the mutable store.
- `fixture.dfy`, `cashier_examples.dfy`, `product_examples.dfy`,
  `order_examples.dfy`: the seeded store and the test expectations.

## Model

| member | source | states |
|---|---|---|
| Models.FullName | CornerStore/Models/Cashier.cs:16 | the full name has length first + last + 1, starts with the first name, has a space right after it, and ends with the last name |
| Models.FullNameSplits | CornerStore/Models/Cashier.cs:16 | when the first name has no space, splitting the full name at its first space gives back exactly the first and last names |
| Models.LineAmount | CornerStore/Models/Order.cs:17 | one line's term of the sum: price × quantity when its product is loaded, nothing when it is null; its properties are stated by TotalAppendLine and TotalIgnoresUnloaded |
| Models.SumLines | CornerStore/Models/Order.cs:17 | `Sum` over the line list; its properties are stated by SumLinesAppend, SumLinesRemove and TotalPermutation |
| Models.Total | CornerStore/Models/Order.cs:13-19 | a null or empty line-item list totals 0 |
| Models.SumLinesAppend | CornerStore/Models/Order.cs:17 | the sum over two concatenated line lists is the sum of the two sums |
| Models.TotalAppendLine | CornerStore/Models/Order.cs:17 | appending a line adds exactly price × quantity to the total when its product is loaded, and nothing when it is not |
| Models.TotalIgnoresUnloaded | CornerStore/Models/Order.cs:17 | the total equals the total over only the lines whose product is loaded (null products contribute nothing) |
| Models.SumLinesRemove | CornerStore/Models/Order.cs:17 | the sum is any one line's amount plus the sum of the remaining lines |
| Models.TotalPermutation | CornerStore/Models/Order.cs:17 | two line lists that are permutations of each other have the same total |
| Text.Lower | CornerStore/Program.cs:71-72 | lowering keeps the length and lowers each character on its own |
| Text.LowerIdempotent | CornerStore/Program.cs:71-72 | lowering twice equals lowering once |
| Text.ContainsIffOccurs | CornerStore/Program.cs:71-72 | `Contains` holds exactly when the needle occurs at some position of the haystack |
| Text.ContainsKeepsChars | CornerStore/Program.cs:71-72 | every character of a contained string occurs in the containing string |
| Text.ContainsNeedsChar | CornerStore/Program.cs:71-72 | a string holding a character the haystack lacks is not contained in it |
| Text.LowerAvoids | CornerStore/Program.cs:71-72 | a lower-case letter absent from a string in both cases is absent from the lowered string |
| Text.NatToString | CornerStore/Program.cs:50 | an id renders as a non-empty string of decimal digits without a leading zero |
| Text.ParseNatRoundTrip | CornerStore/Program.cs:50 | parsing the decimal rendering of a natural number gives the number back |
| Text.IntRoundTrip | CornerStore/Program.cs:50 | parsing the decimal rendering of any integer gives the integer back |
| Handlers.Location | CornerStore/Program.cs:50 | the `$"/{resource}/{id}"` location of a created row; LocationNamesId states that it reads back to the id |
| Handlers.LocationNamesId | CornerStore/Program.cs:50 | a created resource's location is "/" + resource + "/" followed by text that parses back to the new id |
| Tables.Db.Valid | CornerStore/Program.cs:46-51 | the store invariant: every cashier, product and order sits under its own id, which is positive and below its table's counter, and every category under its own id; every write lemma and every `Server.Store` method keeps it |
| Tables.ListRows | CornerStore/Program.cs:39-43 | a table listed in ascending id order; ListRowsMembers states which rows it holds |
| Tables.ListRowsMembers | CornerStore/Program.cs:39-43 | a listing holds a row exactly when the table stores that row under an id in range |
| Tables.FindById | CornerStore/Program.cs:59 | FirstOrDefault by id returns a listed row with that id, or nothing only when no listed row has it |
| Tables.FindByIdInRows | CornerStore/Program.cs:59 | over a keyed table, FirstOrDefault by id returns the stored row exactly when the id is stored and in range |
| Tables.Filter | CornerStore/Program.cs:71-73 | every element `Where` keeps satisfies the predicate, every satisfying element is kept, and the result is a subsequence of its input |
| Tables.FilterCounts | CornerStore/Program.cs:71-73 | `Where` keeps every copy of a satisfying element and no copy of any other, so with Filter the result is exactly the satisfying elements |
| Tables.FilterStep | CornerStore/Program.cs:71-73 | filtering a suffix decides its first element and then filters the rest |
| Tables.FilterAll | CornerStore/Program.cs:124 | filtering with a predicate every element satisfies returns the input unchanged (used by ListOrdersAllOnDate) |
| Tables.FilterCongruent | CornerStore/Program.cs:124 | two predicates that agree on every element filter a sequence identically |
| Tables.LoadLines | CornerStore/Program.cs:105-106 | `OrderProducts` of an order with each `Product` (and, when asked, its `Category`) attached: the stored items that name the order, in store order; LoadLinesMembers states both directions |
| Tables.LoadLinesAppend | CornerStore/Program.cs:105-106 | loading the lines of an order from concatenated line lists concatenates the loaded lines |
| Tables.LoadLinesAllNamed | CornerStore/Program.cs:105-106 | when every item names the order, each item is loaded, in place, with its product |
| Tables.LoadLinesNoneNamed | CornerStore/Program.cs:105-106 | when no item names the order, the order loads no lines |
| Tables.LoadLinesMembers | CornerStore/Program.cs:105-107 | the loaded lines are exactly the items naming the order, each joined with its product |
| Tables.LoadOrder | CornerStore/Program.cs:103-107 | an order with its `Cashier` and its loaded `OrderProducts`; GetOrderFinds and CashierOrdersExact state what the routes return |
| Tables.LoadCashier | CornerStore/Program.cs:39-42 | a cashier with the stored orders that name it, each with its lines and products; CashierOrdersExact states both directions |
| Tables.ViewOrders | CornerStore/Program.cs:115-119 | loading a list of orders loads each order in place |
| Tables.ViewOrdersHas | CornerStore/Program.cs:40 | a loaded order list holds a view of an order exactly when the order is in the list |
| Handlers.ListCashiers | CornerStore/Program.cs:37-44 | the cashier list has one entry per listed cashier, each that cashier loaded with its orders, in place |
| Handlers.ListCashiersExact | CornerStore/Program.cs:37-44 | a loaded cashier is in the list exactly when that cashier is stored |
| Handlers.CashierOrdersExact | CornerStore/Program.cs:40-42 | a loaded cashier carries a view of an order exactly when that order is stored and names the cashier |
| Handlers.GetCashier | CornerStore/Program.cs:53-62 | GET /cashiers/{id} as FirstOrDefault over the loaded cashiers; GetCashierFinds states the answer |
| Handlers.GetCashierFinds | CornerStore/Program.cs:53-62 | GET /cashiers/{id} answers Ok with the loaded cashier when the id is stored, and NotFound otherwise |
| Handlers.CreateCashier | CornerStore/Program.cs:46-51 | the POST /cashiers transition; CreateCashierSound states its result and frame |
| Handlers.CreateCashierSound | CornerStore/Program.cs:46-51 | POST /cashiers stores the body under the id the cashier counter held, answers Created at /cashiers/{id}, a later GET finds it, and the new store is the old one with that row added and the counter one past the id: every other table and counter is unchanged |
| Handlers.ProductRows | CornerStore/Program.cs:67 | the product listing loads every stored product with its category, in place |
| Handlers.ProductRowsMembers | CornerStore/Program.cs:76 | a loaded product is listed exactly when that product is stored |
| Handlers.Matches | CornerStore/Program.cs:71-72 | the search condition: the lowered term is contained in the lowered name or the lowered category name; MatchesIffOccurs states it as an occurrence |
| Handlers.MatchesIffOccurs | CornerStore/Program.cs:71-72 | a product matches a term exactly when the lowered term occurs in the lowered product name or the lowered category name |
| Handlers.SearchProducts | CornerStore/Program.cs:65-77 | a null or empty search returns all products; otherwise exactly the matching products, as a subsequence of the listing |
| Handlers.SearchCaseInsensitive | CornerStore/Program.cs:71-72 | two terms with the same lowering give the same search result |
| Handlers.SearchFindsStored | CornerStore/Program.cs:69-73 | a stored product is in a non-empty search's result exactly when it matches the term |
| Handlers.CreateProduct | CornerStore/Program.cs:79-84 | the POST /products transition; CreateProductSound states its result and frame |
| Handlers.CreateProductSound | CornerStore/Program.cs:79-84 | POST /products stores the body under the id the product counter held, answers Created at /products/{id}, the product is then listed, and the new store is the old one with that row added and the counter one past the id: every other table and counter is unchanged |
| Handlers.ApplyUpdate | CornerStore/Program.cs:91-94 | the update keeps the product's id |
| Handlers.UpdateProduct | CornerStore/Program.cs:86-98 | the PUT /products/{id} transition; UpdateProductSound and UpdateProductIdempotent state its result and frame |
| Handlers.UpdateProductSound | CornerStore/Program.cs:86-98 | PUT on an absent id answers NotFound and changes nothing; on a stored id it answers NoContent, sets exactly name, price, brand and category id, and leaves every other product and table unchanged |
| Handlers.UpdateProductIdempotent | CornerStore/Program.cs:86-98 | sending the same PUT twice leaves the same store and response as sending it once |
| Handlers.PriceChangeScales | CornerStore/Models/Order.cs:17 | the change of an order's total caused by a price change is the price difference times the units of that product in the order |
| Handlers.RepriceItem | CornerStore/Models/Order.cs:17 | repricing one product changes a line's amount by the price difference for that product's lines and leaves other lines unchanged |
| Handlers.RepriceLines | CornerStore/Models/Order.cs:17 | repricing one product changes the sum over an order's lines by the price difference summed over that product's lines |
| Handlers.UpdateRepricesOrders | CornerStore/Program.cs:91-96 | after a PUT, every order's total is recomputed: it changes by exactly (new price − old price) × the units of that product the order holds |
| Handlers.UpdateShiftsTotal | CornerStore/Program.cs:91-96 | after a PUT, every order's total changes by the price change summed over that product's lines in the order |
| Handlers.GetOrder | CornerStore/Program.cs:101-111 | GET /orders/{id} as FirstOrDefault over the loaded orders; GetOrderFinds states the answer |
| Handlers.GetOrderFinds | CornerStore/Program.cs:101-111 | GET /orders/{id} answers Ok with the loaded order when the id is stored, and NotFound otherwise |
| Handlers.SelectOrders | CornerStore/Program.cs:120-127 | a null, empty or unparseable date keeps all orders; a parsed date keeps exactly the orders paid on that day, as a subsequence |
| Handlers.ListOrders | CornerStore/Program.cs:113-128 | GET /orders: the selected orders, each loaded with cashier, lines, products and categories; SelectOrders, ListOrdersOnDate and ListOrdersUnparseable state its result |
| Handlers.ListOrdersOnDate | CornerStore/Program.cs:113-128 | with a parseable date a stored order is listed exactly when it was paid on that date |
| Handlers.ListOrdersAllOnDate | CornerStore/Program.cs:120-127 | when every stored order was paid on the parsed date, the date filter keeps them all: the answer equals the unfiltered list |
| Handlers.ListOrdersUnparseable | CornerStore/Program.cs:122 | an unparseable date lists the same orders as no date |
| Handlers.DeleteOrder | CornerStore/Program.cs:130-138 | the DELETE /orders/{id} transition; DeleteOrderSound states its result and frame |
| Handlers.DeleteOrderSound | CornerStore/Program.cs:130-138 | DELETE on an absent id answers NotFound and changes nothing; on a stored id it answers NoContent and removes only that order; afterwards GET /orders/{id} is NotFound and GET /orders/{k} for every other k is unchanged |
| Handlers.AttachItems | CornerStore/Program.cs:142 | items posted with a new order are kept one for one, each now naming the new order |
| Handlers.CreateOrder | CornerStore/Program.cs:140-154 | the POST /orders transition; CreateOrderSound states its result and frame |
| Handlers.CreateOrderSound | CornerStore/Program.cs:140-154 | POST /orders stores the order under the counter's id, which no stored order has, answers Created at /orders/{id} with the reloaded order, its cashier and its lines, adds one line per posted item, and changes only the order table, the line items and the order counter |
| Handlers.DeletedOrderIdNotReused | CornerStore/Program.cs:130-154 | an order created after another is deleted does not get the deleted id, and its location names a different id |
| Handlers.LoadLinesSameProducts | CornerStore/Program.cs:163-166 | loading lines depends on the store only through products and categories |
| Handlers.FindLine | CornerStore/Program.cs:166 | FirstOrDefault returns the first stored item with that order and product, or nothing only when none exists |
| Handlers.FindLineAppend | CornerStore/Program.cs:163-166 | when no earlier item has that order and product, the lookup finds the appended item |
| Handlers.AddOrderProduct | CornerStore/Program.cs:156-169 | the POST /orders/{orderId}/products transition; AddOrderProductSound and AddOrderProductTotal state its result |
| Handlers.AddOrderProductSound | CornerStore/Program.cs:156-169 | adding a line appends one item whose order id is the path's and whose product and quantity are the body's, answers Created at /orders/{orderId}/products, and returns a line for that order and product (the new one when it is the first) with its `Product` and its `Order` attached |
| Handlers.AddOrderProductTotal | CornerStore/Program.cs:156-160 | adding a line raises its order's total by the item's amount, `LineAmount` of the line as loaded: price × quantity, nothing when the product is absent |
| Server.Store.constructor | CornerStore/Program.cs:37-169 | the store starts in a given valid state |
| Server.Store.CreateCashier | CornerStore/Program.cs:46-51 | inserts in place, keeps the invariant, and ends in the state and response of the transition |
| Server.Store.CreateProduct | CornerStore/Program.cs:79-84 | inserts in place, keeps the invariant, and ends in the state and response of the transition |
| Server.Store.UpdateProduct | CornerStore/Program.cs:86-98 | overwrites the four fields in place, keeps the invariant, and ends in the state and response of the transition |
| Server.Store.DeleteOrder | CornerStore/Program.cs:130-138 | removes in place, keeps the invariant, and ends in the state and response of the transition |
| Server.Store.CreateOrder | CornerStore/Program.cs:140-154 | inserts the order and its items in place, keeps the invariant, and ends in the state and response of the transition |
| Server.Store.AddOrderProduct | CornerStore/Program.cs:156-169 | forces the path's order id, appends in place, keeps the invariant, and ends in the state and response of the transition |
| Fixture.SeedValid | CornerStore.Tests/CornerStoreApp.cs:41-108 | the seeded store satisfies the store invariant |
| Fixture.SeedOrders | CornerStore.Tests/CornerStoreApp.cs:62-107 | the seeded orders are listed as orders 1 to 4 |
| Fixture.SeedProducts | CornerStore.Tests/CornerStoreApp.cs:53-59 | the seeded products are listed as products 1 to 6 |
| Fixture.SeedLines | CornerStore.Tests/CornerStoreApp.cs:62-107 | an order's seeded lines are the lines of the four per-order item blocks, concatenated |
| Fixture.OtherBlocks | CornerStore.Tests/CornerStoreApp.cs:62-107 | each seeded item block loads no lines for any other order |
| CashierExamples.OrderOneLines | CornerStore.Tests/CornerStoreApp.cs:64-74 | order 1 loads Tuna, Toilet Paper and Milk, one each |
| CashierExamples.OrderThreeLines | CornerStore.Tests/CornerStoreApp.cs:87-97 | order 3 loads Toilet Paper, Dishwashing Soap and Canned Tomatoes, one each |
| CashierExamples.OrderOneTotal | CornerStore.Tests/TestCornerStore.cs:21 | order 1 totals 8.24 |
| CashierExamples.OrderThreeTotal | CornerStore.Tests/TestCornerStore.cs:22 | order 3 totals 9.74 |
| CashierExamples.AmyFullName | CornerStore.Tests/TestCornerStore.cs:16-17 | cashier 1's full name is "Amy Simpson" |
| CashierExamples.AmyOrders | CornerStore.Tests/TestCornerStore.cs:18 | cashier 1 carries orders 1 and 3 |
| CashierExamples.CashierOneExample | CornerStore.Tests/TestCornerStore.cs:14-22 | GET /cashiers/1 answers Amy Simpson with two orders, ids 1 and 3, totalling 8.24 and 9.74 |
| CashierExamples.CreateCashierExample | CornerStore.Tests/TestCornerStore.cs:24-29 | posting "Test Cashier" to the seeded store answers Created with id 4 at "/cashiers/4" |
| ProductExamples.SeedProductRows | CornerStore.Tests/TestCornerStore.cs:39 | the seeded product listing is the six products with their categories |
| ProductExamples.NoMatch | CornerStore/Program.cs:71-72 | a product whose name and category lack a letter of the lowered term, in either case, does not match |
| ProductExamples.MatchesClean | CornerStore.Tests/TestCornerStore.cs:40 | only Toilet Paper and Dishwashing Soap match "clean" |
| ProductExamples.MatchesT | CornerStore.Tests/TestCornerStore.cs:41 | all products except Dishwashing Soap and Milk match "t" |
| ProductExamples.MatchesV | CornerStore.Tests/TestCornerStore.cs:42 | only the picture hanging kit matches "v" |
| ProductExamples.AllProductsExample | CornerStore.Tests/TestCornerStore.cs:43-47 | a search without a term returns six products, the first with its category loaded |
| ProductExamples.SearchCleanExample | CornerStore.Tests/TestCornerStore.cs:44 | searching "clean" returns two products |
| ProductExamples.SearchTExample | CornerStore.Tests/TestCornerStore.cs:45 | searching "t" returns four products |
| ProductExamples.SearchVExample | CornerStore.Tests/TestCornerStore.cs:46 | searching "v" returns one product |
| ProductExamples.CreateThenUpdateExample | CornerStore.Tests/TestCornerStore.cs:49-71 | creating a product gives id 7 at "/products/7", and the PUT then answers NoContent and stores the name "Testing" |
| OrderExamples.OrderTwoLines | CornerStore.Tests/CornerStoreApp.cs:75-86 | order 2 loads 5 Tuna, Milk, the picture hanging kit and Canned Tomatoes |
| OrderExamples.OrderTwoTotal | CornerStore.Tests/TestCornerStore.cs:90 | order 2 totals 17.98 |
| OrderExamples.OrderTwoExample | CornerStore.Tests/TestCornerStore.cs:86-92 | GET /orders/2 answers order 2 with four lines, the Tuna line of quantity 5, totalling 17.98 |
| OrderExamples.ListOrdersExample | CornerStore.Tests/TestCornerStore.cs:94-95 | the unfiltered order list has four orders |
| OrderExamples.DateFilterExample | CornerStore.Tests/TestCornerStore.cs:96-97 | filtering on "2023-07-20" lists only order 3 |
| OrderExamples.DeleteOrderExample | CornerStore.Tests/TestCornerStore.cs:99-102 | deleting order 1 answers NoContent and a later GET of it answers NotFound |
| OrderExamples.TwoTunas | CornerStore.Tests/TestCornerStore.cs:109-112 | the posted item (2 × Tuna) is attached to order 5 and its line totals 2.50 |
| OrderExamples.CreateOrderExample | CornerStore.Tests/TestCornerStore.cs:104-119 | after order 1 is deleted, creating an order answers Created with id 5 at "/orders/5", cashier Derek, and a total of 2.50 |

## Left out

- Web hosting is not modelled: routing, Swagger, HTTPS redirection and JSON serialization (with its cycle handling) are framework plumbing.
- Entity Framework is not modelled: change tracking, `SaveChanges` transactions and SQL translation. `Include`/`ThenInclude` is modelled as a join by foreign key.
- `DateTime.TryParse` is culture-dependent library parsing. It is a parameter `parse` of the order-list handler, and the examples state what they assume it returns.
- `ToLower` is culture-sensitive. The model lowers ASCII letters A–Z only.
- `decimal` prices are modelled as exact `real` numbers, so the model has no overflow and no decimal precision limit. `int` ids and quantities are unbounded integers and do not wrap at 32 bits.
- Null strings and missing required fields in request bodies are not modelled. They surface as framework exceptions or validation errors that the handlers do not handle.
- A null `Category` in the product search is not modelled as a failure. A product whose category is not stored matches on its name only.
- Ids are modelled as coming from per-table counters that start at 1 and never reuse an id, as the tests show (order 5 after order 1 is deleted). A create ignores any id in the body. A client-chosen explicit id is not modelled.
- Nested objects in request bodies are not inserted. This covers orders or a category posted with a cashier or product, and a `Cashier` or `Product` object posted inside an order or line-item body. Only the line items posted with an order are inserted, attached to the new order.
- `CornerStore/CornerStoreDbContext.cs` is not part of this model. It declares no table properties or keys, so the model enforces no foreign keys and no composite-key uniqueness of line items. Delete does not cascade: DELETE /orders/{id} removes the order row, and its line items stay in the store. No later order loads those items, because ids are never reused.
- Listing order is not defined by the source. Listings and searches return rows in ascending id order.
- Handlers.AddOrderProductSound: the response is the first stored line for that order and product, as the lookup at CornerStore/Program.cs:166 reads. When the order already had a line for the product, the response is that earlier line, not the new one. `Handlers.FindLine` states that the first matching line is returned; `Handlers.AddOrderProductSound` pins down which line that is only when none existed before.
- Concurrency between requests is not modelled. Each request is one atomic transition.
- The commented-out "popular products" test names an endpoint the service does not have.
