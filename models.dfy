/** The entity records of `CornerStore/Models` and the two values they compute:
    a cashier's full name and an order's total. Records refer to each other by
    id only; the navigation properties that Entity Framework fills in are the
    `...View` datatypes, built by the joins in module `Tables`. */
module Models {

  import opened Wrappers

  datatype Cashier = Cashier(id: int, firstName: string, lastName: string)

  datatype Category = Category(id: int, categoryName: string)

  /** `Price` is a `decimal`; it is kept exact as a `real`. */
  datatype Product = Product(id: int, productName: string, price: real, brand: string, categoryId: int)

  datatype Date = Date(year: int, month: int, day: int)

  /** A `DateTime`: its calendar date (`.Date`) and the time elapsed since midnight. */
  datatype DateTime = DateTime(date: Date, timeOfDay: nat)

  datatype Order = Order(id: int, cashierId: int, paidOnDate: Option<DateTime>)

  /** A line item: `Quantity` units of one product in one order. */
  datatype OrderProduct = OrderProduct(productId: int, orderId: int, quantity: int)

  /** A product with its `Category` navigation property, which is loaded only
      when a query asks for it. */
  datatype ProductView = ProductView(product: Product, category: Option<Category>)

  /** A line item with its `Product` navigation property (absent when the
      product was not loaded). */
  datatype LineView = LineView(item: OrderProduct, product: Option<ProductView>)

  // ---------------------------------------------------------------------------
  // Cashier.FullName

  /** `FullName`: the first name, one space, the last name. It is computed from
      the record each time it is read, never stored. */
  function FullName(c: Cashier): (r: string)
    ensures |r| == |c.firstName| + |c.lastName| + 1
    ensures r[..|c.firstName|] == c.firstName
    ensures r[|c.firstName|] == ' '
    ensures r[|c.firstName| + 1..] == c.lastName
  {
    c.firstName + " " + c.lastName
  }

  /** Splits a full name at its first space into a first and a last name, or
      gives None when it holds no space. */
  function SplitFullName(s: string): (r: Option<(string, string)>)
  {
    if ' ' in s then
      var k := FirstSpace(s);
      Some((s[..k], s[k + 1..]))
    else
      None
  }

  function FirstSpace(s: string): (k: nat)
    requires ' ' in s
    ensures k < |s| && s[k] == ' ' && ' ' !in s[..k]
  {
    if s[0] == ' ' then 0 else
      assert ' ' in s[1..] by { var j :| 0 <= j < |s| && s[j] == ' '; assert s[1..][j - 1] == ' '; }
      var k := FirstSpace(s[1..]);
      assert s[..k + 1] == [s[0]] + s[1..][..k];
      k + 1
  }

  /** When the first name holds no space, the full name splits back into the
      two names at its first space. */
  lemma FullNameSplits(c: Cashier)
    requires ' ' !in c.firstName
    ensures SplitFullName(FullName(c)) == Some((c.firstName, c.lastName))
  {
    var r := FullName(c);
    var n := |c.firstName|;
    assert r[n] == ' ';
    var k := FirstSpace(r);
    assert forall i :: 0 <= i < k ==> r[..k][i] == r[i];
    assert forall i :: 0 <= i < n ==> r[i] == c.firstName[i];
    assert k == n;
  }

  // ---------------------------------------------------------------------------
  // Order.Total

  /** What one line item adds to the total: `Product?.Price * Quantity`, and
      nothing when its product is not loaded (the null term `Sum` skips). */
  function LineAmount(l: LineView): real
  {
    match l.product
    case None => 0.0
    case Some(p) => p.product.price * l.item.quantity as real
  }

  function SumLines(ls: seq<LineView>): real
  {
    if ls == [] then 0.0 else LineAmount(ls[0]) + SumLines(ls[1..])
  }

  /** `Total`: the sum over the loaded line items, and 0 when the list itself
      is null or empty. */
  function Total(orderProducts: Option<seq<LineView>>): (t: real)
    ensures orderProducts == None || orderProducts == Some([]) ==> t == 0.0
  {
    match orderProducts
    case None => 0.0
    case Some(ls) => SumLines(ls)
  }

  lemma {:induction false} SumLinesAppend(a: seq<LineView>, b: seq<LineView>)
    ensures SumLines(a + b) == SumLines(a) + SumLines(b)
    decreases |a|
  {
    if a == [] {
      assert a + b == b;
    } else {
      SumLinesAppend(a[1..], b);
      assert (a + b)[1..] == a[1..] + b;
    }
  }

  /** Appending a line item adds exactly its amount to the total: its price
      times its quantity when its product is loaded, nothing otherwise. */
  lemma TotalAppendLine(ls: seq<LineView>, l: LineView)
    ensures Total(Some(ls + [l])) == Total(Some(ls)) + LineAmount(l)
    ensures l.product.Some? ==>
      Total(Some(ls + [l])) == Total(Some(ls)) + l.product.value.product.price * l.item.quantity as real
  {
    SumLinesAppend(ls, [l]);
    assert SumLines([l]) == LineAmount(l) + SumLines([]);
  }

  /** The line items whose product is loaded. */
  function LoadedOnly(ls: seq<LineView>): (r: seq<LineView>)
    ensures forall l :: l in r ==> l in ls && l.product.Some?
  {
    if ls == [] then []
    else if ls[0].product.Some? then [ls[0]] + LoadedOnly(ls[1..])
    else LoadedOnly(ls[1..])
  }

  /** Line items whose product is not loaded contribute nothing: the total over
      all of them equals the total over the loaded ones. */
  lemma {:induction false} TotalIgnoresUnloaded(ls: seq<LineView>)
    ensures Total(Some(ls)) == Total(Some(LoadedOnly(ls)))
    decreases |ls|
  {
    if ls != [] {
      TotalIgnoresUnloaded(ls[1..]);
      if ls[0].product.Some? {
        assert ([ls[0]] + LoadedOnly(ls[1..]))[1..] == LoadedOnly(ls[1..]);
      }
    }
  }

  /** Taking line item `j` out of `b` takes its amount out of the sum. */
  lemma {:induction false} SumLinesRemove(b: seq<LineView>, j: int)
    requires 0 <= j < |b|
    ensures SumLines(b) == LineAmount(b[j]) + SumLines(b[..j] + b[j + 1..])
    decreases j
  {
    if j == 0 {
      assert b[..0] + b[1..] == b[1..];
    } else {
      var tail := b[1..];
      SumLinesRemove(tail, j - 1);
      var rest := tail[..j - 1] + tail[j..];
      assert b[..j] + b[j + 1..] == [b[0]] + rest;
      assert ([b[0]] + rest)[1..] == rest;
    }
  }

  lemma MultisetRemove(b: seq<LineView>, j: int)
    requires 0 <= j < |b|
    ensures multiset(b[..j] + b[j + 1..]) == multiset(b) - multiset{b[j]}
  {
    assert b == b[..j] + [b[j]] + b[j + 1..];
    assert multiset(b) == multiset(b[..j]) + multiset{b[j]} + multiset(b[j + 1..]);
  }

  /** The total does not depend on the order in which the line items were
      loaded: any rearrangement of them has the same total. */
  lemma {:induction false} TotalPermutation(a: seq<LineView>, b: seq<LineView>)
    requires multiset(a) == multiset(b)
    ensures Total(Some(a)) == Total(Some(b))
    decreases |a|
  {
    if a == [] {
      assert |b| == |multiset(b)| == 0;
    } else {
      var x := a[0];
      assert x in multiset(b);
      var j :| 0 <= j < |b| && b[j] == x;
      assert a == [x] + a[1..];
      assert multiset(a[1..]) == multiset(a) - multiset{x};
      MultisetRemove(b, j);
      TotalPermutation(a[1..], b[..j] + b[j + 1..]);
      SumLinesRemove(b, j);
    }
  }

}
