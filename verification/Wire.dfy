/**
 The financial values the saga carries from the basket service to the order service, and
 the field-for-field mappers at both ends (basketremote/client.go, orderremote/client.go).
 Money is an exact `real`.
 */
module Wire {
  // What travels on the wire (beecore-http's common and baskets and orders messages).
  datatype StoreV1 = StoreV1(id: string, owner: string, name: string, email: string)

  datatype ProductV1 = ProductV1(
    id: string, name: string, description: string, img: string,
    price: real, subtotal: real, quantity: int)

  datatype FinancialItemV1 = FinancialItemV1(
    store: StoreV1, products: seq<ProductV1>, shippingAmount: real,
    taxes: string, taxesAmount: real, subtotal: real, total: real)

  datatype FinancialsV1 = FinancialsV1(
    items: seq<FinancialItemV1>, subtotal: real, totalShipping: real, totalTaxes: real, total: real)

  datatype OrderV1 = OrderV1(
    userId: string, paymentId: string, basketId: string, shippingAddressId: string,
    financialItem: FinancialItemV1)

  // The domain's own view of the same values.
  datatype Store = Store(id: string, owner: string, name: string, email: string)

  datatype Product = Product(
    id: string, name: string, description: string, img: string,
    price: real, subtotal: real, quantity: int)

  datatype LineItem = LineItem(
    store: Store, products: seq<Product>, shippingAmount: real,
    taxes: string, taxesAmount: real, subtotal: real, total: real)

  datatype Financials = Financials(
    items: seq<LineItem>, subtotal: real, totalShipping: real, totalTaxes: real, total: real)

  function ToDomainStore(s: StoreV1): Store {
    Store(s.id, s.owner, s.name, s.email)
  }

  function ToDomainProduct(p: ProductV1): Product {
    Product(p.id, p.name, p.description, p.img, p.price, p.subtotal, p.quantity)
  }

  function ToDomainItem(f: FinancialItemV1): LineItem {
    LineItem(ToDomainStore(f.store), seq(|f.products|, i requires 0 <= i < |f.products| => ToDomainProduct(f.products[i])),
             f.shippingAmount, f.taxes, f.taxesAmount, f.subtotal, f.total)
  }

  function ToDomainFinancials(f: FinancialsV1): Financials {
    Financials(seq(|f.items|, i requires 0 <= i < |f.items| => ToDomainItem(f.items[i])),
               f.subtotal, f.totalShipping, f.totalTaxes, f.total)
  }

  function ToWireStore(s: Store): StoreV1 {
    StoreV1(s.id, s.owner, s.name, s.email)
  }

  function ToWireProduct(p: Product): ProductV1 {
    ProductV1(p.id, p.name, p.description, p.img, p.price, p.subtotal, p.quantity)
  }

  function ToWireItem(f: LineItem): FinancialItemV1 {
    FinancialItemV1(ToWireStore(f.store), seq(|f.products|, i requires 0 <= i < |f.products| => ToWireProduct(f.products[i])),
                    f.shippingAmount, f.taxes, f.taxesAmount, f.subtotal, f.total)
  }

  /** What the order service is sent is what the basket service said: nothing is lost, added or reordered. */
  lemma WireRoundTrip(w: FinancialItemV1)
    ensures ToWireItem(ToDomainItem(w)) == w
  {
    assert ToWireItem(ToDomainItem(w)).products == w.products;
  }

  /** An order read back shows the line item that was ordered. */
  lemma DomainRoundTrip(f: LineItem)
    ensures ToDomainItem(ToWireItem(f)) == f
  {
    assert ToDomainItem(ToWireItem(f)).products == f.products;
  }

  // What it means for a domain value and a wire value to say the same, field by field.
  ghost predicate SameStore(s: Store, w: StoreV1) {
    s.id == w.id && s.owner == w.owner && s.name == w.name && s.email == w.email
  }

  ghost predicate SameProduct(p: Product, w: ProductV1) {
    && p.id == w.id && p.name == w.name && p.description == w.description && p.img == w.img
    && p.price == w.price && p.subtotal == w.subtotal && p.quantity == w.quantity
  }

  ghost predicate SameItem(f: LineItem, w: FinancialItemV1) {
    && SameStore(f.store, w.store) && |f.products| == |w.products|
    && (forall i :: 0 <= i < |f.products| ==> SameProduct(f.products[i], w.products[i]))
    && f.shippingAmount == w.shippingAmount && f.taxes == w.taxes && f.taxesAmount == w.taxesAmount
    && f.subtotal == w.subtotal && f.total == w.total
  }

  /** The inbound mapper's loop over a store's products. */
  method MapLineItem(f: FinancialItemV1) returns (item: LineItem)
    ensures item == ToDomainItem(f)
    ensures SameItem(item, f)
    ensures ToWireItem(item) == f
  {
    var products: seq<Product> := [];
    for i := 0 to |f.products|
      invariant products == ToDomainItem(f).products[..i]
    {
      products := products + [ToDomainProduct(f.products[i])];
    }
    item := LineItem(ToDomainStore(f.store), products, f.shippingAmount, f.taxes, f.taxesAmount, f.subtotal, f.total);
    WireRoundTrip(f);
  }

  /** The inbound mapper's loop over stores. */
  method MapFinancials(f: FinancialsV1) returns (r: Financials)
    ensures r == ToDomainFinancials(f)
    ensures |r.items| == |f.items| && forall i :: 0 <= i < |f.items| ==> ToWireItem(r.items[i]) == f.items[i]
    ensures forall i :: 0 <= i < |f.items| ==> SameItem(r.items[i], f.items[i])
    ensures r.subtotal == f.subtotal && r.totalShipping == f.totalShipping && r.totalTaxes == f.totalTaxes && r.total == f.total
  {
    var items: seq<LineItem> := [];
    for i := 0 to |f.items|
      invariant items == ToDomainFinancials(f).items[..i]
      invariant forall k :: 0 <= k < i ==> ToWireItem(items[k]) == f.items[k] && SameItem(items[k], f.items[k])
    {
      var item := MapLineItem(f.items[i]);
      items := items + [item];
    }
    r := Financials(items, f.subtotal, f.totalShipping, f.totalTaxes, f.total);
  }

  /** The outbound mapper's loop over a store's products. */
  method MapWireItem(f: LineItem) returns (w: FinancialItemV1)
    ensures w == ToWireItem(f)
    ensures SameItem(f, w)
    ensures ToDomainItem(w) == f
  {
    var products: seq<ProductV1> := [];
    for i := 0 to |f.products|
      invariant products == ToWireItem(f).products[..i]
    {
      products := products + [ToWireProduct(f.products[i])];
    }
    w := FinancialItemV1(ToWireStore(f.store), products, f.shippingAmount, f.taxes, f.taxesAmount, f.subtotal, f.total);
    DomainRoundTrip(f);
  }
}
