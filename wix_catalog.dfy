// A Wix store product as the stores API returns it (decoded JSON) and the
// CSV line that both catalogue export scripts build for it. The two scripts
// build the line the same way: the first variant's data is preferred for
// the sku and the stock, the product's own data for the prices, and every
// missing or falsy value has a fixed fallback.
module WixCatalog {
  import opened Text
  import opened Seqs
  import Csv

  /** A property of a decoded JSON object: missing (`undefined`), `null`, or
   *  a value. */
  datatype Prop<T> = Absent | Null | Present(value: T)

  /** JavaScript truthiness of a string property. */
  predicate Filled(a: Prop<string>)
  {
    a.Present? && a.value != ""
  }

  /** JavaScript truthiness of a number property (prices and quantities are
   *  reals; NaN is not modelled). */
  predicate NonZero(a: Prop<real>)
  {
    a.Present? && a.value != 0.0
  }

  /** JavaScript truthiness of a boolean property. */
  predicate IsTrue(a: Prop<bool>)
  {
    a == Present(true)
  }

  /** `a || fallback` for a string. */
  function OrText(a: Prop<string>, fallback: string): (r: string)
    ensures Filled(a) ==> r == a.value
    ensures !Filled(a) ==> r == fallback
  {
    if Filled(a) then a.value else fallback
  }

  /** `a || fallback` for a number. */
  function OrNum(a: Prop<real>, fallback: real): (r: real)
    ensures NonZero(a) ==> r == a.value
    ensures !NonZero(a) ==> r == fallback
  {
    if NonZero(a) then a.value else fallback
  }

  /** `b ? 'Sí' : 'No'`. */
  function YesNo(b: bool): string
  {
    if b then "S\U{ED}" else "No"
  }

  datatype PriceData = PriceData(price: Prop<real>, discountedPrice: Prop<real>, currency: Prop<string>)

  /** `product.stock`. */
  datatype ProductStock = ProductStock(trackInventory: Prop<bool>, quantity: Prop<real>, inStock: Prop<bool>,
                                       inventoryStatus: Prop<string>)

  /** `variant.stock`. */
  datatype VariantStock = VariantStock(trackQuantity: Prop<bool>, quantity: Prop<real>, inStock: Prop<bool>)

  /** `variant.variant`. */
  datatype VariantData = VariantData(sku: Prop<string>, priceData: Prop<PriceData>)

  datatype Variant = Variant(variant: Prop<VariantData>, stock: Prop<VariantStock>)

  datatype Product = Product(id: Prop<string>, name: Prop<string>, sku: Prop<string>, visible: Prop<bool>,
                             productType: Prop<string>, price: Prop<PriceData>, stock: Prop<ProductStock>,
                             variants: Prop<seq<Variant>>, lastUpdated: Prop<string>)

  const NoPrice := PriceData(Absent, Absent, Absent)

  /** `product.variants?.[0]`. */
  function FirstVariant(p: Product): (r: Wrappers.Option<Variant>)
    ensures r.Some? <==> p.variants.Present? && |p.variants.value| > 0
    ensures r.Some? ==> r.value == p.variants.value[0]
  {
    if p.variants.Present? && |p.variants.value| > 0 then Wrappers.Some(p.variants.value[0]) else Wrappers.None
  }

  /** `product.variants?.[0]?.variant || {}`: an object is always truthy;
   *  the empty object has no properties. */
  function VariantOf(p: Product): VariantData
  {
    var v := FirstVariant(p);
    if v.Some? && v.value.variant.Present? then v.value.variant.value else VariantData(Absent, Absent)
  }

  /** The stock object either script reads: the first variant's stock, else
   *  the product's stock, else `{}`. The product's stock carries no
   *  `trackQuantity` property. */
  datatype StockView = StockView(trackQuantity: Prop<bool>, quantity: Prop<real>, inStock: Prop<bool>)

  function StockOf(p: Product): StockView
  {
    var v := FirstVariant(p);
    if v.Some? && v.value.stock.Present? then
      var s := v.value.stock.value;
      StockView(s.trackQuantity, s.quantity, s.inStock)
    else if p.stock.Present? then StockView(Absent, p.stock.value.quantity, p.stock.value.inStock)
    else StockView(Absent, Absent, Absent)
  }

  /** `product.price?.` and `variant.priceData?.`: a missing object yields
   *  missing properties. */
  function ProductPrice(p: Product): PriceData
  {
    if p.price.Present? then p.price.value else NoPrice
  }

  function VariantPrice(p: Product): PriceData
  {
    var v := VariantOf(p);
    if v.priceData.Present? then v.priceData.value else NoPrice
  }

  /** `.replace(/"/g, '""')`. */
  function DoubleQuotes(s: string): string
  {
    ReplaceChar(s, '"', "\"\"")
  }

  /** The sku before quoting: the first variant's sku, else the product's,
   *  else the empty text. */
  function SkuOf(p: Product): (r: string)
    ensures (FirstVariant(p).Some? && FirstVariant(p).value.variant.Present?
             && Filled(FirstVariant(p).value.variant.value.sku)) ==> r == FirstVariant(p).value.variant.value.sku.value
    ensures !Filled(VariantOf(p).sku) && Filled(p.sku) ==> r == p.sku.value
    ensures !Filled(VariantOf(p).sku) && !Filled(p.sku) ==> r == ""
  {
    OrText(VariantOf(p).sku, OrText(p.sku, ""))
  }

  function PriceOf(p: Product): (r: real)
    ensures NonZero(ProductPrice(p).price) ==> r == p.price.value.price.value
    ensures !NonZero(ProductPrice(p).price) && NonZero(VariantPrice(p).price) ==> r == VariantPrice(p).price.value
    ensures !NonZero(ProductPrice(p).price) && !NonZero(VariantPrice(p).price) ==> r == 0.0
  {
    OrNum(ProductPrice(p).price, OrNum(VariantPrice(p).price, 0.0))
  }

  /** The discounted price falls back to the price. */
  function DiscountedOf(p: Product): (r: real)
    ensures NonZero(ProductPrice(p).discountedPrice) ==> r == p.price.value.discountedPrice.value
    ensures !NonZero(ProductPrice(p).discountedPrice) && NonZero(VariantPrice(p).discountedPrice)
            ==> r == VariantPrice(p).discountedPrice.value
    ensures !NonZero(ProductPrice(p).discountedPrice) && !NonZero(VariantPrice(p).discountedPrice) ==> r == PriceOf(p)
  {
    OrNum(ProductPrice(p).discountedPrice, OrNum(VariantPrice(p).discountedPrice, PriceOf(p)))
  }

  /** The currency falls back to MXN. */
  function CurrencyOf(p: Product): (r: string)
    ensures Filled(ProductPrice(p).currency) ==> r == p.price.value.currency.value
    ensures !Filled(ProductPrice(p).currency) && Filled(VariantPrice(p).currency) ==> r == VariantPrice(p).currency.value
    ensures !Filled(ProductPrice(p).currency) && !Filled(VariantPrice(p).currency) ==> r == "MXN"
    ensures r != ""
  {
    OrText(ProductPrice(p).currency, OrText(VariantPrice(p).currency, "MXN"))
  }

  /** `product.stock?.inventoryStatus || 'N/A'`. */
  function InventoryStatusOf(p: Product): (r: string)
    ensures r != ""
    ensures p.stock.Present? && Filled(p.stock.value.inventoryStatus) ==> r == p.stock.value.inventoryStatus.value
    ensures !(p.stock.Present? && Filled(p.stock.value.inventoryStatus)) ==> r == "N/A"
  {
    OrText(if p.stock.Present? then p.stock.value.inventoryStatus else Absent, "N/A")
  }

  /** The product's own flag wins whenever it is defined (even `null`, which
   *  reads as no); otherwise the variant's `trackQuantity` when the stock
   *  object has that property; otherwise N/A. */
  function TrackInventoryOf(p: Product): (r: string)
    ensures r in {"S\U{ED}", "No", "N/A"}
    ensures p.stock.Present? && p.stock.value.trackInventory.Present?
            ==> r == YesNo(p.stock.value.trackInventory.value)
    ensures p.stock.Present? && p.stock.value.trackInventory.Null? ==> r == "No"
    ensures !(p.stock.Present? && !p.stock.value.trackInventory.Absent?) && !StockOf(p).trackQuantity.Absent?
            ==> r == YesNo(IsTrue(StockOf(p).trackQuantity))
    ensures r == "N/A" <==> !(p.stock.Present? && !p.stock.value.trackInventory.Absent?) && StockOf(p).trackQuantity.Absent?
  {
    if p.stock.Present? && !p.stock.value.trackInventory.Absent? then YesNo(IsTrue(p.stock.value.trackInventory))
    else if !StockOf(p).trackQuantity.Absent? then YesNo(IsTrue(StockOf(p).trackQuantity))
    else "N/A"
  }

  /** One CSV cell: a quoted text or a bare number. */
  datatype Cell = Text(s: string) | Num(x: real)

  /** The thirteen cells of a product's line, in header order. */
  function Cells(p: Product): seq<Cell>
  {
    [ Text(DoubleQuotes(SkuOf(p))), Text(DoubleQuotes(OrText(p.name, ""))), Num(PriceOf(p)), Num(DiscountedOf(p)),
      Text(CurrencyOf(p)), Num(OrNum(StockOf(p).quantity, 0.0)), Text(YesNo(IsTrue(StockOf(p).inStock))),
      Text(InventoryStatusOf(p)), Text(TrackInventoryOf(p)), Text(YesNo(IsTrue(p.visible))),
      Text(OrText(p.productType, "")), Text(OrText(p.id, "")), Text(OrText(p.lastUpdated, "")) ]
  }

  /** A text cell is wrapped in double quotes; a number is written by
   *  `show`, JavaScript's number-to-text conversion. */
  function RenderCell(c: Cell, show: real -> string): string
  {
    match c
    case Text(s) => "\"" + s + "\""
    case Num(x) => show(x)
  }

  /** The template literal of one product: its cells joined by commas. */
  function Row(p: Product, show: real -> string): string
  {
    Join(MapSeq(Cells(p), (c: Cell) => RenderCell(c, show)), ",")
  }

  /** The header line, one column name per cell of a product line. */
  const Header: string := "SKU,Nombre,Precio," + "Precio con Descuento," + "Moneda,Cantidad en Stock,"
    + "En Stock,Estado de Inventario," + "Rastrea Inventario,Visible," + "Tipo de Producto,ID Producto,"
    + "\U{DA}ltima Actualizaci\U{F3}n"

  /** The sku cell reads back as the chosen sku: doubling the quotes loses
   *  nothing. */
  lemma SkuCellRoundTrip(p: Product, show: real -> string)
    ensures Csv.Unescape(RenderCell(Cells(p)[0], show)) == SkuOf(p)
  {
    QuotedRoundTrip(SkuOf(p));
  }

  /** The name cell reads back as the product's name (or the empty text). */
  lemma NameCellRoundTrip(p: Product, show: real -> string)
    ensures Csv.Unescape(RenderCell(Cells(p)[1], show)) == OrText(p.name, "")
  {
    QuotedRoundTrip(OrText(p.name, ""));
  }

  lemma QuotedRoundTrip(s: string)
    ensures Csv.Unescape("\"" + DoubleQuotes(s) + "\"") == s
  {
    var e := "\"" + DoubleQuotes(s) + "\"";
    assert e[1..|e| - 1] == DoubleQuotes(s);
    Csv.UndoubleReplace(s);
  }

  /** `rows.push(header)` and one `rows.push(line)` per product, in order;
   *  `row` builds the line of one product. */
  method BuildRows(products: seq<Product>, row: Product -> string) returns (rows: seq<string>)
    ensures |rows| == |products| + 1 && rows[0] == Header
    ensures forall i :: 0 <= i < |products| ==> rows[i + 1] == row(products[i])
  {
    rows := [Header];
    var i := 0;
    while i < |products|
      invariant 0 <= i <= |products|
      invariant |rows| == i + 1 && rows[0] == Header
      invariant forall k :: 0 <= k < i ==> rows[k + 1] == row(products[k])
    {
      rows := rows + [row(products[i])];
      i := i + 1;
    }
  }

  /** No text of the line, and no number text, holds a newline. */
  predicate SingleLine(p: Product, show: real -> string)
  {
    forall c :: c in Cells(p) ==> '\n' !in RenderCell(c, show)
  }

  lemma RowSingleLine(p: Product, show: real -> string)
    requires SingleLine(p, show)
    ensures '\n' !in Row(p, show)
  {
    var cells := MapSeq(Cells(p), (c: Cell) => RenderCell(c, show));
    forall k | 0 <= k < |cells| ensures '\n' !in cells[k] {
      assert Cells(p)[k] in Cells(p);
    }
    JoinAvoids(cells, ",", '\n');
  }

  /** `rows.join('\n')` splits back into the rows when no product line holds
   *  a newline of its own. */
  lemma {:induction false} ContentLines(products: seq<Product>, rows: seq<string>)
    requires |rows| == |products| + 1 && rows[0] == Header
    requires forall i :: 1 <= i < |rows| ==> '\n' !in rows[i]
    ensures Split(Join(rows, "\n"), '\n') == rows
  {
    HeaderSingleLine();
    SplitJoin(rows, '\n');
  }

  lemma HeaderSingleLine()
    ensures '\n' !in Header
  {
    HeaderColumnsA();
    HeaderColumnsB();
    HeaderColumnsC();
    HeaderColumnsD();
  }

  lemma HeaderColumnsA()
    ensures '\n' !in "SKU,Nombre,Precio," + "Precio con Descuento,"
  {
    assert '\n' !in "SKU,Nombre,Precio,";
    assert '\n' !in "Precio con Descuento,";
  }

  lemma HeaderColumnsB()
    ensures '\n' !in "Moneda,Cantidad en Stock," + "En Stock,Estado de Inventario,"
  {
    assert '\n' !in "Moneda,Cantidad en Stock,";
    assert '\n' !in "En Stock,Estado de Inventario,";
  }

  lemma HeaderColumnsC()
    ensures '\n' !in "Rastrea Inventario,Visible," + "Tipo de Producto,ID Producto,"
  {
    assert '\n' !in "Rastrea Inventario,Visible,";
    assert '\n' !in "Tipo de Producto,ID Producto,";
  }

  lemma HeaderColumnsD()
    ensures '\n' !in "\U{DA}ltima Actualizaci\U{F3}n"
  {
  }
}
