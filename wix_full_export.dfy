// `generateCSV` of the full-export script: the header line, one line per
// product in order, joined by newlines. Writing the file and the console
// summary are not part of the model; the text handed to the file is the
// result.
module WixFullExport {
  import opened Text
  import opened WixCatalog

  /** The CSV text of `products`; `show` is JavaScript's number-to-text
   *  conversion used inside the template literal. */
  method GenerateCsv(products: seq<Product>, show: real -> string) returns (rows: seq<string>, content: string)
    ensures |rows| == |products| + 1 && rows[0] == Header
    ensures forall i :: 0 <= i < |products| ==> rows[i + 1] == Row(products[i], show)
    ensures content == Join(rows, "\n")
    ensures (forall i :: 0 <= i < |products| ==> SingleLine(products[i], show)) ==> Split(content, '\n') == rows
  {
    rows := BuildRows(products, (p: Product) => Row(p, show));
    content := Join(rows, "\n");
    if forall i :: 0 <= i < |products| ==> SingleLine(products[i], show) {
      forall i | 1 <= i < |rows| ensures '\n' !in rows[i] {
        RowSingleLine(products[i - 1], show);
      }
      ContentLines(products, rows);
    }
  }
}
