// The ERP → Odoo inventory sync, first half: unit-of-measure resolution and
// the normalisation of the ERP article and stock rows into the article map,
// the three-level category tree and the branch-code table.
module InventorySync {
  import opened Wrappers
  import opened Text
  import opened Seqs
  import opened OrderedMap

  // ---------------------------------------------------------------- units

  /** ERP unit names → Odoo `uom.uom` ids. */
  const UomNameMap: map<string, int> := map[
    "PIEZA" := 1, "SIN DEFINIR" := 1, "BOLSA" := 1, "BULTO/ATADO" := 1,
    "CAJA" := 1, "CUBETA" := 1, "HOJA" := 1, "JUEGO" := 1,
    "PAQUETE" := 1, "ROLLO" := 1, "SACO" := 1, "TIBOR" := 1,
    "CARRETE" := 1, "PACA" := 1,
    "GALON" := 24, "KILO" := 12, "LITRO" := 10, "METRO CUADRADO" := 9,
    "METRO CUBICO" := 11, "METRO LINEAL" := 5, "PIE CUADRADO" := 21, "PIE LINEAL" := 18]

  /** The Odoo unit for an ERP unit name; unknown names fall back to Units (1). */
  function ResolveUomId(uomName: string): (id: int)
    ensures id in {1, 5, 9, 10, 11, 12, 18, 21, 24}
    ensures Trim(ToUpper(uomName)) !in UomNameMap ==> id == 1
  {
    var key := Trim(ToUpper(uomName));
    UomIdsKnown(key);
    if key in UomNameMap then UomNameMap[key] else 1
  }

  /** Every mapped unit is one of the nine Odoo units. */
  lemma UomIdsKnown(key: string)
    ensures key in UomNameMap ==> UomNameMap[key] in {1, 5, 9, 10, 11, 12, 18, 21, 24}
  {
  }

  lemma UpperIdempotent(s: string)
    ensures ToUpper(ToUpper(s)) == ToUpper(s)
  {
  }

  /** The lookup ignores letter case and surrounding blanks. */
  lemma ResolveUomCanonical(uomName: string)
    ensures ResolveUomId(Trim(ToUpper(uomName))) == ResolveUomId(uomName)
  {
    CanonicalKey(uomName);
  }

  /** Upper-casing and trimming a second time changes nothing. */
  lemma CanonicalKey(s: string)
    ensures Trim(ToUpper(Trim(ToUpper(s)))) == Trim(ToUpper(s))
  {
    var key := Trim(ToUpper(s));
    var u := ToUpper(s);
    forall i | 0 <= i < |key| ensures UpperChar(key[i]) == key[i] {
      assert key[i] in u;
    }
    assert ToUpper(key) == key;
    TrimOfTrimmed(key);
  }

  // ---------------------------------------------------------------- rows

  /** An active ERP article joined with its department, category,
   *  subcategory and unit; a NULL text column reads as "". */
  datatype ArticleRow = ArticleRow(
    id: string, name: string, codigoInterno: string,
    deptoId: int, deptoName: string, categoriaId: int, categoriaName: string,
    subCategoriaId: int, subCategoriaName: string, uomName: string,
    price1: real, cost: real, updatedAt: string)

  /** Stock of one article in one branch. */
  datatype StockRow = StockRow(articleId: string, branchCode: string, branchName: string, qty: real)

  datatype BranchStock = BranchStock(qty: real, branchName: string)

  datatype Article = Article(
    sku: string, barcode: string, name: string,
    deptoKey: string, categoriaKey: string, subCategoriaKey: string,
    uomName: string, listPrice: real, standardPrice: real, updatedAt: string,
    stockByBranch: OMap<string, BranchStock>)

  datatype CategoryNode = CategoryNode(key: string, name: string, parentKey: Option<string>)

  /** `s || d` on a text column. */
  function OrDefault(s: string, d: string): (r: string)
    ensures r != "" || d == ""
  {
    if s == "" then d else s
  }

  function DeptoKey(a: ArticleRow): string
  {
    "D:" + IntToString(a.deptoId)
  }

  function CategoriaKey(a: ArticleRow): string
  {
    "C:" + IntToString(a.deptoId) + ":" + IntToString(a.categoriaId)
  }

  function SubCategoriaKey(a: ArticleRow): string
  {
    "S:" + IntToString(a.deptoId) + ":" + IntToString(a.categoriaId) + ":" + IntToString(a.subCategoriaId)
  }

  /** The internal code when it is set and differs from the SKU, otherwise the SKU. */
  function Barcode(sku: string, codigoInterno: string): (r: string)
    ensures r == sku || r == Trim(codigoInterno)
    ensures r != sku <==> Trim(codigoInterno) != "" && Trim(codigoInterno) != sku
    ensures sku != "" ==> r != ""
  {
    var ci := Trim(codigoInterno);
    if ci != "" && ci != sku then ci else sku
  }

  /** A stock row's entry in its article's per-branch table: rows without a
   *  branch code are skipped. */
  function BranchEntry(r: StockRow): Option<(string, BranchStock)>
  {
    var code := Trim(r.branchCode);
    if code == "" then None else Some((code, BranchStock(r.qty, Trim(r.branchName))))
  }

  /** Stock per branch code; a later row for the same branch overwrites. */
  function StockByBranch(rows: seq<StockRow>): OMap<string, BranchStock>
  {
    PutCollected(rows, BranchEntry)
  }

  function IsFor(sku: string): StockRow -> bool
  {
    (r: StockRow) => Trim(r.articleId) == sku
  }

  /** `stockIndex.get(sku) || []`: the stock rows of one article, in order. */
  function RowsFor(stockRows: seq<StockRow>, sku: string): seq<StockRow>
  {
    Filter(stockRows, IsFor(sku))
  }

  function NormalizeArticle(a: ArticleRow, stockRows: seq<StockRow>): (r: Article)
  {
    var sku := Trim(a.id);
    Article(sku, Barcode(sku, a.codigoInterno), Trim(a.name),
      DeptoKey(a), CategoriaKey(a), SubCategoriaKey(a),
      Trim(OrDefault(a.uomName, "PIEZA")), a.price1, a.cost, a.updatedAt,
      StockByBranch(RowsFor(stockRows, sku)))
  }

  /** Articles with a blank SKU are skipped. */
  function ArticleEntry(a: ArticleRow, stockRows: seq<StockRow>): Option<(string, Article)>
  {
    if Trim(a.id) == "" then None else Some((Trim(a.id), NormalizeArticle(a, stockRows)))
  }

  function ArticleEntryOf(stockRows: seq<StockRow>): ArticleRow -> Option<(string, Article)>
  {
    (a: ArticleRow) => ArticleEntry(a, stockRows)
  }

  /** SKU → normalised article; a repeated SKU keeps its last row. */
  function ArticleMap(articles: seq<ArticleRow>, stockRows: seq<StockRow>): OMap<string, Article>
  {
    PutCollected(articles, ArticleEntryOf(stockRows))
  }

  function DeptoNode(a: ArticleRow): CategoryNode
  {
    CategoryNode(DeptoKey(a), Trim(OrDefault(a.deptoName, "Sin Definir")), None)
  }

  function CategoriaNode(a: ArticleRow): CategoryNode
  {
    CategoryNode(CategoriaKey(a), Trim(OrDefault(a.categoriaName, "Sin Definir")), Some(DeptoKey(a)))
  }

  function SubCategoriaNode(a: ArticleRow): CategoryNode
  {
    CategoryNode(SubCategoriaKey(a), Trim(OrDefault(a.subCategoriaName, "Sin Definir")), Some(CategoriaKey(a)))
  }

  /** The department, category and subcategory an article proposes, in that order. */
  function CategoryNodes(a: ArticleRow): (r: seq<(string, CategoryNode)>)
  {
    if Trim(a.id) == "" then []
    else [(DeptoKey(a), DeptoNode(a)), (CategoriaKey(a), CategoriaNode(a)), (SubCategoriaKey(a), SubCategoriaNode(a))]
  }

  /** Category key → node; the first article to name a key decides its node. */
  function CategoryTree(articles: seq<ArticleRow>): OMap<string, CategoryNode>
  {
    PutNewEach(Empty(), articles, CategoryNodes)
  }

  /** A stock row's branch-code entry: rows with a blank article id or
   *  branch code are skipped. */
  function BranchCodeEntry(r: StockRow): Option<(string, string)>
  {
    if Trim(r.articleId) == "" || Trim(r.branchCode) == "" then None
    else Some((Trim(r.branchCode), Trim(r.branchName)))
  }

  /** Branch code → branch name; the last row for a code names it. */
  function BranchCodes(stockRows: seq<StockRow>): OMap<string, string>
  {
    PutCollected(stockRows, BranchCodeEntry)
  }

  // ---------------------------------------------------------------- normalizeData

  /** `stockIndex.get(k) || []`. */
  function RowsAt(idx: map<string, seq<StockRow>>, k: string): seq<StockRow>
  {
    if k in idx then idx[k] else []
  }

  /** The stock index holds, for every non-blank article id, its rows in order. */
  ghost predicate IndexesRows(idx: map<string, seq<StockRow>>, rows: seq<StockRow>)
  {
    forall k :: k != "" ==> RowsAt(idx, k) == RowsFor(rows, k)
  }

  lemma RowsForSnoc(rows: seq<StockRow>, i: nat, k: string)
    requires i < |rows|
    ensures RowsFor(rows[..i + 1], k) == RowsFor(rows[..i], k) + (if Trim(rows[i].articleId) == k then [rows[i]] else [])
  {
    assert rows[..i + 1][..i] == rows[..i];
  }

  /** The per-branch table of one article's stock rows. */
  method IndexBranches(rows: seq<StockRow>) returns (r: OMap<string, BranchStock>)
    ensures r == StockByBranch(rows)
  {
    r := Empty();
    var i := 0;
    while i < |rows|
      invariant 0 <= i <= |rows|
      invariant r == PutCollected(rows[..i], BranchEntry)
    {
      PutCollectedSnoc(rows, BranchEntry, i);
      var code := Trim(rows[i].branchCode);
      if code != "" {
        r := Put(r, code, BranchStock(rows[i].qty, Trim(rows[i].branchName)));
      }
      i := i + 1;
    }
    assert rows[..i] == rows;
  }

  method NormalizeRow(a: ArticleRow, stockIndex: map<string, seq<StockRow>>, ghost stockRows: seq<StockRow>)
    returns (r: Article)
    requires IndexesRows(stockIndex, stockRows) && Trim(a.id) != ""
    ensures r == NormalizeArticle(a, stockRows)
  {
    var sku := Trim(a.id);
    var stock := IndexBranches(RowsAt(stockIndex, sku));
    r := Article(sku, Barcode(sku, a.codigoInterno), Trim(a.name),
      DeptoKey(a), CategoriaKey(a), SubCategoriaKey(a),
      Trim(OrDefault(a.uomName, "PIEZA")), a.price1, a.cost, a.updatedAt, stock);
  }

  /** The three `if (!categoryTree.has(key)) categoryTree.set(...)` steps. */
  method AddCategories(tree: OMap<string, CategoryNode>, a: ArticleRow) returns (r: OMap<string, CategoryNode>)
    requires Valid(tree) && Trim(a.id) != ""
    ensures r == PutNewAll(tree, CategoryNodes(a))
  {
    ThreeSteps(tree, a);
    r := PutNew(tree, DeptoKey(a), DeptoNode(a));
    r := PutNew(r, CategoriaKey(a), CategoriaNode(a));
    r := PutNew(r, SubCategoriaKey(a), SubCategoriaNode(a));
  }

  /** `stockIndex.get(key)!.push(row)` for a row with a non-blank article id. */
  function IndexRow(idx: map<string, seq<StockRow>>, row: StockRow): map<string, seq<StockRow>>
  {
    var key := Trim(row.articleId);
    if key == "" then idx else idx[key := RowsAt(idx, key) + [row]]
  }

  lemma IndexStep(idx: map<string, seq<StockRow>>, rows: seq<StockRow>, i: nat)
    requires i < |rows| && IndexesRows(idx, rows[..i])
    ensures IndexesRows(IndexRow(idx, rows[i]), rows[..i + 1])
  {
    forall k | k != "" ensures RowsAt(IndexRow(idx, rows[i]), k) == RowsFor(rows[..i + 1], k) {
      RowsForSnoc(rows, i, k);
    }
  }

  /** The first loop of `normalizeData`: stock rows indexed by article id,
   *  and the branch-code table. */
  method IndexStock(stockRows: seq<StockRow>)
    returns (stockIndex: map<string, seq<StockRow>>, branchCodes: OMap<string, string>)
    ensures IndexesRows(stockIndex, stockRows)
    ensures branchCodes == BranchCodes(stockRows)
  {
    stockIndex := map[];
    branchCodes := Empty();
    var i := 0;
    while i < |stockRows|
      invariant 0 <= i <= |stockRows|
      invariant IndexesRows(stockIndex, stockRows[..i])
      invariant branchCodes == PutCollected(stockRows[..i], BranchCodeEntry)
    {
      var row := stockRows[i];
      IndexStep(stockIndex, stockRows, i);
      PutCollectedSnoc(stockRows, BranchCodeEntry, i);
      var key := Trim(row.articleId);
      if key != "" {
        stockIndex := stockIndex[key := RowsAt(stockIndex, key) + [row]];
      }
      var entry := BranchCodeEntry(row);
      if entry.Some? {
        branchCodes := Put(branchCodes, entry.value.0, entry.value.1);
      }
      i := i + 1;
    }
    assert stockRows[..i] == stockRows;
  }
  lemma TreeStep(articles: seq<ArticleRow>, j: nat)
    requires j < |articles|
    ensures CategoryTree(articles[..j + 1]) == PutNewAll(CategoryTree(articles[..j]), CategoryNodes(articles[j]))
  {
    assert articles[..j + 1][..j] == articles[..j];
  }

  /** `normalizeData`: index the stock rows by article and collect the branch
   *  codes, then normalise every article and grow the category tree. */
  method NormalizeData(articles: seq<ArticleRow>, stockRows: seq<StockRow>)
    returns (articleMap: OMap<string, Article>, categoryTree: OMap<string, CategoryNode>,
             branchCodes: OMap<string, string>)
    ensures articleMap == ArticleMap(articles, stockRows)
    ensures categoryTree == CategoryTree(articles)
    ensures branchCodes == BranchCodes(stockRows)
  {
    var stockIndex;
    stockIndex, branchCodes := IndexStock(stockRows);
    articleMap := Empty();
    categoryTree := Empty();
    var j := 0;
    while j < |articles|
      invariant 0 <= j <= |articles|
      invariant articleMap == PutCollected(articles[..j], ArticleEntryOf(stockRows))
      invariant categoryTree == CategoryTree(articles[..j])
    {
      var a := articles[j];
      PutCollectedSnoc(articles, ArticleEntryOf(stockRows), j);
      TreeStep(articles, j);
      var sku := Trim(a.id);
      if sku != "" {
        categoryTree := AddCategories(categoryTree, a);
        var article := NormalizeRow(a, stockIndex, stockRows);
        articleMap := Put(articleMap, sku, article);
      } else {
        assert CategoryNodes(a) == [];
      }
      j := j + 1;
    }
    assert articles[..j] == articles;
  }

  // ---------------------------------------------------------------- properties

  lemma ArticleKey(stockRows: seq<StockRow>, a: ArticleRow, sku: string)
    ensures HasKey(ArticleEntryOf(stockRows), a, sku) <==> sku != "" && Trim(a.id) == sku
    ensures HasKey(ArticleEntryOf(stockRows), a, sku) ==>
      ArticleEntryOf(stockRows)(a) == Some((sku, NormalizeArticle(a, stockRows)))
  {
  }

  /** The article map holds exactly the non-blank trimmed SKUs. */
  lemma {:induction false} ArticleMapKeys(articles: seq<ArticleRow>, stockRows: seq<StockRow>, sku: string)
    ensures sku in ArticleMap(articles, stockRows).m <==>
      sku != "" && exists i :: 0 <= i < |articles| && Trim(articles[i].id) == sku
  {
    var f := ArticleEntryOf(stockRows);
    PutCollectedKeys(articles, f, sku);
    forall i | 0 <= i < |articles| ensures HasKey(f, articles[i], sku) <==> sku != "" && Trim(articles[i].id) == sku {
      ArticleKey(stockRows, articles[i], sku);
    }
  }

  /** Each SKU maps, under its own SKU, to the normalisation of the last row
   *  carrying it. */
  lemma {:induction false} ArticleMapLastRowWins(articles: seq<ArticleRow>, stockRows: seq<StockRow>, sku: string)
    requires sku in ArticleMap(articles, stockRows).m
    ensures ArticleMap(articles, stockRows).m[sku].sku == sku
    ensures exists i :: (0 <= i < |articles| && Trim(articles[i].id) == sku
      && ArticleMap(articles, stockRows).m[sku] == NormalizeArticle(articles[i], stockRows)
      && forall j :: i < j < |articles| ==> Trim(articles[j].id) != sku)
  {
    var f := ArticleEntryOf(stockRows);
    var am := ArticleMap(articles, stockRows);
    PutCollectedLastWins(articles, f, sku);
    var i :| 0 <= i < |articles| && f(articles[i]) == Some((sku, am.m[sku]))
      && forall j :: i < j < |articles| ==> !HasKey(f, articles[j], sku);
    ArticleKey(stockRows, articles[i], sku);
    assert Trim(articles[i].id) == sku && am.m[sku] == NormalizeArticle(articles[i], stockRows);
    forall j | i < j < |articles| ensures Trim(articles[j].id) != sku {
      ArticleKey(stockRows, articles[j], sku);
    }
  }

  lemma BranchKey(r: StockRow, code: string)
    ensures HasKey(BranchEntry, r, code) <==> code != "" && Trim(r.branchCode) == code
    ensures HasKey(BranchEntry, r, code) ==> BranchEntry(r) == Some((code, BranchStock(r.qty, Trim(r.branchName))))
  {
  }

  /** An article's branch table holds exactly the non-blank trimmed codes of
   *  its rows, each with the quantity and name of the last row for it. */
  lemma StockByBranchKeys(rows: seq<StockRow>, code: string)
    ensures code in StockByBranch(rows).m <==>
      code != "" && exists i :: 0 <= i < |rows| && Trim(rows[i].branchCode) == code
  {
    PutCollectedKeys(rows, BranchEntry, code);
    forall i | 0 <= i < |rows|
      ensures HasKey(BranchEntry, rows[i], code) <==> code != "" && Trim(rows[i].branchCode) == code
    {
      BranchKey(rows[i], code);
    }
  }

  lemma StockByBranchLastRowWins(rows: seq<StockRow>, code: string)
    requires code in StockByBranch(rows).m
    ensures exists i :: (0 <= i < |rows| && Trim(rows[i].branchCode) == code
      && StockByBranch(rows).m[code] == BranchStock(rows[i].qty, Trim(rows[i].branchName))
      && forall j :: i < j < |rows| ==> Trim(rows[j].branchCode) != code)
  {
    var t := StockByBranch(rows);
    PutCollectedLastWins(rows, BranchEntry, code);
    var i :| 0 <= i < |rows| && BranchEntry(rows[i]) == Some((code, t.m[code]))
      && forall j :: i < j < |rows| ==> !HasKey(BranchEntry, rows[j], code);
    BranchKey(rows[i], code);
    assert Trim(rows[i].branchCode) == code && t.m[code] == BranchStock(rows[i].qty, Trim(rows[i].branchName));
    forall j | i < j < |rows| ensures Trim(rows[j].branchCode) != code {
      BranchKey(rows[j], code);
    }
  }

  /** The branch codes are the non-blank codes of rows that name an article. */
  lemma BranchCodesKeys(stockRows: seq<StockRow>, code: string)
    ensures code in BranchCodes(stockRows).m <==> code != "" && exists i :: (0 <= i < |stockRows|
      && Trim(stockRows[i].branchCode) == code && Trim(stockRows[i].articleId) != "")
  {
    PutCollectedKeys(stockRows, BranchCodeEntry, code);
    if code in BranchCodes(stockRows).m {
      var i :| 0 <= i < |stockRows| && HasKey(BranchCodeEntry, stockRows[i], code);
      BranchCodeKey(stockRows[i], code);
    }
    if code != "" && exists i :: (0 <= i < |stockRows|
      && Trim(stockRows[i].branchCode) == code && Trim(stockRows[i].articleId) != "") {
      var i :| 0 <= i < |stockRows| && Trim(stockRows[i].branchCode) == code && Trim(stockRows[i].articleId) != "";
      BranchCodeKey(stockRows[i], code);
    }
  }

  lemma BranchCodeKey(r: StockRow, code: string)
    ensures HasKey(BranchCodeEntry, r, code) <==> code != "" && Trim(r.branchCode) == code && Trim(r.articleId) != ""
  {
  }

  // ---------------------------------------------------------------- category tree

  /** A node's place in the three-level tree: departments have no parent,
   *  categories hang under a department, subcategories under a category,
   *  and the parent is in the tree. */
  predicate NodeShape(n: CategoryNode, keys: set<string>)
  {
    (StartsWith(n.key, "D:") && n.parentKey == None)
    || (StartsWith(n.key, "C:") && n.parentKey.Some? && StartsWith(n.parentKey.value, "D:") && n.parentKey.value in keys)
    || (StartsWith(n.key, "S:") && n.parentKey.Some? && StartsWith(n.parentKey.value, "C:") && n.parentKey.value in keys)
  }

  ghost predicate WellFormedTree(t: OMap<string, CategoryNode>)
  {
    Valid(t) && forall k :: k in t.m ==> t.m[k].key == k && NodeShape(t.m[k], t.m.Keys)
  }

  lemma PrefixedKey(tag: string, rest: string)
    requires |tag| == 2
    ensures StartsWith(tag + rest, tag)
    ensures forall other :: |other| == 2 && other[0] != tag[0] ==> !StartsWith(tag + rest, other)
  {
    assert (tag + rest)[..2] == tag;
  }

  /** Adding one node whose shape holds once it is in keeps the tree well formed. */
  lemma PutNewKeepsShape(t: OMap<string, CategoryNode>, n: CategoryNode)
    requires WellFormedTree(t) && NodeShape(n, t.m.Keys + {n.key})
    ensures WellFormedTree(PutNew(t, n.key, n))
  {
  }

  lemma ProposedShapes(a: ArticleRow, keys: set<string>)
    ensures NodeShape(DeptoNode(a), keys)
    ensures DeptoKey(a) in keys ==> NodeShape(CategoriaNode(a), keys)
    ensures CategoriaKey(a) in keys ==> NodeShape(SubCategoriaNode(a), keys)
  {
    KeyPrefixes(a);
  }

  /** Department, category and subcategory keys carry their tags. */
  lemma KeyPrefixes(a: ArticleRow)
    ensures StartsWith(DeptoKey(a), "D:") && StartsWith(CategoriaKey(a), "C:") && StartsWith(SubCategoriaKey(a), "S:")
  {
    var d, c, sub := IntToString(a.deptoId), IntToString(a.categoriaId), IntToString(a.subCategoriaId);
    StartsWithExtended("D:", d);
    StartsWithExtended("C:", d);
    StartsWithExtended("C:" + d, ":");
    StartsWithExtended("C:" + d + ":", c);
    StartsWithExtended("S:", d);
    StartsWithExtended("S:" + d, ":");
    StartsWithExtended("S:" + d + ":", c);
    StartsWithExtended("S:" + d + ":" + c, ":");
    StartsWithExtended("S:" + d + ":" + c + ":", sub);
  }

  /** A tag stays a prefix when text is appended. */
  lemma StartsWithExtended(s: string, t: string)
    ensures |s| >= 2 ==> (s + t)[..2] == s[..2]
  {
  }

  /** The nodes an article proposes keep the tree well formed. */
  lemma AddArticleKeepsShape(t: OMap<string, CategoryNode>, a: ArticleRow)
    requires WellFormedTree(t)
    ensures WellFormedTree(PutNewAll(t, CategoryNodes(a)))
  {
    if Trim(a.id) != "" {
      var n0, n1, n2 := (DeptoKey(a), DeptoNode(a)), (CategoriaKey(a), CategoriaNode(a)), (SubCategoriaKey(a), SubCategoriaNode(a));
      ThreeSteps(t, a);
      var t1 := PutNew(t, n0.0, n0.1);
      ProposedShapes(a, t.m.Keys + {n0.0});
      PutNewKeepsShape(t, n0.1);
      var t2 := PutNew(t1, n1.0, n1.1);
      ProposedShapes(a, t1.m.Keys + {n1.0});
      PutNewKeepsShape(t1, n1.1);
      ProposedShapes(a, t2.m.Keys + {n2.0});
      PutNewKeepsShape(t2, n2.1);
    }
  }

  /** The tree built from the articles is well formed. */
  lemma {:induction false} CategoryTreeWellFormed(articles: seq<ArticleRow>)
    ensures WellFormedTree(CategoryTree(articles))
    decreases |articles|
  {
    if articles != [] {
      var j := |articles| - 1;
      CategoryTreeWellFormed(articles[..j]);
      TreeStep(articles, j);
      AddArticleKeepsShape(CategoryTree(articles[..j]), articles[j]);
      assert articles[..j + 1] == articles;
    }
  }

  /** Whether an article with a SKU names category key `k`. */
  predicate Proposes(a: ArticleRow, k: string)
  {
    Trim(a.id) != "" && (k == DeptoKey(a) || k == CategoriaKey(a) || k == SubCategoriaKey(a))
  }

  /** The node an article proposes for one of its keys; the department is
   *  set first, then the category, then the subcategory. */
  function ProposedNode(a: ArticleRow, k: string): CategoryNode
  {
    if k == DeptoKey(a) then DeptoNode(a) else if k == CategoriaKey(a) then CategoriaNode(a) else SubCategoriaNode(a)
  }

  /** An article's three `if (!has) set` steps, in order. */
  lemma ThreeSteps(t: OMap<string, CategoryNode>, a: ArticleRow)
    requires Valid(t) && Trim(a.id) != ""
    ensures PutNewAll(t, CategoryNodes(a)) ==
      PutNew(PutNew(PutNew(t, DeptoKey(a), DeptoNode(a)), CategoriaKey(a), CategoriaNode(a)), SubCategoriaKey(a), SubCategoriaNode(a))
  {
    PutNewAllThree(t, DeptoKey(a), DeptoNode(a), CategoriaKey(a), CategoriaNode(a), SubCategoriaKey(a), SubCategoriaNode(a));
  }

  /** One article's steps add its absent keys and leave present ones alone. */
  lemma AddArticleEffect(t: OMap<string, CategoryNode>, a: ArticleRow, k: string)
    requires Valid(t)
    ensures k in PutNewAll(t, CategoryNodes(a)).m <==> k in t.m || Proposes(a, k)
    ensures k in t.m ==> PutNewAll(t, CategoryNodes(a)).m[k] == t.m[k]
    ensures k !in t.m && Proposes(a, k) ==> PutNewAll(t, CategoryNodes(a)).m[k] == ProposedNode(a, k)
  {
    if Trim(a.id) != "" {
      PutNewThree(t, DeptoKey(a), DeptoNode(a), CategoriaKey(a), CategoriaNode(a), SubCategoriaKey(a), SubCategoriaNode(a), k);
    }
  }

  /** An article's own steps set exactly the keys it proposes, to its nodes. */
  lemma OffersProposed(a: ArticleRow, k: string)
    ensures Offers(CategoryNodes, a, k) <==> Proposes(a, k)
    ensures Proposes(a, k) ==> PutNewAll(Empty(), CategoryNodes(a)).m[k] == ProposedNode(a, k)
  {
    AddArticleEffect(Empty(), a, k);
  }

  /** The tree holds exactly the keys some article names. */
  lemma CategoryTreeKeys(articles: seq<ArticleRow>, k: string)
    ensures k in CategoryTree(articles).m <==> exists i :: 0 <= i < |articles| && Proposes(articles[i], k)
  {
    PutNewEachKeys(Empty(), articles, CategoryNodes, k);
    forall i | 0 <= i < |articles|
      ensures Offers(CategoryNodes, articles[i], k) <==> Proposes(articles[i], k)
    {
      OffersProposed(articles[i], k);
    }
  }

  /** A key holds the node proposed by the first article naming it. */
  lemma CategoryTreeFirstSeen(articles: seq<ArticleRow>, k: string, i: nat)
    requires i < |articles| && Proposes(articles[i], k)
    requires forall j :: 0 <= j < i ==> !Proposes(articles[j], k)
    ensures k in CategoryTree(articles).m && CategoryTree(articles).m[k] == ProposedNode(articles[i], k)
  {
    forall j | 0 <= j < i ensures !Offers(CategoryNodes, articles[j], k) {
      OffersProposed(articles[j], k);
    }
    OffersProposed(articles[i], k);
    PutNewEachFirstValue(Empty(), articles, CategoryNodes, k, i);
  }

  /** Every article with a SKU has its department, category and subcategory
   *  in the tree. */
  lemma CategoryTreeCovers(articles: seq<ArticleRow>, i: nat)
    requires i < |articles| && Trim(articles[i].id) != ""
    ensures DeptoKey(articles[i]) in CategoryTree(articles).m
    ensures CategoriaKey(articles[i]) in CategoryTree(articles).m
    ensures SubCategoriaKey(articles[i]) in CategoryTree(articles).m
  {
    CategoryTreeKeys(articles, DeptoKey(articles[i]));
    CategoryTreeKeys(articles, CategoriaKey(articles[i]));
    CategoryTreeKeys(articles, SubCategoriaKey(articles[i]));
  }
}
