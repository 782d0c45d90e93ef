// The ERP → Odoo inventory sync, second half: the diff between the article
// map and the Odoo products (what to create, update and archive), the
// change-set grouping of the updates and the batched writes.
module InventoryDiff {
  import opened Wrappers
  import opened Text
  import opened Seqs
  import opened OrderedMap
  import opened Batches
  import opened InventorySync
  import CategorySync

  // ---------------------------------------------------------------- Odoo side

  /** A `product.template` as read from Odoo; a field Odoo reports as `false`
   *  reads as "" (texts), 0 (prices) or `None` (the category). */
  datatype OdooProduct = OdooProduct(
    id: int, defaultCode: string, name: string, listPrice: real, standardPrice: real,
    categId: Option<int>, barcode: string, active: bool)

  /** Products without an internal reference are not matched to any article. */
  function ProductEntry(p: OdooProduct): Option<(string, OdooProduct)>
  {
    var code := Trim(p.defaultCode);
    if code == "" then None else Some((code, p))
  }

  /** Internal reference → product; a repeated reference keeps its last product. */
  function OdooByCode(products: seq<OdooProduct>): (r: OMap<string, OdooProduct>)
    ensures Valid(r)
  {
    PutCollected(products, ProductEntry)
  }

  lemma {:induction false} OdooByCodeKeys(products: seq<OdooProduct>, code: string)
    ensures code in OdooByCode(products).m <==>
      code != "" && exists i :: 0 <= i < |products| && Trim(products[i].defaultCode) == code
  {
    PutCollectedKeys(products, ProductEntry, code);
  }

  // ---------------------------------------------------------------- changes

  function Abs(x: real): (r: real)
    ensures r >= 0.0 && (r == x || r == -x)
  {
    if x < 0.0 then -x else x
  }

  /** Prices closer than a cent are considered equal. */
  predicate PriceDiffers(odoo: real, erp: real)
  {
    Abs(odoo - erp) > 0.01
  }

  /** The fields of one product to write; `None` leaves a field alone. */
  datatype Changes = Changes(
    name: Option<string>, listPrice: Option<real>, standardPrice: Option<real>,
    categId: Option<int>, barcode: Option<string>, active: Option<bool>)

  predicate NoChanges(c: Changes)
  {
    c.name.None? && c.listPrice.None? && c.standardPrice.None? && c.categId.None?
    && c.barcode.None? && c.active.None?
  }

  /** `categoryIdMap.get(subCategoriaKey)`, where a missing id reads as 0. */
  function TargetCateg(a: Article, categoryIds: map<string, int>): int
  {
    if a.subCategoriaKey in categoryIds then categoryIds[a.subCategoriaKey] else 0
  }

  function OdooCateg(p: OdooProduct): int
  {
    if p.categId.Some? then p.categId.value else 0
  }

  /** The product already agrees with the article on every field the sync owns. */
  predicate InSync(a: Article, p: OdooProduct, categoryIds: map<string, int>)
  {
    Trim(p.name) == a.name
    && !PriceDiffers(p.listPrice, a.listPrice)
    && !PriceDiffers(p.standardPrice, a.standardPrice)
    && (TargetCateg(a, categoryIds) == 0 || OdooCateg(p) == TargetCateg(a, categoryIds))
    && (a.barcode == "" || Trim(p.barcode) == a.barcode)
    && p.active
  }

  /** The fields in which an Odoo product lags behind its ERP article; an
   *  archived product is reactivated. */
  function ChangesFor(a: Article, p: OdooProduct, categoryIds: map<string, int>): Changes
  {
    var target := TargetCateg(a, categoryIds);
    Changes(
      if Trim(p.name) != a.name then Some(a.name) else None,
      if PriceDiffers(p.listPrice, a.listPrice) then Some(a.listPrice) else None,
      if PriceDiffers(p.standardPrice, a.standardPrice) then Some(a.standardPrice) else None,
      if target != 0 && OdooCateg(p) != target then Some(target) else None,
      if a.barcode != "" && Trim(p.barcode) != a.barcode then Some(a.barcode) else None,
      if !p.active then Some(true) else None)
  }

  /** There is nothing to write exactly when the product is in sync, and an
   *  archived product is always reactivated. */
  lemma ChangesIffOutOfSync(a: Article, p: OdooProduct, categoryIds: map<string, int>)
    ensures NoChanges(ChangesFor(a, p, categoryIds)) <==> InSync(a, p, categoryIds)
    ensures ChangesFor(a, p, categoryIds).active == (if p.active then None else Some(true))
  {
  }

  /** What Odoo holds after `write(ids, changes)`. */
  function Apply(p: OdooProduct, c: Changes): (q: OdooProduct)
    ensures q.id == p.id && q.defaultCode == p.defaultCode
  {
    OdooProduct(p.id, p.defaultCode,
      if c.name.Some? then c.name.value else p.name,
      if c.listPrice.Some? then c.listPrice.value else p.listPrice,
      if c.standardPrice.Some? then c.standardPrice.value else p.standardPrice,
      if c.categId.Some? then Some(c.categId.value) else p.categId,
      if c.barcode.Some? then c.barcode.value else p.barcode,
      if c.active.Some? then c.active.value else p.active)
  }

  predicate Trimmed(s: string)
  {
    Trim(s) == s
  }

  /** Writing the computed changes brings the product in sync, so the next
   *  run finds nothing more to change for it. */
  lemma ChangesReachSync(a: Article, p: OdooProduct, categoryIds: map<string, int>)
    requires Trimmed(a.name) && Trimmed(a.barcode)
    ensures InSync(a, Apply(p, ChangesFor(a, p, categoryIds)), categoryIds)
  {
    TextsSettle(a, p, categoryIds);
    NumbersSettle(a, p, categoryIds);
    var q := Apply(p, ChangesFor(a, p, categoryIds));
    InSyncByFields(a, q, categoryIds);
  }

  lemma InSyncByFields(a: Article, q: OdooProduct, categoryIds: map<string, int>)
    requires Trim(q.name) == a.name && (a.barcode == "" || Trim(q.barcode) == a.barcode)
    requires !PriceDiffers(q.listPrice, a.listPrice) && !PriceDiffers(q.standardPrice, a.standardPrice)
    requires TargetCateg(a, categoryIds) == 0 || OdooCateg(q) == TargetCateg(a, categoryIds)
    requires q.active
    ensures InSync(a, q, categoryIds)
  {
  }

  lemma NumbersSettle(a: Article, p: OdooProduct, categoryIds: map<string, int>)
    ensures var q := Apply(p, ChangesFor(a, p, categoryIds));
      !PriceDiffers(q.listPrice, a.listPrice) && !PriceDiffers(q.standardPrice, a.standardPrice)
      && (TargetCateg(a, categoryIds) == 0 || OdooCateg(q) == TargetCateg(a, categoryIds))
      && q.active
  {
  }

  lemma TextsSettle(a: Article, p: OdooProduct, categoryIds: map<string, int>)
    requires Trimmed(a.name) && Trimmed(a.barcode)
    ensures var q := Apply(p, ChangesFor(a, p, categoryIds));
      Trim(q.name) == a.name && (a.barcode == "" || Trim(q.barcode) == a.barcode)
  {
    TextSettles(p.name, a.name);
    if a.barcode != "" {
      TextSettles(p.barcode, a.barcode);
    }
  }

  /** A text overwritten whenever its trimmed form differs ends up trimmed-equal. */
  lemma TextSettles(odoo: string, erp: string)
    requires Trimmed(erp)
    ensures Trim(if Trim(odoo) != erp then erp else odoo) == erp
  {
  }

  lemma TrimmedTrim(s: string)
    ensures Trimmed(Trim(s))
  {
    TrimOfTrimmed(Trim(s));
  }

  /** Normalised articles carry trimmed names and barcodes. */
  lemma NormalizedTrimmed(a: ArticleRow, stockRows: seq<StockRow>)
    ensures Trimmed(NormalizeArticle(a, stockRows).name)
    ensures Trimmed(NormalizeArticle(a, stockRows).barcode)
  {
    TrimmedTrim(a.name);
    TrimmedTrim(a.id);
    TrimmedTrim(a.codigoInterno);
  }

  // ---------------------------------------------------------------- diff

  datatype Update = Update(odooId: int, article: Article, changes: Changes)

  function CreateOf(am: OMap<string, Article>, ob: OMap<string, OdooProduct>): string -> Option<Article>
  {
    (k: string) => if k in am.m && k !in ob.m then Some(am.m[k]) else None
  }

  function UpdateOf(am: OMap<string, Article>, ob: OMap<string, OdooProduct>, categoryIds: map<string, int>)
    : string -> Option<Update>
  {
    (k: string) =>
      if k in am.m && k in ob.m && !NoChanges(ChangesFor(am.m[k], ob.m[k], categoryIds))
      then Some(Update(ob.m[k].id, am.m[k], ChangesFor(am.m[k], ob.m[k], categoryIds)))
      else None
  }

  function ArchiveOf(am: OMap<string, Article>, ob: OMap<string, OdooProduct>): string -> Option<int>
  {
    (k: string) => if k in ob.m && k !in am.m && ob.m[k].active then Some(ob.m[k].id) else None
  }

  /** Articles with no Odoo product of the same reference, in article order. */
  function ToCreate(am: OMap<string, Article>, ob: OMap<string, OdooProduct>): seq<Article>
  {
    Collect(am.keys, CreateOf(am, ob))
  }

  /** Matched products that lag behind their article, with what to write. */
  function ToUpdate(am: OMap<string, Article>, ob: OMap<string, OdooProduct>, categoryIds: map<string, int>)
    : seq<Update>
  {
    Collect(am.keys, UpdateOf(am, ob, categoryIds))
  }

  /** Active products whose reference is no longer an ERP article. */
  function ToArchive(am: OMap<string, Article>, ob: OMap<string, OdooProduct>): seq<int>
  {
    Collect(ob.keys, ArchiveOf(am, ob))
  }

  /** Every article map built by the sync files each article under its SKU. */
  ghost predicate KeyedBySku(am: OMap<string, Article>)
  {
    Valid(am) && forall k :: k in am.m ==> am.m[k].sku == k
  }

  lemma ArticleMapKeyedBySku(articles: seq<ArticleRow>, stockRows: seq<StockRow>)
    ensures KeyedBySku(ArticleMap(articles, stockRows))
  {
    forall k | k in ArticleMap(articles, stockRows).m
      ensures ArticleMap(articles, stockRows).m[k].sku == k
    {
      ArticleMapLastRowWins(articles, stockRows, k);
    }
  }

  /** An article is created exactly when Odoo has no product with its SKU. */
  lemma CreateExactly(am: OMap<string, Article>, ob: OMap<string, OdooProduct>, a: Article)
    requires KeyedBySku(am)
    ensures a in ToCreate(am, ob) <==> a.sku in am.m && am.m[a.sku] == a && a.sku !in ob.m
  {
    CollectMembership(am.keys, CreateOf(am, ob), a);
    if a.sku in am.m && am.m[a.sku] == a && a.sku !in ob.m {
      assert a.sku in Elems(am.keys);
      var i :| 0 <= i < |am.keys| && am.keys[i] == a.sku;
      assert CreateOf(am, ob)(am.keys[i]) == Some(a);
    }
  }

  /** A product is updated exactly when it matches an article it lags behind,
   *  and the update carries that article and its changes. */
  lemma UpdateExactly(am: OMap<string, Article>, ob: OMap<string, OdooProduct>,
                      categoryIds: map<string, int>, u: Update)
    requires KeyedBySku(am)
    ensures u in ToUpdate(am, ob, categoryIds) <==>
      var k := u.article.sku;
      k in am.m && k in ob.m && u.article == am.m[k] && u.odooId == ob.m[k].id
      && u.changes == ChangesFor(am.m[k], ob.m[k], categoryIds) && !NoChanges(u.changes)
  {
    var f := UpdateOf(am, ob, categoryIds);
    CollectMembership(am.keys, f, u);
    var k := u.article.sku;
    if k in am.m && k in ob.m && u.article == am.m[k] && u.odooId == ob.m[k].id
      && u.changes == ChangesFor(am.m[k], ob.m[k], categoryIds) && !NoChanges(u.changes)
    {
      assert k in Elems(am.keys);
      var i :| 0 <= i < |am.keys| && am.keys[i] == k;
      assert f(am.keys[i]) == Some(u);
    }
  }

  /** No article is both created and updated. */
  lemma CreateOrUpdate(am: OMap<string, Article>, ob: OMap<string, OdooProduct>,
                       categoryIds: map<string, int>, a: Article, u: Update)
    requires KeyedBySku(am)
    requires a in ToCreate(am, ob) && u in ToUpdate(am, ob, categoryIds)
    ensures a.sku != u.article.sku
  {
    CreateExactly(am, ob, a);
    UpdateExactly(am, ob, categoryIds, u);
  }

  /** An archived Odoo product whose SKU is still an ERP article is reactivated. */
  lemma Reactivates(am: OMap<string, Article>, ob: OMap<string, OdooProduct>,
                    categoryIds: map<string, int>, k: string)
    requires KeyedBySku(am)
    requires k in am.m && k in ob.m && !ob.m[k].active
    ensures var c := ChangesFor(am.m[k], ob.m[k], categoryIds);
      Update(ob.m[k].id, am.m[k], c) in ToUpdate(am, ob, categoryIds) && c.active == Some(true)
  {
    ChangesIffOutOfSync(am.m[k], ob.m[k], categoryIds);
    UpdateExactly(am, ob, categoryIds, Update(ob.m[k].id, am.m[k], ChangesFor(am.m[k], ob.m[k], categoryIds)));
  }

  /** A product is archived exactly when it is active and its reference is no
   *  longer an ERP article. */
  lemma ArchiveExactly(am: OMap<string, Article>, ob: OMap<string, OdooProduct>, id: int)
    requires Valid(ob)
    ensures id in ToArchive(am, ob) <==>
      exists k :: k in ob.m && k !in am.m && ob.m[k].active && ob.m[k].id == id
  {
    var f := ArchiveOf(am, ob);
    CollectMembership(ob.keys, f, id);
    if exists k :: k in ob.m && k !in am.m && ob.m[k].active && ob.m[k].id == id {
      var k :| k in ob.m && k !in am.m && ob.m[k].active && ob.m[k].id == id;
      assert k in Elems(ob.keys);
      var i :| 0 <= i < |ob.keys| && ob.keys[i] == k;
      assert f(ob.keys[i]) == Some(id);
    }
  }

  /** `computeDiff`: index the Odoo products by reference, then walk the
   *  article map and the index. */
  method ComputeDiff(am: OMap<string, Article>, products: seq<OdooProduct>, categoryIds: map<string, int>)
    returns (toCreate: seq<Article>, toUpdate: seq<Update>, toArchive: seq<int>)
    requires Valid(am)
    ensures toCreate == ToCreate(am, OdooByCode(products))
    ensures toUpdate == ToUpdate(am, OdooByCode(products), categoryIds)
    ensures toArchive == ToArchive(am, OdooByCode(products))
  {
    var ob := IndexProducts(products);
    toCreate, toUpdate := MatchArticles(am, ob, categoryIds);
    toArchive := CollectArchives(am, ob);
  }

  /** `odooByCode`. */
  method IndexProducts(products: seq<OdooProduct>) returns (ob: OMap<string, OdooProduct>)
    ensures ob == OdooByCode(products)
  {
    ob := Empty();
    for i := 0 to |products|
      invariant ob == PutCollected(products[..i], ProductEntry)
    {
      PutCollectedSnoc(products, ProductEntry, i);
      var code := Trim(products[i].defaultCode);
      if code != "" {
        ob := Put(ob, code, products[i]);
      }
    }
    assert products[..|products|] == products;
  }

  /** `for (const [sku, article] of articleMap)`: create or update. */
  method MatchArticles(am: OMap<string, Article>, ob: OMap<string, OdooProduct>, categoryIds: map<string, int>)
    returns (toCreate: seq<Article>, toUpdate: seq<Update>)
    requires Valid(am)
    ensures toCreate == ToCreate(am, ob)
    ensures toUpdate == ToUpdate(am, ob, categoryIds)
  {
    toCreate, toUpdate := [], [];
    for i := 0 to |am.keys|
      invariant toCreate == Collect(am.keys[..i], CreateOf(am, ob))
      invariant toUpdate == Collect(am.keys[..i], UpdateOf(am, ob, categoryIds))
    {
      CollectSnoc(am.keys, CreateOf(am, ob), i);
      CollectSnoc(am.keys, UpdateOf(am, ob, categoryIds), i);
      assert am.keys[i] in Elems(am.keys);
      var create, update := MatchArticle(am, ob, categoryIds, am.keys[i]);
      if create.Some? {
        toCreate := toCreate + [create.value];
      }
      if update.Some? {
        toUpdate := toUpdate + [update.value];
      }
    }
    assert am.keys[..|am.keys|] == am.keys;
  }

  /** One article of the map: created when Odoo lacks it, otherwise updated
   *  when the change set is non-empty. */
  method MatchArticle(am: OMap<string, Article>, ob: OMap<string, OdooProduct>, categoryIds: map<string, int>,
                      sku: string)
    returns (create: Option<Article>, update: Option<Update>)
    requires sku in am.m
    ensures create == CreateOf(am, ob)(sku) && update == UpdateOf(am, ob, categoryIds)(sku)
  {
    create, update := None, None;
    var article := am.m[sku];
    var odoo := Get(ob, sku);
    if odoo.None? {
      create := Some(article);
    } else {
      var changes := ChangesFor(article, odoo.value, categoryIds);
      if !NoChanges(changes) {
        update := Some(Update(odoo.value.id, article, changes));
      }
    }
  }

  /** `for (const [code, odoo] of odooByCode)`: archive what the ERP dropped. */
  method CollectArchives(am: OMap<string, Article>, ob: OMap<string, OdooProduct>) returns (toArchive: seq<int>)
    requires Valid(ob)
    ensures toArchive == ToArchive(am, ob)
  {
    toArchive := [];
    for i := 0 to |ob.keys|
      invariant toArchive == Collect(ob.keys[..i], ArchiveOf(am, ob))
    {
      CollectSnoc(ob.keys, ArchiveOf(am, ob), i);
      var code := ob.keys[i];
      assert code in Elems(ob.keys);
      if code !in am.m && ob.m[code].active {
        toArchive := toArchive + [ob.m[code].id];
      }
    }
    assert ob.keys[..|ob.keys|] == ob.keys;
  }

  // ---------------------------------------------------------------- creates

  /** The category of a new product: its subcategory, else its category,
   *  else its department, else the root, else Odoo's "All" (1). */
  function CreateCateg(a: Article, categoryIds: map<string, int>): (id: int)
    ensures id in categoryIds.Values || (id == 1 && a.subCategoriaKey !in categoryIds
      && a.categoriaKey !in categoryIds && a.deptoKey !in categoryIds && CategorySync.RootKey !in categoryIds)
    ensures a.subCategoriaKey in categoryIds ==> id == categoryIds[a.subCategoriaKey]
  {
    if a.subCategoriaKey in categoryIds then categoryIds[a.subCategoriaKey]
    else if a.categoriaKey in categoryIds then categoryIds[a.categoriaKey]
    else if a.deptoKey in categoryIds then categoryIds[a.deptoKey]
    else if CategorySync.RootKey in categoryIds then categoryIds[CategorySync.RootKey]
    else 1
  }

  /** After the category sync every article of the run is created under its
   *  own subcategory: the fallbacks are never needed. */
  lemma CreatesUseSubcategory(articles: seq<ArticleRow>, stockRows: seq<StockRow>, sku: string,
                              km: map<string, int>, root: int, create: (string, int) -> int,
                              lk0: map<(int, string), int>)
    requires CategorySync.SyncResult(CategoryTree(articles), km, root, create, lk0)
    requires sku in ArticleMap(articles, stockRows).m
    ensures var a := ArticleMap(articles, stockRows).m[sku];
      a.subCategoriaKey in km && CreateCateg(a, km) == km[a.subCategoriaKey]
  {
    ArticleMapLastRowWins(articles, stockRows, sku);
    var i :| 0 <= i < |articles| && Trim(articles[i].id) == sku
      && ArticleMap(articles, stockRows).m[sku] == NormalizeArticle(articles[i], stockRows);
    ArticleMapKeys(articles, stockRows, sku);
    CategoryTreeCovers(articles, i);
    CategoryTreeWellFormed(articles);
  }

  /** The values `create` is given for one article. */
  datatype ProductVals = ProductVals(
    name: string, defaultCode: string, barcode: Option<string>, listPrice: real,
    standardPrice: real, categId: int, uomId: int)

  function ValsOf(categoryIds: map<string, int>): Article -> ProductVals
  {
    (a: Article) => ProductVals(a.name, a.sku, if a.barcode == "" then None else Some(a.barcode),
      a.listPrice, a.standardPrice, CreateCateg(a, categoryIds), ResolveUomId(a.uomName))
  }

  /** What a batch `create` answers: one id, or an array of ids. */
  datatype CreateAnswer = IdList(ids: seq<int>) | SingleId(id: int)

  /** `Array.isArray(ids) ? ids : [ids]`. */
  function IdArr(a: CreateAnswer): (r: seq<int>)
    ensures a.SingleId? ==> r == [a.id]
    ensures a.IdList? ==> r == a.ids
  {
    match a
    case IdList(ids) => ids
    case SingleId(id) => [id]
  }

  /** Odoo answers a batch with at most one id per value sent. */
  predicate AtMostOneIdEach(create: seq<ProductVals> -> Option<CreateAnswer>, bs: seq<seq<ProductVals>>)
  {
    forall i :: 0 <= i < |bs| && create(bs[i]).Some? ==> |IdArr(create(bs[i]).value)| <= |bs[i]|
  }

  /** Odoo answers every batch it accepts with exactly one id per value sent. */
  predicate OneIdEach(create: seq<ProductVals> -> Option<CreateAnswer>, bs: seq<seq<ProductVals>>)
  {
    forall i :: 0 <= i < |bs| && create(bs[i]).Some? ==> |IdArr(create(bs[i]).value)| == |bs[i]|
  }

  /** Products created by a run of batches: an accepted batch adds the number
   *  of ids `create` answered (`None` is a refused batch), a refused batch
   *  the values created one by one. */
  function Created(bs: seq<seq<ProductVals>>, create: seq<ProductVals> -> Option<CreateAnswer>,
                   oneOk: ProductVals -> bool): nat
    decreases |bs|
  {
    if bs == [] then 0
    else
      var b := bs[|bs| - 1];
      Created(bs[..|bs| - 1], create, oneOk)
        + (if create(b).Some? then |IdArr(create(b).value)| else Count(b, oneOk))
  }

  /** No more products are counted than were sent when Odoo answers at most
   *  one id per value, and all of them when it accepts every batch with one
   *  id per value. */
  lemma {:induction false} CreatedAtMost(bs: seq<seq<ProductVals>>, create: seq<ProductVals> -> Option<CreateAnswer>,
                                         oneOk: ProductVals -> bool)
    ensures AtMostOneIdEach(create, bs) ==> Created(bs, create, oneOk) <= |Flatten(bs)|
    ensures (forall i :: 0 <= i < |bs| ==> create(bs[i]).Some?) && OneIdEach(create, bs)
            ==> Created(bs, create, oneOk) == |Flatten(bs)|
    decreases |bs|
  {
    if bs != [] {
      var init := bs[..|bs| - 1];
      assert forall i :: 0 <= i < |init| ==> init[i] == bs[i];
      CreatedAtMost(init, create, oneOk);
    }
  }

  /** The `create` calls of `applyCreates`: none in a dry run or with nothing
   *  to create, otherwise one per batch of at most 50 products. */
  function CreateBatches(toCreate: seq<Article>, categoryIds: map<string, int>, dryRun: bool)
    : seq<seq<ProductVals>>
  {
    if |toCreate| == 0 || dryRun then [] else Chunks(MapSeq(toCreate, ValsOf(categoryIds)), 50)
  }

  /** Every article to create is sent exactly once, in order, 50 at a time. */
  lemma CreateBatchesCover(toCreate: seq<Article>, categoryIds: map<string, int>)
    requires |toCreate| > 0
    ensures var bs := CreateBatches(toCreate, categoryIds, false);
      Flatten(bs) == MapSeq(toCreate, ValsOf(categoryIds))
      && forall i :: 0 <= i < |bs| ==> 0 < |bs[i]| <= 50
  {
    ChunksProperties(MapSeq(toCreate, ValsOf(categoryIds)), 50);
  }

  /** `applyCreates`, with `create`'s answers as parameters: `create(b)` is
   *  the batch call's answer (`None` when it throws), `oneOk(v)` whether the
   *  one-by-one fallback creates `v`. */
  method ApplyCreates(toCreate: seq<Article>, categoryIds: map<string, int>, dryRun: bool,
                      create: seq<ProductVals> -> Option<CreateAnswer>, oneOk: ProductVals -> bool)
    returns (batches: seq<seq<ProductVals>>, created: nat)
    ensures batches == CreateBatches(toCreate, categoryIds, dryRun)
    ensures created == Created(batches, create, oneOk)
    ensures AtMostOneIdEach(create, batches) ==> created <= |toCreate|
  {
    batches, created := [], 0;
    if |toCreate| == 0 || dryRun {
      return;
    }
    var vals := MapSeq(toCreate, ValsOf(categoryIds));
    batches := Chunk(vals, 50);
    for i := 0 to |batches|
      invariant created == Created(batches[..i], create, oneOk)
    {
      var b := batches[i];
      assert batches[..i + 1][..i] == batches[..i];
      var answer := create(b);
      if answer.Some? {
        var idArr := IdArr(answer.value);
        created := created + |idArr|;
      } else {
        var one := 0;
        for j := 0 to |b|
          invariant one == Count(b[..j], oneOk)
        {
          FilterSnoc(b, oneOk, j);
          if oneOk(b[j]) {
            one := one + 1;
          }
        }
        assert b[..|b|] == b;
        created := created + one;
      }
    }
    assert batches[..|batches|] == batches;
    CreatedAtMost(batches, create, oneOk);
    ChunksProperties(vals, 50);
  }

  // ---------------------------------------------------------------- updates

  function ChangesOf(u: Update): Changes
  {
    u.changes
  }

  /** `changeGroups.get(key).ids.push(id)`, creating the group on its first id. */
  function AddToGroup(g: OMap<Changes, seq<int>>, u: Update): (r: OMap<Changes, seq<int>>)
    requires Valid(g)
    ensures Valid(r)
  {
    Put(g, u.changes, (if u.changes in g.m then g.m[u.changes] else []) + [u.odooId])
  }

  /** The updates grouped by identical change set, groups in order of first use. */
  function Group(us: seq<Update>): (g: OMap<Changes, seq<int>>)
    ensures Valid(g)
    decreases |us|
  {
    if us == [] then Empty() else AddToGroup(Group(us[..|us| - 1]), us[|us| - 1])
  }

  function IdIf(c: Changes): Update -> Option<int>
  {
    (u: Update) => if u.changes == c then Some(u.odooId) else None
  }

  /** The ids of the updates carrying change set `c`, in update order. */
  function IdsWith(us: seq<Update>, c: Changes): seq<int>
  {
    Collect(us, IdIf(c))
  }

  /** A group exists for exactly the change sets in use. */
  lemma {:induction false} GroupKeys(us: seq<Update>, c: Changes)
    ensures c in Group(us).m <==> InUse(us, c)
    decreases |us|
  {
    if us != [] {
      GroupKeys(us[..|us| - 1], c);
      InUseSnoc(us, c);
    }
  }

  /** Some update carries change set `c`. */
  predicate InUse(us: seq<Update>, c: Changes)
  {
    exists i :: 0 <= i < |us| && us[i].changes == c
  }

  lemma InUseSnoc(us: seq<Update>, c: Changes)
    requires us != []
    ensures InUse(us, c) <==> InUse(us[..|us| - 1], c) || us[|us| - 1].changes == c
  {
    var n := |us| - 1;
    if InUse(us, c) {
      var i :| 0 <= i < |us| && us[i].changes == c;
      if i < n {
        assert us[..n][i] == us[i];
      }
    }
    if InUse(us[..n], c) {
      var i :| 0 <= i < n && us[..n][i].changes == c;
      assert us[i] == us[..n][i];
    }
  }

  /** A group holds exactly the ids of the updates that carry its change set,
   *  in update order. */
  lemma {:induction false} GroupIds(us: seq<Update>, c: Changes)
    requires c in Group(us).m
    ensures Group(us).m[c] == IdsWith(us, c)
    decreases |us|
  {
    var n := |us| - 1;
    CollectSnoc(us, IdIf(c), n);
    assert us[..n + 1] == us;
    if c in Group(us[..n]).m {
      GroupIds(us[..n], c);
    } else if us[n].changes == c {
      GroupKeys(us[..n], c);
      CollectNone(us[..n], IdIf(c));
    }
  }

  /** With no change set `c` among the updates, no id is collected for it. */
  lemma {:induction false} CollectNone(us: seq<Update>, f: Update -> Option<int>)
    requires forall i :: 0 <= i < |us| ==> f(us[i]).None?
    ensures Collect(us, f) == []
    decreases |us|
  {
    if us != [] {
      CollectNone(us[..|us| - 1], f);
    }
  }

  /** The groups are iterated in the order their change sets first occur. */
  lemma {:induction false} GroupOrder(us: seq<Update>)
    ensures Group(us).keys == AddNew([], MapSeq(us, ChangesOf))
    decreases |us|
  {
    if us != [] {
      var n := |us| - 1;
      GroupOrder(us[..n]);
      assert MapSeq(us, ChangesOf)[..n] == MapSeq(us[..n], ChangesOf);
      assert us[n].changes in Group(us[..n]).m <==> us[n].changes in Group(us[..n]).keys;
    }
  }

  method GroupUpdates(us: seq<Update>) returns (g: OMap<Changes, seq<int>>)
    ensures g == Group(us)
  {
    g := Empty();
    for i := 0 to |us|
      invariant g == Group(us[..i])
    {
      assert us[..i + 1][..i] == us[..i];
      var ids := if us[i].changes in g.m then g.m[us[i].changes] else [];
      g := Put(g, us[i].changes, ids + [us[i].odooId]);
    }
    assert us[..|us|] == us;
  }

  /** The `write` calls of one group: its ids 200 at a time, with its changes. */
  function GroupWrites(ids: seq<int>, c: Changes): seq<(seq<int>, Changes)>
  {
    MapSeq(Chunks(ids, 200), WithChanges(c))
  }

  function WithChanges(c: Changes): seq<int> -> (seq<int>, Changes)
  {
    (b: seq<int>) => (b, c)
  }

  /** The `write` calls of the groups `ks`, group after group. */
  function Writes(g: OMap<Changes, seq<int>>, ks: seq<Changes>): seq<(seq<int>, Changes)>
    requires forall k :: k in ks ==> k in g.m
    decreases |ks|
  {
    if ks == [] then []
    else Writes(g, ks[..|ks| - 1]) + GroupWrites(g.m[ks[|ks| - 1]], ks[|ks| - 1])
  }

  lemma GroupKeysPresent(us: seq<Update>)
    ensures forall k :: k in Group(us).keys ==> k in Group(us).m
  {
    assert forall k :: k in Group(us).keys ==> k in Elems(Group(us).keys);
  }

  /** The `write` calls of `applyUpdates`: none in a dry run or with nothing
   *  to update. */
  function UpdateWrites(us: seq<Update>, dryRun: bool): seq<(seq<int>, Changes)>
  {
    if |us| == 0 || dryRun then []
    else
      GroupKeysPresent(us);
      Writes(Group(us), Group(us).keys)
  }

  /** Products counted as updated: the ids of every accepted write. */
  function Updated(ws: seq<(seq<int>, Changes)>, ok: (seq<int>, Changes) -> bool): nat
    decreases |ws|
  {
    if ws == [] then 0
    else
      var w := ws[|ws| - 1];
      Updated(ws[..|ws| - 1], ok) + (if ok(w.0, w.1) then |w.0| else 0)
  }

  lemma {:induction false} WritesMembership(g: OMap<Changes, seq<int>>, ks: seq<Changes>, w: (seq<int>, Changes))
    requires forall k :: k in ks ==> k in g.m
    ensures w in Writes(g, ks) <==> InSomeGroup(g, ks, w)
    decreases |ks|
  {
    if ks != [] {
      WritesMembership(g, ks[..|ks| - 1], w);
      InSomeGroupSnoc(g, ks, w);
    }
  }

  /** `w` is one of the writes of some group named in `ks`. */
  predicate InSomeGroup(g: OMap<Changes, seq<int>>, ks: seq<Changes>, w: (seq<int>, Changes))
    requires forall k :: k in ks ==> k in g.m
  {
    exists j :: 0 <= j < |ks| && w in GroupWrites(g.m[ks[j]], ks[j])
  }

  lemma InSomeGroupSnoc(g: OMap<Changes, seq<int>>, ks: seq<Changes>, w: (seq<int>, Changes))
    requires ks != [] && forall k :: k in ks ==> k in g.m
    ensures InSomeGroup(g, ks, w) <==>
      InSomeGroup(g, ks[..|ks| - 1], w) || w in GroupWrites(g.m[ks[|ks| - 1]], ks[|ks| - 1])
  {
    var n := |ks| - 1;
    var init := ks[..n];
    if InSomeGroup(g, ks, w) {
      var j :| 0 <= j < |ks| && w in GroupWrites(g.m[ks[j]], ks[j]);
      if j < n {
        assert init[j] == ks[j];
      }
    }
    if InSomeGroup(g, init, w) {
      var j :| 0 <= j < n && w in GroupWrites(g.m[init[j]], init[j]);
      assert ks[j] == init[j];
    }
  }

  /** A write of a group carries its changes and 1 to 200 of its ids. */
  lemma GroupWriteShape(ids: seq<int>, c: Changes, w: (seq<int>, Changes), x: int)
    requires w in GroupWrites(ids, c)
    ensures w.1 == c && 0 < |w.0| <= 200
    ensures x in w.0 ==> x in ids
  {
    var bs := Chunks(ids, 200);
    ChunksProperties(ids, 200);
    var i :| 0 <= i < |bs| && GroupWrites(ids, c)[i] == w;
    FlattenMembership(bs, x);
  }

  /** Every id of a group is in one of its writes. */
  lemma GroupWriteCovers(ids: seq<int>, c: Changes, x: int)
    requires x in ids
    ensures exists w :: w in GroupWrites(ids, c) && x in w.0
  {
    var bs := Chunks(ids, 200);
    ChunksProperties(ids, 200);
    FlattenMembership(bs, x);
    var i :| 0 <= i < |bs| && x in bs[i];
    assert GroupWrites(ids, c)[i] == (bs[i], c);
  }

  /** Every write holds 1 to 200 ids, each of an update that carries exactly
   *  the changes written. */
  lemma UpdatesSound(us: seq<Update>, w: (seq<int>, Changes), x: int)
    requires w in UpdateWrites(us, false)
    ensures 0 < |w.0| <= 200
    ensures x in w.0 ==> exists i :: 0 <= i < |us| && us[i].odooId == x && us[i].changes == w.1
  {
    var g := Group(us);
    GroupKeysPresent(us);
    WritesMembership(g, g.keys, w);
    var j :| 0 <= j < |g.keys| && w in GroupWrites(g.m[g.keys[j]], g.keys[j]);
    var c := g.keys[j];
    GroupWriteShape(g.m[c], c, w, x);
    if x in w.0 {
      GroupIds(us, c);
      CollectMembership(us, IdIf(c), x);
      var i :| 0 <= i < |us| && IdIf(c)(us[i]) == Some(x);
      assert us[i].odooId == x && us[i].changes == w.1;
    }
  }

  /** Every update reaches Odoo with its own changes. */
  lemma UpdatesComplete(us: seq<Update>, i: nat)
    requires i < |us|
    ensures exists w :: w in UpdateWrites(us, false) && us[i].odooId in w.0 && w.1 == us[i].changes
  {
    var g := Group(us);
    var c := us[i].changes;
    GroupKeys(us, c);
    GroupIds(us, c);
    CollectMembership(us, IdIf(c), us[i].odooId);
    GroupWriteCovers(g.m[c], c, us[i].odooId);
    var w :| w in GroupWrites(g.m[c], c) && us[i].odooId in w.0;
    GroupWriteShape(g.m[c], c, w, us[i].odooId);
    assert c in Elems(g.keys);
    var j :| 0 <= j < |g.keys| && g.keys[j] == c;
    GroupKeysPresent(us);
    WritesMembership(g, g.keys, w);
  }

  /** `applyUpdates`, with the answers of `write` as a parameter. */
  method ApplyUpdates(us: seq<Update>, dryRun: bool, ok: (seq<int>, Changes) -> bool)
    returns (writes: seq<(seq<int>, Changes)>, updated: nat)
    ensures writes == UpdateWrites(us, dryRun)
    ensures updated == Updated(writes, ok)
  {
    writes, updated := [], 0;
    if |us| == 0 || dryRun {
      return;
    }
    var g := GroupUpdates(us);
    GroupKeysPresent(us);
    writes, updated := WriteGroups(g, ok);
  }

  /** `for (const group of groups.values())`: the groups in first-seen order. */
  method WriteGroups(g: OMap<Changes, seq<int>>, ok: (seq<int>, Changes) -> bool)
    returns (writes: seq<(seq<int>, Changes)>, updated: nat)
    requires forall k :: k in g.keys ==> k in g.m
    ensures writes == Writes(g, g.keys)
    ensures updated == Updated(writes, ok)
  {
    writes, updated := [], 0;
    for i := 0 to |g.keys|
      invariant writes == Writes(g, g.keys[..i])
      invariant updated == Updated(writes, ok)
    {
      assert g.keys[..i + 1][..i] == g.keys[..i];
      var c := g.keys[i];
      writes, updated := WriteGroup(writes, updated, g.m[c], c, ok);
    }
    assert g.keys[..|g.keys|] == g.keys;
  }

  /** `for (const idBatch of chunk(group.ids, 200))`. */
  method WriteGroup(writes0: seq<(seq<int>, Changes)>, updated0: nat, ids: seq<int>, c: Changes,
                    ok: (seq<int>, Changes) -> bool)
    returns (writes: seq<(seq<int>, Changes)>, updated: nat)
    requires updated0 == Updated(writes0, ok)
    ensures writes == writes0 + GroupWrites(ids, c)
    ensures updated == Updated(writes, ok)
  {
    var batches := Chunk(ids, 200);
    writes, updated := writes0, updated0;
    for j := 0 to |batches|
      invariant writes == writes0 + MapSeq(batches[..j], WithChanges(c))
      invariant updated == Updated(writes, ok)
    {
      MapSeqSnoc(batches, WithChanges(c), j);
      var w := (batches[j], c);
      assert (writes + [w])[..|writes|] == writes;
      if ok(batches[j], c) {
        updated := updated + |batches[j]|;
      }
      writes := writes + [w];
    }
    assert batches[..|batches|] == batches;
  }

  // ---------------------------------------------------------------- archives

  /** The `write(active: false)` calls of `applyArchives`. */
  function ArchiveBatches(toArchive: seq<int>, dryRun: bool): seq<seq<int>>
  {
    if |toArchive| == 0 || dryRun then [] else Chunks(toArchive, 200)
  }

  /** Products counted as archived: the ids of every accepted write. */
  function Archived(bs: seq<seq<int>>, ok: seq<int> -> bool): nat
    decreases |bs|
  {
    if bs == [] then 0
    else Archived(bs[..|bs| - 1], ok) + (if ok(bs[|bs| - 1]) then |bs[|bs| - 1]| else 0)
  }

  lemma {:induction false} ArchivedAtMost(bs: seq<seq<int>>, ok: seq<int> -> bool)
    ensures Archived(bs, ok) <= |Flatten(bs)|
    ensures (forall i :: 0 <= i < |bs| ==> ok(bs[i])) ==> Archived(bs, ok) == |Flatten(bs)|
    decreases |bs|
  {
    if bs != [] {
      ArchivedAtMost(bs[..|bs| - 1], ok);
    }
  }

  /** `applyArchives`, with the answers of `write` as a parameter: every id is
   *  sent once, in order, 200 at a time. */
  method ApplyArchives(toArchive: seq<int>, dryRun: bool, ok: seq<int> -> bool)
    returns (batches: seq<seq<int>>, archived: nat)
    ensures batches == ArchiveBatches(toArchive, dryRun)
    ensures !dryRun ==> Flatten(batches) == toArchive
    ensures forall i :: 0 <= i < |batches| ==> 0 < |batches[i]| <= 200
    ensures archived == Archived(batches, ok) <= |toArchive|
  {
    batches, archived := [], 0;
    if |toArchive| == 0 || dryRun {
      return;
    }
    batches := Chunk(toArchive, 200);
    ChunksProperties(toArchive, 200);
    for i := 0 to |batches|
      invariant archived == Archived(batches[..i], ok)
    {
      assert batches[..i + 1][..i] == batches[..i];
      if ok(batches[i]) {
        archived := archived + |batches[i]|;
      }
    }
    assert batches[..|batches|] == batches;
    ArchivedAtMost(batches, ok);
  }
}
