// The Wix inventory sync: per-SKU stock summed over the PostgreSQL branches
// changed since a watermark, the threshold rule that publishes low stock as
// zero, the dry-run and live counts, and the test-limit mode.
module PriceInventorySync {
  import opened Wrappers
  import opened Seqs
  import opened OrderedMap
  import SettingsDb

  const WatermarkKey := "wix.price_inventory_sync.last_processed_timestamp"
  const DefaultWatermark := "1970-01-01T00:00:00.000Z"
  const DefaultVariantId := "00000000-0000-0000-0000-000000000000"

  // ---------------------------------------------------------------- Wix side

  /** A Wix product; "" stands for a missing SKU or inventory item id. */
  datatype WixProduct = WixProduct(sku: string, inventoryItemId: string)

  function WixEntry(p: WixProduct): Option<(string, WixProduct)>
  {
    if p.sku == "" then None else Some((p.sku, p))
  }

  /** SKU → product for the products that have a SKU; a repeated SKU keeps
   *  its last product and its first position. */
  function WixProductMap(products: seq<WixProduct>): (r: OMap<string, WixProduct>)
    ensures Valid(r)
  {
    PutCollected(products, WixEntry)
  }

  lemma WixProductMapKeys(products: seq<WixProduct>, sku: string)
    ensures sku in WixProductMap(products).m <==>
      sku != "" && exists i :: 0 <= i < |products| && products[i].sku == sku
  {
    PutCollectedKeys(products, WixEntry, sku);
  }

  // ---------------------------------------------------------------- stock rows

  /** A row of the per-SKU aggregate; `None` is a sum or price that does not
   *  parse as a number. */
  datatype StockSumRow = StockSumRow(sku: string, totalStock: Option<real>, precio: Option<real>, lastUpdated: string)

  /** `limit` in `rows.slice(0, limit)`: a negative end counts from the back. */
  function SliceEnd(n: nat, limit: int): (r: nat)
    ensures r <= n
  {
    if limit >= 0 then (if limit <= n then limit else n)
    else if n + limit >= 0 then n + limit else 0
  }

  /** Test mode keeps only the first `testLimit` changed rows; a limit of 0
   *  or none at all keeps every row. */
  function RowsToProcess(rows: seq<StockSumRow>, testLimit: Option<int>): (r: seq<StockSumRow>)
    ensures |r| <= |rows| && r == rows[..|r|]
    ensures testLimit.None? || testLimit.value == 0 ==> r == rows
    ensures testLimit.Some? && testLimit.value > 0 ==> |r| == if |rows| <= testLimit.value then |rows| else testLimit.value
  {
    if testLimit.Some? && testLimit.value != 0 && |rows| > testLimit.value then rows[..SliceEnd(|rows|, testLimit.value)]
    else rows
  }

  function OrZero(x: Option<real>): real
  {
    if x.Some? then x.value else 0.0
  }

  /** The stock published to Wix: zero below the threshold, otherwise the
   *  whole units. */
  function EffectiveStock(total: real, threshold: real): int
  {
    if total < threshold then 0 else total.Floor
  }

  /** The threshold rule: a total below the threshold publishes 0; any other
   *  total publishes its whole part, the largest integer not above it. */
  lemma EffectiveStockRule(total: real, threshold: real)
    ensures total < threshold ==> EffectiveStock(total, threshold) == 0
    ensures total >= threshold ==> (EffectiveStock(total, threshold) as real <= total
      && total < EffectiveStock(total, threshold) as real + 1.0)
    ensures threshold >= 0.0 ==> EffectiveStock(total, threshold) >= 0
  {
  }

  datatype StockInfo = StockInfo(totalStock: real, effectiveStock: int, precio: real)

  function InfoOf(row: StockSumRow, threshold: real): StockInfo
  {
    var total := OrZero(row.totalStock);
    StockInfo(total, EffectiveStock(total, threshold), OrZero(row.precio))
  }

  function StockEntry(threshold: real): StockSumRow -> Option<(string, StockInfo)>
  {
    (row: StockSumRow) => Some((row.sku, InfoOf(row, threshold)))
  }

  /** `stockMap`: SKU → stock, in row order. */
  function StockMap(rows: seq<StockSumRow>, threshold: real): (r: OMap<string, StockInfo>)
    ensures Valid(r)
  {
    PutCollected(rows, StockEntry(threshold))
  }

  /** The stock map holds exactly the rows' SKUs. */
  lemma StockMapKeys(rows: seq<StockSumRow>, threshold: real, sku: string)
    ensures sku in StockMap(rows, threshold).m <==> exists i :: 0 <= i < |rows| && rows[i].sku == sku
  {
    PutCollectedKeys(rows, StockEntry(threshold), sku);
    forall i | 0 <= i < |rows| ensures HasKey(StockEntry(threshold), rows[i], sku) <==> rows[i].sku == sku {
    }
  }

  method BuildStockMap(rows: seq<StockSumRow>, threshold: real) returns (sm: OMap<string, StockInfo>)
    ensures sm == StockMap(rows, threshold)
  {
    sm := Empty();
    for i := 0 to |rows|
      invariant sm == PutCollected(rows[..i], StockEntry(threshold))
    {
      PutCollectedSnoc(rows, StockEntry(threshold), i);
      var total := OrZero(rows[i].totalStock);
      var effective := if total < threshold then 0 else total.Floor;
      sm := Put(sm, rows[i].sku, StockInfo(total, effective, OrZero(rows[i].precio)));
    }
    assert rows[..|rows|] == rows;
  }

  // ---------------------------------------------------------------- dry run

  function Blocked(sm: OMap<string, StockInfo>): string -> bool
  {
    sku => sku in sm.m && sm.m[sku].effectiveStock == 0
  }

  /** The dry-run loop: every SKU is either blocked (published as 0) or
   *  would be updated. */
  method DryRunCounts(sm: OMap<string, StockInfo>) returns (updated: nat, blocked: nat)
    requires Valid(sm)
    ensures blocked == Count(sm.keys, Blocked(sm))
    ensures updated + blocked == |sm.keys|
  {
    updated, blocked := 0, 0;
    for i := 0 to |sm.keys|
      invariant blocked == Count(sm.keys[..i], Blocked(sm))
      invariant updated + blocked == i
    {
      FilterSnoc(sm.keys, Blocked(sm), i);
      var sku := sm.keys[i];
      assert sku in Elems(sm.keys);
      if sm.m[sku].effectiveStock == 0 {
        blocked := blocked + 1;
      } else {
        updated := updated + 1;
      }
    }
    assert sm.keys[..|sm.keys|] == sm.keys;
  }

  // ---------------------------------------------------------------- live run

  datatype VariantUpdate = VariantUpdate(variantId: string, quantity: int, inStock: bool)

  datatype UpdateItem = UpdateItem(inventoryItemId: string, trackQuantity: bool, variants: seq<VariantUpdate>, sku: string)

  /** The payload for one SKU: quantity tracking on, the default variant set
   *  to the effective stock, in stock exactly when that is positive. */
  function ItemOf(sku: string, itemId: string, info: StockInfo): UpdateItem
  {
    UpdateItem(itemId, true, [VariantUpdate(DefaultVariantId, info.effectiveStock, info.effectiveStock > 0)], sku)
  }

  /** SKUs whose Wix product is missing or has no inventory item get no update. */
  function ItemFor(sm: OMap<string, StockInfo>, wm: OMap<string, WixProduct>): string -> Option<UpdateItem>
  {
    sku =>
      if sku !in sm.m || sku !in wm.m || wm.m[sku].inventoryItemId == "" then None
      else Some(ItemOf(sku, wm.m[sku].inventoryItemId, sm.m[sku]))
  }

  function UpdateItems(sm: OMap<string, StockInfo>, wm: OMap<string, WixProduct>): seq<UpdateItem>
  {
    Collect(sm.keys, ItemFor(sm, wm))
  }

  predicate ItemBlocked(item: UpdateItem)
  {
    |item.variants| == 1 && item.variants[0].quantity == 0
  }

  /** An update is sent exactly for each stocked SKU whose Wix product has an
   *  inventory item, with its effective stock; it is in stock exactly when
   *  that stock is positive. */
  lemma UpdateItemsExactly(sm: OMap<string, StockInfo>, wm: OMap<string, WixProduct>, item: UpdateItem)
    ensures item in UpdateItems(sm, wm) <==> exists i :: (0 <= i < |sm.keys|
      && sm.keys[i] in sm.m && sm.keys[i] in wm.m && wm.m[sm.keys[i]].inventoryItemId != ""
      && item == ItemOf(sm.keys[i], wm.m[sm.keys[i]].inventoryItemId, sm.m[sm.keys[i]]))
    ensures item in UpdateItems(sm, wm) ==> (item.trackQuantity && |item.variants| == 1
      && item.variants[0].variantId == DefaultVariantId
      && item.sku in sm.m && item.variants[0].quantity == sm.m[item.sku].effectiveStock
      && (item.variants[0].inStock <==> item.variants[0].quantity > 0))
  {
    CollectMembership(sm.keys, ItemFor(sm, wm), item);
  }

  /** The live loop: each SKU either yields an update or is skipped; the
   *  blocked count is the updates that publish 0. */
  method BuildUpdateItems(sm: OMap<string, StockInfo>, wm: OMap<string, WixProduct>)
    returns (items: seq<UpdateItem>, skipped: nat, blocked: nat)
    requires forall k :: k in sm.keys ==> k in sm.m
    ensures items == UpdateItems(sm, wm)
    ensures |items| + skipped == |sm.keys|
    ensures blocked == Count(items, ItemBlocked)
  {
    items, skipped, blocked := [], 0, 0;
    for i := 0 to |sm.keys|
      invariant items == Collect(sm.keys[..i], ItemFor(sm, wm))
      invariant |items| + skipped == i
      invariant blocked == Count(items, ItemBlocked)
    {
      UpdateItemsSnoc(sm, wm, i);
      var sku := sm.keys[i];
      if sku !in wm.m || wm.m[sku].inventoryItemId == "" {
        assert items + [] == items;
        skipped := skipped + 1;
        continue;
      }
      var info := sm.m[sku];
      var item := ItemOf(sku, wm.m[sku].inventoryItemId, info);
      CountSnoc(items, item, ItemBlocked);
      assert ItemBlocked(item) <==> info.effectiveStock == 0;
      if info.effectiveStock == 0 {
        blocked := blocked + 1;
      }
      items := items + [item];
    }
    assert sm.keys[..|sm.keys|] == sm.keys;
  }

  /** One more SKU of the stock map adds its update, if it has one. */
  lemma UpdateItemsSnoc(sm: OMap<string, StockInfo>, wm: OMap<string, WixProduct>, i: nat)
    requires i < |sm.keys| && forall k :: k in sm.keys ==> k in sm.m
    ensures sm.keys[i] in sm.m
    ensures var sku := sm.keys[i];
      Collect(sm.keys[..i + 1], ItemFor(sm, wm)) == Collect(sm.keys[..i], ItemFor(sm, wm))
        + if sku !in wm.m || wm.m[sku].inventoryItemId == "" then []
          else [ItemOf(sku, wm.m[sku].inventoryItemId, sm.m[sku])]
  {
    CollectSnoc(sm.keys, ItemFor(sm, wm), i);
  }

  // ---------------------------------------------------------------- the task

  /** The configuration the task reads. */
  datatype WixConfig = WixConfig(dryRun: bool, minStockThreshold: real, branchPrefix: string)

  /** How a run ended. */
  datatype Outcome =
    | NoWixProducts
    | NoWixSkus
    | NoChanges
    | DryRunDone(updated: nat, blocked: nat, skipped: nat)
    | LiveDone(items: seq<UpdateItem>, successes: nat, failures: nat, blocked: nat, skipped: nat)

  /** `this.testLimit` as JavaScript tests it: a non-zero number. */
  predicate LimitSet(testLimit: Option<int>)
  {
    testLimit.Some? && testLimit.value != 0
  }

  /** The rows the stock query returns for the stored watermark; a failed
   *  query reads as no rows. */
  function Changed(cfg: WixConfig, products: seq<WixProduct>,
                   stockQuery: (string, string, seq<string>) -> Option<seq<StockSumRow>>,
                   stored: map<string, SettingsDb.Setting>): seq<StockSumRow>
  {
    var watermark := if WatermarkKey in stored then stored[WatermarkKey].value else DefaultWatermark;
    var result := stockQuery(watermark, cfg.branchPrefix + "%", WixProductMap(products).keys);
    if result.Some? then result.value else []
  }

  class Task {
    var testLimit: Option<int>
    var forceLive: bool

    constructor ()
      ensures testLimit.None? && !forceLive
    {
      testLimit, forceLive := None, false;
    }

    /** `execute`. The Wix catalogue, the stock query (given the watermark,
     *  the branch pattern and the SKUs), the conversion of a timestamp to ISO
     *  text, the clock and the concurrent inventory push are inputs; `None`
     *  from the query or the push is a thrown error. */
    method Execute(cfg: WixConfig, products: seq<WixProduct>,
                   stockQuery: (string, string, seq<string>) -> Option<seq<StockSumRow>>,
                   toIso: string -> string, now: string,
                   push: seq<UpdateItem> -> Option<(nat, nat)>,
                   settings: SettingsDb.Store)
      returns (r: Result<Outcome, string>)
      modifies settings
      ensures products == [] ==> r == Ok(NoWixProducts)
      ensures products != [] && WixProductMap(products).keys == [] ==> r == Ok(NoWixSkus)
      ensures r.Ok? && r.value.DryRunDone? ==> !forceLive && cfg.dryRun
      ensures r.Ok? && r.value.LiveDone? ==> (r.value.items == UpdateItems(
        StockMap(RowsToProcess(Changed(cfg, products, stockQuery, old(settings.rows)), testLimit), cfg.minStockThreshold),
        WixProductMap(products)))
      ensures r.Ok? && r.value.DryRunDone? ==> (r.value.updated + r.value.blocked ==
        |StockMap(RowsToProcess(Changed(cfg, products, stockQuery, old(settings.rows)), testLimit), cfg.minStockThreshold).keys|)
      ensures settings.rows == if r.Ok? && (r.value.DryRunDone? || r.value.LiveDone?) && !LimitSet(testLimit)
        && Changed(cfg, products, stockQuery, old(settings.rows)) != []
        then SettingsDb.Upsert(old(settings.rows), WatermarkKey,
          toIso(Changed(cfg, products, stockQuery, old(settings.rows))[0].lastUpdated), now)
        else old(settings.rows)
    {
      var dryRun := if forceLive then false else cfg.dryRun;
      if |products| == 0 {
        return Ok(NoWixProducts);
      }
      var wm := WixProductMap(products);
      if |wm.keys| == 0 {
        return Ok(NoWixSkus);
      }
      var lastProcessed := settings.Get(WatermarkKey, DefaultWatermark);
      var result := stockQuery(lastProcessed, cfg.branchPrefix + "%", wm.keys);
      if result.None? {
        return Err("stock query failed");
      }
      var changedRows := result.value;
      if |changedRows| == 0 {
        return Ok(NoChanges);
      }
      var rowsToProcess := RowsToProcess(changedRows, testLimit);
      var sm := BuildStockMap(rowsToProcess, cfg.minStockThreshold);
      r := Report(sm, wm, dryRun, push);
      if r.Err? {
        return;
      }
      if !LimitSet(testLimit) {
        settings.Set(WatermarkKey, toIso(changedRows[0].lastUpdated), now);
      }
    }

    /** The dry-run tally, or the update items handed to the inventory push. */
    method Report(sm: OMap<string, StockInfo>, wm: OMap<string, WixProduct>, dryRun: bool,
                  push: seq<UpdateItem> -> Option<(nat, nat)>)
      returns (r: Result<Outcome, string>)
      requires Valid(sm)
      ensures r.Ok? ==> (if dryRun then r.value.DryRunDone? else r.value.LiveDone?)
      ensures r.Err? <==> !dryRun && push(UpdateItems(sm, wm)).None?
      ensures r.Ok? && r.value.DryRunDone? ==> r.value.updated + r.value.blocked == |sm.keys|
      ensures r.Ok? && r.value.LiveDone? ==> r.value.items == UpdateItems(sm, wm)
    {
      if dryRun {
        var updated, blocked := DryRunCounts(sm);
        r := Ok(DryRunDone(updated, blocked, 0));
      } else {
        var items, skipped, blocked := BuildUpdateItems(sm, wm);
        var pushed := push(items);
        if pushed.None? {
          return Err("inventory update failed");
        }
        r := Ok(LiveDone(items, pushed.value.0, pushed.value.1, blocked, skipped));
      }
    }

    /** `runWithLimit`: a live run of at most `limit` SKUs; the test mode is
     *  switched off again however the run ends. */
    method RunWithLimit(limit: int, cfg: WixConfig, products: seq<WixProduct>,
                        stockQuery: (string, string, seq<string>) -> Option<seq<StockSumRow>>,
                        toIso: string -> string, now: string,
                        push: seq<UpdateItem> -> Option<(nat, nat)>,
                        settings: SettingsDb.Store)
      returns (r: Result<Outcome, string>)
      modifies this, settings
      ensures testLimit.None? && !forceLive
      ensures !(r.Ok? && r.value.DryRunDone?)
      ensures limit != 0 ==> r.Err? || settings.rows == old(settings.rows)
    {
      testLimit, forceLive := Some(limit), true;
      r := Execute(cfg, products, stockQuery, toIso, now, push, settings);
      testLimit, forceLive := None, false;
    }
  }
}
