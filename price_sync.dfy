// The hourly ERP → Odoo price sync: list price and cost by SKU, the
// cent-tolerant diff against Odoo, and per-product writes with retries on
// transient XML-RPC failures.
module PriceSync {
  import opened Wrappers
  import opened Text
  import opened Seqs
  import opened OrderedMap
  import InventoryDiff

  // ---------------------------------------------------------------- errors

  /** Fragments of the messages of failures worth retrying: an HTML error page
   *  where XML was expected, dropped or refused connections, timeouts and
   *  gateway errors. */
  const TransientMarkers: seq<string> := [
    "unknown xml-rpc tag 'title'", "socket hang up", "econnreset", "econnrefused",
    "etimedout", "timeout", "502", "503", "504"]

  /** A failure is transient when its lower-cased message contains a marker. */
  predicate IsTransient(msg: string)
  {
    exists i :: 0 <= i < |TransientMarkers| && Contains(ToLower(msg), TransientMarkers[i])
  }

  lemma LowerOfUpper(s: string)
    ensures ToLower(ToUpper(s)) == ToLower(s)
  {
    forall i | 0 <= i < |s| ensures ToLower(ToUpper(s))[i] == ToLower(s)[i] {
    }
  }

  /** The test ignores case: a message and its upper- or lower-cased copy are
   *  treated alike. */
  lemma TransientIgnoresCase(msg: string)
    ensures IsTransient(ToUpper(msg)) <==> IsTransient(msg)
    ensures IsTransient(ToLower(msg)) <==> IsTransient(msg)
  {
    LowerOfUpper(msg);
    LowerIdempotent(msg);
  }

  /** A message that contains a marker anywhere is transient. */
  lemma {:induction false} ContainsInside(pre: string, sub: string, post: string)
    ensures Contains(pre + sub + post, sub)
    decreases |pre|
  {
    if pre == [] {
      assert (pre + sub + post)[..|sub|] == sub;
    } else {
      ContainsInside(pre[1..], sub, post);
      assert (pre + sub + post)[1..] == pre[1..] + sub + post;
    }
  }

  lemma LowerConcat(a: string, b: string)
    ensures ToLower(a + b) == ToLower(a) + ToLower(b)
  {
  }

  lemma LowerOfAsciiLower(s: string)
    requires forall j :: 0 <= j < |s| ==> 'a' <= s[j] <= 'z' || s[j] in " '-0123456789"
    ensures ToLower(s) == s
  {
  }

  lemma MarkerIsLower(i: nat)
    requires i < |TransientMarkers|
    ensures ToLower(TransientMarkers[i]) == TransientMarkers[i]
  {
    LowerOfAsciiLower(TransientMarkers[i]);
  }

  lemma MarkerMakesTransient(pre: string, i: nat, post: string)
    requires i < |TransientMarkers|
    ensures IsTransient(ToLower(pre) + TransientMarkers[i] + post)
  {
    var m := TransientMarkers[i];
    MarkerIsLower(i);
    LowerIdempotent(pre);
    LowerConcat(ToLower(pre), m);
    LowerConcat(ToLower(pre) + m, post);
    ContainsInside(ToLower(pre), m, ToLower(post));
  }

  // ---------------------------------------------------------------- ERP prices

  /** One ERP article: SKU, sale price and branch cost; `None` is SQL NULL. */
  datatype PriceRow = PriceRow(articuloId: string, precio1: Option<real>, costo: Option<real>)

  /** The prices the ERP asks for; a missing price reads as 0. */
  datatype ErpPrice = ErpPrice(listPrice: real, standardPrice: real)

  function OrZero(x: Option<real>): real
  {
    if x.Some? then x.value else 0.0
  }

  /** Rows without a SKU are skipped. */
  function PriceEntry(r: PriceRow): Option<(string, ErpPrice)>
  {
    var sku := Trim(r.articuloId);
    if sku == "" then None else Some((sku, ErpPrice(OrZero(r.precio1), OrZero(r.costo))))
  }

  /** SKU → ERP prices; a repeated SKU keeps its last row. */
  function PriceIndex(rows: seq<PriceRow>): (r: OMap<string, ErpPrice>)
    ensures Valid(r)
  {
    PutCollected(rows, PriceEntry)
  }

  /** The index holds exactly the non-blank trimmed SKUs. */
  lemma PriceIndexKeys(rows: seq<PriceRow>, sku: string)
    ensures sku in PriceIndex(rows).m <==>
      sku != "" && exists i :: 0 <= i < |rows| && Trim(rows[i].articuloId) == sku
  {
    PutCollectedKeys(rows, PriceEntry, sku);
    forall i | 0 <= i < |rows|
      ensures HasKey(PriceEntry, rows[i], sku) <==> sku != "" && Trim(rows[i].articuloId) == sku
    {
    }
  }

  lemma EntryNames(r: PriceRow, sku: string)
    requires sku != ""
    ensures HasKey(PriceEntry, r, sku) <==> Trim(r.articuloId) == sku
  {
  }

  lemma EntryValue(r: PriceRow, sku: string, v: ErpPrice)
    requires PriceEntry(r) == Some((sku, v))
    ensures Trim(r.articuloId) == sku && v == ErpPrice(OrZero(r.precio1), OrZero(r.costo))
  {
  }

  /** Each SKU holds the prices of the last row naming it, a missing price
   *  as 0. */
  lemma PriceIndexLastRow(rows: seq<PriceRow>, sku: string)
    requires sku in PriceIndex(rows).m
    ensures exists i :: (0 <= i < |rows|
      && Trim(rows[i].articuloId) == sku
      && PriceIndex(rows).m[sku] == ErpPrice(OrZero(rows[i].precio1), OrZero(rows[i].costo))
      && forall j :: i < j < |rows| ==> Trim(rows[j].articuloId) != sku)
  {
    var v := PriceIndex(rows).m[sku];
    PutCollectedLastWins(rows, PriceEntry, sku);
    var i :| 0 <= i < |rows| && PriceEntry(rows[i]) == Some((sku, v))
      && forall j :: i < j < |rows| ==> !HasKey(PriceEntry, rows[j], sku);
    EntryValue(rows[i], sku, v);
    forall j | i < j < |rows| ensures Trim(rows[j].articuloId) != sku {
      EntryNames(rows[j], sku);
    }
  }

  /** The index loop over the ERP rows. */
  method IndexPrices(rows: seq<PriceRow>) returns (prices: OMap<string, ErpPrice>)
    ensures prices == PriceIndex(rows)
  {
    prices := Empty();
    for i := 0 to |rows|
      invariant prices == PutCollected(rows[..i], PriceEntry)
    {
      PutCollectedSnoc(rows, PriceEntry, i);
      var sku := Trim(rows[i].articuloId);
      if sku == "" {
        continue;
      }
      prices := Put(prices, sku, ErpPrice(OrZero(rows[i].precio1), OrZero(rows[i].costo)));
    }
    assert rows[..|rows|] == rows;
  }

  // ---------------------------------------------------------------- diff

  /** A `product.template` with its current prices. */
  datatype OdooPrice = OdooPrice(id: int, defaultCode: string, listPrice: real, standardPrice: real)

  /** The price fields to write; `None` leaves a field alone. */
  datatype PriceChanges = PriceChanges(listPrice: Option<real>, standardPrice: Option<real>)

  datatype PriceUpdate = PriceUpdate(odooId: int, changes: PriceChanges)

  predicate NoPriceChanges(c: PriceChanges)
  {
    c.listPrice.None? && c.standardPrice.None?
  }

  /** Each price further than a cent from the ERP's is set to the ERP's. */
  function PriceChangesFor(p: OdooPrice, erp: ErpPrice): PriceChanges
  {
    PriceChanges(
      if InventoryDiff.PriceDiffers(p.listPrice, erp.listPrice) then Some(erp.listPrice) else None,
      if InventoryDiff.PriceDiffers(p.standardPrice, erp.standardPrice) then Some(erp.standardPrice) else None)
  }

  function ApplyPrices(p: OdooPrice, c: PriceChanges): (r: OdooPrice)
    ensures r.id == p.id && r.defaultCode == p.defaultCode
  {
    OdooPrice(p.id, p.defaultCode, c.listPrice.GetOr(p.listPrice), c.standardPrice.GetOr(p.standardPrice))
  }

  predicate PricesInSync(p: OdooPrice, erp: ErpPrice)
  {
    !InventoryDiff.PriceDiffers(p.listPrice, erp.listPrice)
    && !InventoryDiff.PriceDiffers(p.standardPrice, erp.standardPrice)
  }

  /** There is nothing to write exactly when both prices are within a cent;
   *  whatever is written is the ERP's price, and writing it brings the
   *  product within a cent. */
  lemma PriceChangesSync(p: OdooPrice, erp: ErpPrice)
    ensures NoPriceChanges(PriceChangesFor(p, erp)) <==> PricesInSync(p, erp)
    ensures PriceChangesFor(p, erp).listPrice.Some? ==> PriceChangesFor(p, erp).listPrice.value == erp.listPrice
    ensures PriceChangesFor(p, erp).standardPrice.Some? ==>
      PriceChangesFor(p, erp).standardPrice.value == erp.standardPrice
    ensures PricesInSync(ApplyPrices(p, PriceChangesFor(p, erp)), erp)
  {
  }

  /** Products without a reference, unknown to the ERP or already in sync
   *  need no write. */
  function UpdateOf(prices: map<string, ErpPrice>, p: OdooPrice): Option<PriceUpdate>
  {
    var sku := Trim(p.defaultCode);
    if sku == "" || sku !in prices then None
    else
      var c := PriceChangesFor(p, prices[sku]);
      if NoPriceChanges(c) then None else Some(PriceUpdate(p.id, c))
  }

  function UpdateFor(prices: map<string, ErpPrice>): OdooPrice -> Option<PriceUpdate>
  {
    p => UpdateOf(prices, p)
  }

  function PriceDiff(prices: map<string, ErpPrice>, products: seq<OdooPrice>): seq<PriceUpdate>
  {
    Collect(products, UpdateFor(prices))
  }

  /** The product has a reference the ERP knows, and prices out of sync. */
  predicate OutOfSync(prices: map<string, ErpPrice>, p: OdooPrice)
  {
    var sku := Trim(p.defaultCode);
    sku != "" && sku in prices && !PricesInSync(p, prices[sku])
  }

  lemma UpdateOfMeans(prices: map<string, ErpPrice>, p: OdooPrice, u: PriceUpdate)
    ensures UpdateOf(prices, p) == Some(u) <==>
      OutOfSync(prices, p) && u == PriceUpdate(p.id, PriceChangesFor(p, prices[Trim(p.defaultCode)]))
  {
    var sku := Trim(p.defaultCode);
    if sku != "" && sku in prices {
      PriceChangesSync(p, prices[sku]);
    }
  }

  /** An update is listed exactly for a product whose SKU the ERP knows and
   *  whose prices are out of sync, with that product's id and changes. */
  lemma PriceDiffExactly(prices: map<string, ErpPrice>, products: seq<OdooPrice>, u: PriceUpdate)
    ensures u in PriceDiff(prices, products) <==> exists i :: (0 <= i < |products|
      && OutOfSync(prices, products[i])
      && u == PriceUpdate(products[i].id, PriceChangesFor(products[i], prices[Trim(products[i].defaultCode)])))
  {
    CollectMembership(products, UpdateFor(prices), u);
    forall i | 0 <= i < |products|
      ensures UpdateFor(prices)(products[i]) == Some(u) <==> (OutOfSync(prices, products[i])
        && u == PriceUpdate(products[i].id, PriceChangesFor(products[i], prices[Trim(products[i].defaultCode)])))
    {
      UpdateOfMeans(prices, products[i], u);
    }
  }

  /** The body of the diff loop for one product: its update, if any, is
   *  pushed. */
  method DiffOne(prices: map<string, ErpPrice>, products: seq<OdooPrice>, i: nat, toUpdate: seq<PriceUpdate>)
    returns (toUpdate': seq<PriceUpdate>)
    requires i < |products| && toUpdate == Collect(products[..i], UpdateFor(prices))
    ensures toUpdate' == Collect(products[..i + 1], UpdateFor(prices))
  {
    CollectSnoc(products, UpdateFor(prices), i);
    toUpdate' := toUpdate;
    var p := products[i];
    assert UpdateFor(prices)(p) == UpdateOf(prices, p);
    var sku := Trim(p.defaultCode);
    if sku == "" || sku !in prices {
      return;
    }
    var erp := prices[sku];
    var changes := PriceChanges(None, None);
    if InventoryDiff.PriceDiffers(p.listPrice, erp.listPrice) {
      changes := changes.(listPrice := Some(erp.listPrice));
    }
    if InventoryDiff.PriceDiffers(p.standardPrice, erp.standardPrice) {
      changes := changes.(standardPrice := Some(erp.standardPrice));
    }
    if !NoPriceChanges(changes) {
      toUpdate' := toUpdate + [PriceUpdate(p.id, changes)];
    }
  }

  /** The diff loop over the Odoo products. */
  method ComputePriceDiff(prices: map<string, ErpPrice>, products: seq<OdooPrice>)
    returns (toUpdate: seq<PriceUpdate>)
    ensures toUpdate == PriceDiff(prices, products)
  {
    toUpdate := [];
    for i := 0 to |products|
      invariant toUpdate == Collect(products[..i], UpdateFor(prices))
    {
      toUpdate := DiffOne(prices, products, i, toUpdate);
    }
    assert products[..|products|] == products;
  }

  // ---------------------------------------------------------------- writes

  /** `Math.max(1, n)`: the configured worker count and retry budget. */
  function AtLeastOne(n: int): (r: nat)
    ensures r >= 1 && r >= n && (r == n || r == 1)
  {
    if n < 1 then 1 else n
  }

  /** The attempts of one write from `attempt` on: the result of each attempt
   *  is `None` on success or the error message; only a transient failure with
   *  attempts left is retried. Yields whether the write succeeded and the
   *  number of the last attempt. */
  function Retry(maxRetries: nat, outcome: nat -> Option<string>, attempt: nat): (bool, nat)
    requires 1 <= attempt <= maxRetries
    decreases maxRetries - attempt
  {
    if outcome(attempt).None? then (true, attempt)
    else if attempt < maxRetries && IsTransient(outcome(attempt).value) then Retry(maxRetries, outcome, attempt + 1)
    else (false, attempt)
  }

  /** What the retry rule means: the last attempt is within the budget, every
   *  earlier attempt failed transiently, the write succeeded exactly when the
   *  last attempt did, and a failure is final only when the budget is spent
   *  or the error is not transient. */
  lemma {:induction false} RetryMeans(maxRetries: nat, outcome: nat -> Option<string>, attempt: nat)
    requires 1 <= attempt <= maxRetries
    ensures var (ok, last) := Retry(maxRetries, outcome, attempt);
      && attempt <= last <= maxRetries
      && (forall a :: attempt <= a < last ==> outcome(a).Some? && IsTransient(outcome(a).value))
      && (ok <==> outcome(last).None?)
      && (!ok ==> last == maxRetries || !IsTransient(outcome(last).value))
    decreases maxRetries - attempt
  {
    if outcome(attempt).Some? && attempt < maxRetries && IsTransient(outcome(attempt).value) {
      RetryMeans(maxRetries, outcome, attempt + 1);
    }
  }

  /** The pauses before each retry: 250 ms times the failed attempt's number. */
  function Backoff(n: nat): (r: seq<nat>)
    ensures |r| == n && forall i :: 0 <= i < n ==> r[i] == 250 * (i + 1)
  {
    seq(n, i requires 0 <= i < n => 250 * (i + 1))
  }

  /** `for (let attempt = 1; attempt <= maxRetries; attempt++)` around one
   *  write; `delays` are the sleeps between attempts. */
  method WriteWithRetry(maxRetries: nat, outcome: nat -> Option<string>)
    returns (ok: bool, attempts: nat, delays: seq<nat>)
    requires maxRetries >= 1
    ensures (ok, attempts) == Retry(maxRetries, outcome, 1)
    ensures 1 <= attempts <= maxRetries
    ensures delays == Backoff(attempts - 1)
  {
    var attempt := 1;
    delays := [];
    while true
      invariant 1 <= attempt <= maxRetries
      invariant Retry(maxRetries, outcome, attempt) == Retry(maxRetries, outcome, 1)
      invariant delays == Backoff(attempt - 1)
      decreases maxRetries - attempt
    {
      var result := outcome(attempt);
      if result.None? {
        ok, attempts := true, attempt;
        return;
      }
      if attempt < maxRetries && IsTransient(result.value) {
        delays := delays + [250 * attempt];
        attempt := attempt + 1;
        continue;
      }
      ok, attempts := false, attempt;
      return;
    }
  }

  /** Whether an update's write ends in success; `outcome(u, a)` is the result
   *  of attempt `a` of writing `u`. */
  function WriteSucceeds(maxRetries: nat, outcome: (PriceUpdate, nat) -> Option<string>): PriceUpdate -> bool
    requires maxRetries >= 1
  {
    u => Retry(maxRetries, (a: nat) => outcome(u, a), 1).0
  }

  /** The workers drain one shared queue, so every update is written exactly
   *  once; `updated` counts the successes and `errors` the rest. */
  method ApplyPriceUpdates(toUpdate: seq<PriceUpdate>, retriesSetting: int,
                           outcome: (PriceUpdate, nat) -> Option<string>)
    returns (updated: nat, errors: nat)
    ensures updated == Count(toUpdate, WriteSucceeds(AtLeastOne(retriesSetting), outcome))
    ensures updated + errors == |toUpdate|
  {
    var maxRetries := AtLeastOne(retriesSetting);
    updated, errors := 0, 0;
    for i := 0 to |toUpdate|
      invariant updated == Count(toUpdate[..i], WriteSucceeds(maxRetries, outcome))
      invariant updated + errors == i
    {
      FilterSnoc(toUpdate, WriteSucceeds(maxRetries, outcome), i);
      var item := toUpdate[i];
      var ok, _, _ := WriteWithRetry(maxRetries, (a: nat) => outcome(item, a));
      if ok {
        updated := updated + 1;
      } else {
        errors := errors + 1;
      }
    }
    assert toUpdate[..|toUpdate|] == toUpdate;
  }

  /** The whole run: index, diff, and the writes when there is anything to write. */
  method SyncPrices(rows: seq<PriceRow>, products: seq<OdooPrice>, retriesSetting: int,
                    outcome: (PriceUpdate, nat) -> Option<string>)
    returns (toUpdate: seq<PriceUpdate>, updated: nat, errors: nat)
    ensures toUpdate == PriceDiff(PriceIndex(rows).m, products)
    ensures updated == Count(toUpdate, WriteSucceeds(AtLeastOne(retriesSetting), outcome))
    ensures updated + errors == |toUpdate|
  {
    var prices := IndexPrices(rows);
    toUpdate := ComputePriceDiff(prices.m, products);
    if |toUpdate| == 0 {
      return toUpdate, 0, 0;
    }
    updated, errors := ApplyPriceUpdates(toUpdate, retriesSetting, outcome);
  }
}
