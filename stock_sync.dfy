// The stock part of the ERP → Odoo inventory sync: which `stock.quant`
// records to create or correct for every article and branch, and the
// batched writes that apply them.
module StockSync {
  import opened Wrappers
  import opened Text
  import opened Seqs
  import opened OrderedMap
  import opened Batches
  import opened InventorySync
  import InventoryDiff

  /** A `product.product` variant with its internal reference. */
  datatype Variant = Variant(id: int, defaultCode: string)

  /** A `stock.quant`; a product or location Odoo reports as `false` is `None`,
   *  a quantity reported as `false` reads as 0. */
  datatype Quant = Quant(id: int, productId: Option<int>, locationId: Option<int>, quantity: real)

  /** One quant to write: `existingQuantId` names the quant to correct, and
   *  its absence asks for a new quant. */
  datatype StockChange = StockChange(productId: int, locationId: int, qty: real, existingQuantId: Option<int>)

  function VariantEntry(v: Variant): Option<(string, int)>
  {
    var code := Trim(v.defaultCode);
    if code == "" then None else Some((code, v.id))
  }

  /** Internal reference → variant id; a repeated reference keeps its last variant. */
  function VariantByCode(variants: seq<Variant>): (r: OMap<string, int>)
    ensures Valid(r)
  {
    PutCollected(variants, VariantEntry)
  }

  /** JavaScript truthiness of an optional id. */
  predicate Truthy(x: Option<int>)
  {
    x.Some? && x.value != 0
  }

  /** Quants are indexed by (product, location); one lacking either is left out. */
  function QuantEntry(q: Quant): Option<((int, int), Quant)>
  {
    if Truthy(q.productId) && Truthy(q.locationId) then Some(((q.productId.value, q.locationId.value), q))
    else None
  }

  /** `quantIndex`: a later quant for the same pair replaces an earlier one. */
  function QuantIndex(quants: seq<Quant>): map<(int, int), Quant>
  {
    PutCollected(quants, QuantEntry).m
  }

  lemma {:induction false} QuantIndexKeys(quants: seq<Quant>, key: (int, int))
    ensures key in QuantIndex(quants) <==> (key.0 != 0 && key.1 != 0
      && exists i :: 0 <= i < |quants| && quants[i].productId == Some(key.0) && quants[i].locationId == Some(key.1))
  {
    PutCollectedKeys(quants, QuantEntry, key);
  }

  // ---------------------------------------------------------------- changes

  function KeyOf(u: StockChange): (int, int)
  {
    (u.productId, u.locationId)
  }

  /** What every change promises: a known variant at a mapped location; a
   *  correction only of a quant whose quantity is off by more than 0.001, a
   *  new quant only for a positive quantity. */
  ghost predicate ChangeOk(u: StockChange, idx0: map<(int, int), Quant>, variantIds: set<int>, locIds: set<int>)
  {
    u.productId != 0 && u.productId in variantIds && u.locationId != 0 && u.locationId in locIds
    && (u.existingQuantId.None? ==> u.qty > 0.0)
    && (u.existingQuantId.Some? ==> KeyOf(u) in idx0 && idx0[KeyOf(u)].id == u.existingQuantId.value
                                    && InventoryDiff.Abs(idx0[KeyOf(u)].quantity - u.qty) > 0.001)
  }

  /** No existing quant is corrected twice. */
  ghost predicate OneCorrectionEach(updates: seq<StockChange>)
  {
    forall i, j :: 0 <= i < j < |updates| && updates[i].existingQuantId.Some? && updates[j].existingQuantId.Some?
      ==> KeyOf(updates[i]) != KeyOf(updates[j])
  }

  /** The changes so far are sound, and the index has lost every quant
   *  already corrected. */
  ghost predicate StockInv(updates: seq<StockChange>, index: map<(int, int), Quant>, idx0: map<(int, int), Quant>,
                           variantIds: set<int>, locIds: set<int>)
  {
    (forall k :: k in index ==> k in idx0 && index[k] == idx0[k])
    && (forall i :: 0 <= i < |updates| ==> ChangeOk(updates[i], idx0, variantIds, locIds))
    && (forall i :: 0 <= i < |updates| && updates[i].existingQuantId.Some? ==> KeyOf(updates[i]) !in index)
    && OneCorrectionEach(updates)
  }

  /** One branch of one article: correct the existing quant when it is off,
   *  and drop it from the index; otherwise emit a new quant for positive stock. */
  method BranchChange(updates: seq<StockChange>, index: map<(int, int), Quant>, productId: int, locId: int, qty: real,
                      ghost idx0: map<(int, int), Quant>, ghost variantIds: set<int>, ghost locIds: set<int>)
    returns (updates': seq<StockChange>, index': map<(int, int), Quant>)
    requires StockInv(updates, index, idx0, variantIds, locIds)
    requires productId != 0 && productId in variantIds && locId != 0 && locId in locIds
    ensures StockInv(updates', index', idx0, variantIds, locIds)
  {
    var key := (productId, locId);
    updates', index' := updates, index;
    if key in index {
      var existing := index[key];
      if InventoryDiff.Abs(existing.quantity - qty) > 0.001 {
        updates' := updates + [StockChange(productId, locId, qty, Some(existing.id))];
      }
      index' := index - {key};
    } else if qty > 0.0 {
      updates' := updates + [StockChange(productId, locId, qty, None)];
    }
  }

  /** The branches of one article with a mapped location. */
  method ArticleChanges(updates: seq<StockChange>, index: map<(int, int), Quant>, productId: int,
                        stock: OMap<string, BranchStock>, warehouseLoc: map<string, int>,
                        ghost idx0: map<(int, int), Quant>, ghost variantIds: set<int>)
    returns (updates': seq<StockChange>, index': map<(int, int), Quant>)
    requires StockInv(updates, index, idx0, variantIds, warehouseLoc.Values)
    requires Valid(stock) && productId != 0 && productId in variantIds
    ensures StockInv(updates', index', idx0, variantIds, warehouseLoc.Values)
  {
    updates', index' := updates, index;
    for j := 0 to |stock.keys|
      invariant StockInv(updates', index', idx0, variantIds, warehouseLoc.Values)
    {
      var code := stock.keys[j];
      assert code in Elems(stock.keys);
      if code in warehouseLoc && warehouseLoc[code] != 0 {
        updates', index' := BranchChange(updates', index', productId, warehouseLoc[code], stock.m[code].qty,
                                         idx0, variantIds, warehouseLoc.Values);
      }
    }
  }

  /** The stock-change computation of `syncStockLevels`: nothing when no
   *  warehouse location or no variant is known, otherwise a walk over the
   *  articles and their branches. */
  method StockChanges(am: OMap<string, Article>, warehouseLoc: map<string, int>, variants: seq<Variant>,
                      quants: seq<Quant>)
    returns (updates: seq<StockChange>)
    requires Valid(am) && forall k :: k in am.m ==> Valid(am.m[k].stockByBranch)
    ensures (|warehouseLoc| == 0 || |VariantByCode(variants).m| == 0) ==> updates == []
    ensures forall i :: 0 <= i < |updates| ==>
      ChangeOk(updates[i], QuantIndex(quants), VariantByCode(variants).m.Values, warehouseLoc.Values)
    ensures OneCorrectionEach(updates)
  {
    updates := [];
    if |warehouseLoc| == 0 {
      return;
    }
    var vb := VariantByCode(variants);
    if |vb.m| == 0 {
      return;
    }
    var index := QuantIndex(quants);
    ghost var idx0 := index;
    for i := 0 to |am.keys|
      invariant StockInv(updates, index, idx0, vb.m.Values, warehouseLoc.Values)
    {
      var sku := am.keys[i];
      assert sku in Elems(am.keys);
      if sku in vb.m && vb.m[sku] != 0 {
        updates, index := ArticleChanges(updates, index, vb.m[sku], am.m[sku].stockByBranch, warehouseLoc,
                                         idx0, vb.m.Values);
      }
    }
  }

  // ---------------------------------------------------------------- writes

  predicate IsNew(u: StockChange)
  {
    !Truthy(u.existingQuantId)
  }

  predicate IsCorrection(u: StockChange)
  {
    Truthy(u.existingQuantId)
  }

  /** `updates.filter(u => !u.existingQuantId)` and its complement split the
   *  changes between them. */
  lemma CreatePlusUpdate(updates: seq<StockChange>)
    ensures |Filter(updates, IsNew)| + |Filter(updates, IsCorrection)| == |updates|
  {
    FilterComplementLength(updates, IsNew, IsCorrection);
  }

  /** The answer of `action_apply_inventory`: success, the "cannot marshal
   *  None" reply of Odoo 18 (which is success too), or a real failure. */
  datatype ApplyReply = Applied | MarshalNone | ApplyFailed

  /** `created` and `errors` after the create batches: a batch whose create
   *  or apply fails counts whole as errors. */
  function CreateCounts(bs: seq<seq<StockChange>>, createOk: seq<StockChange> -> bool,
                        apply: seq<StockChange> -> ApplyReply): (nat, nat)
    decreases |bs|
  {
    if bs == [] then (0, 0)
    else
      var b := bs[|bs| - 1];
      var prev := CreateCounts(bs[..|bs| - 1], createOk, apply);
      if createOk(b) && apply(b) != ApplyFailed then (prev.0 + |b|, prev.1) else (prev.0, prev.1 + |b|)
  }

  /** `updated` and `errors` of one update batch, as written. */
  function UpdateBatchAsWritten(b: seq<StockChange>, writeOk: StockChange -> bool,
                                apply: seq<StockChange> -> ApplyReply): (nat, nat)
  {
    var ok := Filter(b, writeOk);
    var failed := |b| - |ok|;
    if |ok| > 0 then (|ok|, failed + (if apply(ok) == ApplyFailed then |ok| else 0)) else (0, failed)
  }

  /** `updated` and `errors` of one update batch when a failed apply counts
   *  only as errors. */
  function UpdateBatch(b: seq<StockChange>, writeOk: StockChange -> bool,
                       apply: seq<StockChange> -> ApplyReply): (nat, nat)
  {
    var ok := Filter(b, writeOk);
    var failed := |b| - |ok|;
    if |ok| > 0 && apply(ok) == ApplyFailed then (0, |b|) else (|ok|, failed)
  }

  /** Each change of a correction batch is counted once. */
  lemma UpdateBatchTotal(b: seq<StockChange>, writeOk: StockChange -> bool, apply: seq<StockChange> -> ApplyReply)
    ensures UpdateBatch(b, writeOk, apply).0 + UpdateBatch(b, writeOk, apply).1 == |b|
  {
  }

  /** As written, a quant whose write succeeded but whose apply failed is
   *  counted both as updated and as an error. */
  lemma UpdateBatchDoubleCounts()
    ensures var u := StockChange(1, 1, 5.0, Some(7));
      var r := UpdateBatchAsWritten([u], (x: StockChange) => true, (b: seq<StockChange>) => ApplyFailed);
      r == (1, 1) && r.0 + r.1 > 1
  {
    var u := StockChange(1, 1, 5.0, Some(7));
    assert Filter([u], (x: StockChange) => true) == [u] by {
      assert [u][..0] == [];
    }
  }

  /** With every apply accepted, both countings agree. */
  lemma UpdateBatchAgrees(b: seq<StockChange>, writeOk: StockChange -> bool, apply: seq<StockChange> -> ApplyReply)
    requires apply(Filter(b, writeOk)) != ApplyFailed
    ensures UpdateBatchAsWritten(b, writeOk, apply) == UpdateBatch(b, writeOk, apply)
  {
  }

  /** The counts over all update batches. */
  function UpdateCounts(bs: seq<seq<StockChange>>, writeOk: StockChange -> bool,
                        apply: seq<StockChange> -> ApplyReply): (nat, nat)
    decreases |bs|
  {
    if bs == [] then (0, 0)
    else
      var prev := UpdateCounts(bs[..|bs| - 1], writeOk, apply);
      var step := UpdateBatch(bs[|bs| - 1], writeOk, apply);
      (prev.0 + step.0, prev.1 + step.1)
  }

  /** Every change sent in a create batch is counted once. */
  lemma {:induction false} CreateCountsTotal(bs: seq<seq<StockChange>>, createOk: seq<StockChange> -> bool,
                                             apply: seq<StockChange> -> ApplyReply)
    ensures CreateCounts(bs, createOk, apply).0 + CreateCounts(bs, createOk, apply).1 == |Flatten(bs)|
    decreases |bs|
  {
    if bs != [] {
      CreateCountsTotal(bs[..|bs| - 1], createOk, apply);
    }
  }

  /** Every change sent in a correction batch is counted once. */
  lemma {:induction false} UpdateCountsTotal(bs: seq<seq<StockChange>>, writeOk: StockChange -> bool,
                                             apply: seq<StockChange> -> ApplyReply)
    ensures UpdateCounts(bs, writeOk, apply).0 + UpdateCounts(bs, writeOk, apply).1 == |Flatten(bs)|
    decreases |bs|
  {
    if bs != [] {
      UpdateCountsTotal(bs[..|bs| - 1], writeOk, apply);
      UpdateBatchTotal(bs[|bs| - 1], writeOk, apply);
    }
  }

  /** The batched writes of `syncStockLevels`: new quants 200 per `create`,
   *  corrections 100 per batch of single `write`s; every change ends up
   *  counted once, as created, updated or an error. */
  method ApplyStockChanges(updates: seq<StockChange>, createOk: seq<StockChange> -> bool,
                           writeOk: StockChange -> bool, apply: seq<StockChange> -> ApplyReply)
    returns (created: nat, updated: nat, errors: nat)
    ensures var cb := Chunks(Filter(updates, IsNew), 200);
      var ub := Chunks(Filter(updates, IsCorrection), 100);
      created == CreateCounts(cb, createOk, apply).0 && updated == UpdateCounts(ub, writeOk, apply).0
      && errors == CreateCounts(cb, createOk, apply).1 + UpdateCounts(ub, writeOk, apply).1
    ensures created + updated + errors == |updates|
  {
    var toCreate := Filter(updates, IsNew);
    var toUpdate := Filter(updates, IsCorrection);
    var createErrors, updateErrors;
    created, createErrors := CreateQuants(toCreate, createOk, apply);
    updated, updateErrors := CorrectQuants(toUpdate, writeOk, apply);
    errors := createErrors + updateErrors;
    ChunksProperties(toCreate, 200);
    ChunksProperties(toUpdate, 100);
    CreateCountsTotal(Chunks(toCreate, 200), createOk, apply);
    UpdateCountsTotal(Chunks(toUpdate, 100), writeOk, apply);
    CreatePlusUpdate(updates);
  }

  /** The create batches. */
  method CreateQuants(toCreate: seq<StockChange>, createOk: seq<StockChange> -> bool,
                      apply: seq<StockChange> -> ApplyReply)
    returns (created: nat, errors: nat)
    ensures (created, errors) == CreateCounts(Chunks(toCreate, 200), createOk, apply)
  {
    var batches := Chunk(toCreate, 200);
    created, errors := 0, 0;
    for i := 0 to |batches|
      invariant (created, errors) == CreateCounts(batches[..i], createOk, apply)
    {
      CreateCountsSnoc(batches, i, createOk, apply);
      if createOk(batches[i]) && apply(batches[i]) != ApplyFailed {
        created := created + |batches[i]|;
      } else {
        errors := errors + |batches[i]|;
      }
    }
    assert batches[..|batches|] == batches;
  }

  lemma CreateCountsSnoc(bs: seq<seq<StockChange>>, i: nat, createOk: seq<StockChange> -> bool,
                         apply: seq<StockChange> -> ApplyReply)
    requires i < |bs|
    ensures var prev := CreateCounts(bs[..i], createOk, apply);
      CreateCounts(bs[..i + 1], createOk, apply) ==
        if createOk(bs[i]) && apply(bs[i]) != ApplyFailed then (prev.0 + |bs[i]|, prev.1) else (prev.0, prev.1 + |bs[i]|)
  {
    assert bs[..i + 1][..i] == bs[..i];
  }

  /** The correction batches. */
  method CorrectQuants(toUpdate: seq<StockChange>, writeOk: StockChange -> bool,
                       apply: seq<StockChange> -> ApplyReply)
    returns (updated: nat, errors: nat)
    ensures (updated, errors) == UpdateCounts(Chunks(toUpdate, 100), writeOk, apply)
  {
    var batches := Chunk(toUpdate, 100);
    updated, errors := 0, 0;
    for i := 0 to |batches|
      invariant updated == UpdateCounts(batches[..i], writeOk, apply).0
      invariant errors == UpdateCounts(batches[..i], writeOk, apply).1
    {
      UpdateCountsSnoc(batches, i, writeOk, apply);
      var step := UpdateBatch(batches[i], writeOk, apply);
      updated, errors := updated + step.0, errors + step.1;
    }
    assert batches[..|batches|] == batches;
  }

  lemma UpdateCountsSnoc(bs: seq<seq<StockChange>>, i: nat, writeOk: StockChange -> bool,
                         apply: seq<StockChange> -> ApplyReply)
    requires i < |bs|
    ensures var prev := UpdateCounts(bs[..i], writeOk, apply);
      var step := UpdateBatch(bs[i], writeOk, apply);
      UpdateCounts(bs[..i + 1], writeOk, apply) == (prev.0 + step.0, prev.1 + step.1)
  {
    assert bs[..i + 1][..i] == bs[..i];
  }
}
