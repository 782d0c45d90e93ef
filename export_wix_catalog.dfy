// The catalogue export script: fetch every product page by page, then build
// the same CSV lines as the full-export script. The HTTPS request is not
// part of the model: `fetch(offset)` is the page of products the stores API
// returns for that offset (an unreadable answer, which rejects, is left
// out). The pause between requests and the console lines are left out too.
module ExportWixCatalog {
  import opened Text
  import opened Seqs
  import opened WixCatalog

  const BatchSize := 100

  /** The pages answered for the requested offsets, in request order. */
  function Batches(fetch: nat -> seq<Product>, offsets: seq<nat>): (r: seq<seq<Product>>)
    ensures |r| == |offsets|
    ensures forall k :: 0 <= k < |offsets| ==> r[k] == fetch(offsets[k])
  {
    seq(|offsets|, k requires 0 <= k < |offsets| => fetch(offsets[k]))
  }

  /** The loop of `main`: the first page is always requested; another one
   *  is requested while the last page was exactly full, and an empty page
   *  ends the loop. `size` is a ghost bound past which the catalogue has no
   *  products (the loop stops only because the catalogue is finite). */
  method FetchAll(fetch: nat -> seq<Product>, ghost size: nat) returns (offsets: seq<nat>, all: seq<Product>)
    requires forall o: nat :: o >= size ==> fetch(o) == []
    ensures |offsets| >= 1
    ensures forall k :: 0 <= k < |offsets| ==> offsets[k] == k * BatchSize
    ensures forall k :: 0 <= k < |offsets| - 1 ==> |fetch(offsets[k])| == BatchSize
    ensures |fetch(offsets[|offsets| - 1])| != BatchSize
    ensures all == Flatten(Batches(fetch, offsets))
  {
    var first := fetch(0);
    all := first;
    offsets := [0];
    var offset := BatchSize;
    var hasMore := |first| == BatchSize;
    assert Batches(fetch, offsets) == [first];
    assert Flatten([first]) == Flatten([first][..0]) + first;
    while hasMore
      invariant |offsets| >= 1
      invariant forall k :: 0 <= k < |offsets| ==> offsets[k] == k * BatchSize
      invariant forall k :: 0 <= k < |offsets| - 1 ==> |fetch(offsets[k])| == BatchSize
      invariant hasMore <==> |fetch(offsets[|offsets| - 1])| == BatchSize
      invariant hasMore ==> offset == |offsets| * BatchSize
      invariant offset <= size + BatchSize
      invariant all == Flatten(Batches(fetch, offsets))
      decreases size + BatchSize - offset, hasMore
    {
      var batch := fetch(offset);
      assert Batches(fetch, offsets + [offset]) == Batches(fetch, offsets) + [batch];
      FlattenSnoc(Batches(fetch, offsets), batch);
      offsets := offsets + [offset];
      if |batch| > 0 {
        all := all + batch;
        offset := offset + BatchSize;
        hasMore := |batch| == BatchSize;
      } else {
        hasMore := false;
      }
    }
  }

  /** The page a server paging through a fixed catalogue answers:
   *  `limit` 100 from `offset`. */
  function Page(catalog: seq<Product>, offset: nat): (r: seq<Product>)
    ensures |r| <= BatchSize
    ensures offset + BatchSize <= |catalog| ==> r == catalog[offset..offset + BatchSize]
    ensures offset >= |catalog| ==> r == []
  {
    if offset >= |catalog| then []
    else if offset + BatchSize <= |catalog| then catalog[offset..offset + BatchSize]
    else catalog[offset..]
  }

  /** Requests that satisfy the loop's stopping rule against a fixed
   *  catalogue collect the whole catalogue, in order, exactly once. */
  lemma PagesCoverCatalog(catalog: seq<Product>, offsets: seq<nat>)
    requires |offsets| >= 1
    requires forall k :: 0 <= k < |offsets| ==> offsets[k] == k * BatchSize
    requires forall k :: 0 <= k < |offsets| - 1 ==> |Page(catalog, offsets[k])| == BatchSize
    requires |Page(catalog, offsets[|offsets| - 1])| != BatchSize
    ensures Flatten(Batches((o: nat) => Page(catalog, o), offsets)) == catalog
  {
    var n := |offsets|;
    PagesPrefix(catalog, offsets, n);
    var last := (n - 1) * BatchSize;
    assert offsets[n - 1] == last;
    assert last + BatchSize > |catalog|;
    assert n * BatchSize == last + BatchSize;
    assert Batches((o: nat) => Page(catalog, o), offsets)[..n] == Batches((o: nat) => Page(catalog, o), offsets);
  }

  /** The first `j` pages are the catalogue up to offset `j * 100`. */
  lemma {:induction false} PagesPrefix(catalog: seq<Product>, offsets: seq<nat>, j: nat)
    requires j <= |offsets|
    requires forall k :: 0 <= k < |offsets| ==> offsets[k] == k * BatchSize
    requires forall k :: 0 <= k < |offsets| - 1 ==> |Page(catalog, offsets[k])| == BatchSize
    ensures j * BatchSize <= |catalog| + BatchSize
    ensures Flatten(Batches((o: nat) => Page(catalog, o), offsets)[..j])
            == catalog[..if j * BatchSize <= |catalog| then j * BatchSize else |catalog|]
    decreases j
  {
    var fetch := (o: nat) => Page(catalog, o);
    var b := Batches(fetch, offsets);
    if j == 0 {
      assert b[..0] == [];
    } else {
      PagesPrefix(catalog, offsets, j - 1);
      var o := offsets[j - 1];
      NextOffset(j - 1);
      if j >= 2 {
        NextOffset(j - 2);
        assert offsets[j - 2] + BatchSize == o;
        assert |Page(catalog, offsets[j - 2])| == BatchSize;
      }
      assert b[..j] == b[..j - 1] + [b[j - 1]];
      FlattenSnoc(b[..j - 1], b[j - 1]);
      PageExtends(catalog, o);
    }
  }

  lemma NextOffset(n: nat)
    ensures n * BatchSize + BatchSize == (n + 1) * BatchSize
  {
  }

  /** One more page extends a prefix of the catalogue by up to 100 products. */
  lemma PageExtends(catalog: seq<Product>, o: nat)
    requires o <= |catalog|
    ensures catalog[..o] + Page(catalog, o)
            == catalog[..if o + BatchSize <= |catalog| then o + BatchSize else |catalog|]
  {
    if o + BatchSize <= |catalog| {
      assert catalog[..o] + catalog[o..o + BatchSize] == catalog[..o + BatchSize];
    } else {
      assert catalog[..o] + catalog[o..] == catalog;
    }
  }

  /** The whole script: fetch every page, then the header and one line per
   *  product, joined by newlines. */
  method Export(fetch: nat -> seq<Product>, ghost size: nat, show: real -> string)
    returns (offsets: seq<nat>, all: seq<Product>, rows: seq<string>, content: string)
    requires forall o: nat :: o >= size ==> fetch(o) == []
    ensures |offsets| >= 1
    ensures forall k :: 0 <= k < |offsets| ==> offsets[k] == k * BatchSize
    ensures forall k :: 0 <= k < |offsets| - 1 ==> |fetch(offsets[k])| == BatchSize
    ensures |fetch(offsets[|offsets| - 1])| != BatchSize
    ensures all == Flatten(Batches(fetch, offsets))
    ensures |rows| == |all| + 1 && rows[0] == Header
    ensures forall i :: 0 <= i < |all| ==> rows[i + 1] == Row(all[i], show)
    ensures content == Join(rows, "\n")
  {
    offsets, all := FetchAll(fetch, size);
    rows := BuildRows(all, (p: Product) => Row(p, show));
    content := Join(rows, "\n");
  }
}
