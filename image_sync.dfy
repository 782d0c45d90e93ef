// The image part of the ERP → Odoo inventory sync: fingerprints of the ERP
// images, the choice of products whose image must be uploaded, the
// sanitised IN-list of the blob query and the counting of the uploads.
module ImageSync {
  import opened Wrappers
  import opened Text
  import opened Seqs
  import opened OrderedMap
  import opened Batches
  import opened InventorySync

  // ---------------------------------------------------------------- fingerprints

  /** The latest main image of one active ERP article: its size in bytes and
   *  its date, as text. */
  datatype ImageMeta = ImageMeta(articuloId: string, imgSize: int, fecha: string)

  /** `${img_size}|${Fecha}`. */
  function Fingerprint(size: int, fecha: string): string
  {
    IntToString(size) + "|" + fecha
  }

  lemma NoBarInNumber(n: int)
    ensures '|' !in IntToString(n)
  {
    var d := NatToString(if n < 0 then -n else n);
    assert forall k :: 0 <= k < |d| ==> IsDigit(d[k]);
    if n < 0 {
      assert IntToString(n) == "-" + d;
    }
  }

  /** Two images with the same fingerprint have the same size and date: the
   *  fingerprint changes whenever either does. */
  lemma FingerprintInjective(s1: int, f1: string, s2: int, f2: string)
    requires Fingerprint(s1, f1) == Fingerprint(s2, f2)
    ensures s1 == s2 && f1 == f2
  {
    var fp := Fingerprint(s1, f1);
    var p1, p2 := IntToString(s1), IntToString(s2);
    NoBarInNumber(s1);
    NoBarInNumber(s2);
    IndexOfAfterPrefix(p1, '|', f1);
    IndexOfAfterPrefix(p2, '|', f2);
    assert p1 == fp[..|p1|] && p2 == fp[..|p2|];
    assert f1 == fp[|p1| + 1..] && f2 == fp[|p2| + 1..];
    ParseIntOfIntToString(s1);
    ParseIntOfIntToString(s2);
  }

  function FpEntry(row: ImageMeta): Option<(string, string)>
  {
    var sku := Trim(row.articuloId);
    if sku == "" then None else Some((sku, Fingerprint(row.imgSize, row.fecha)))
  }

  /** `mssqlFpMap`: SKU → fingerprint; a repeated SKU keeps its last row. */
  function MssqlFingerprints(meta: seq<ImageMeta>): (r: OMap<string, string>)
    ensures Valid(r)
  {
    PutCollected(meta, FpEntry)
  }

  /** A product as the image sync reads it: id, internal reference and the
   *  fingerprint stored with its current image ("" when it has none). */
  datatype OdooImage = OdooImage(id: int, defaultCode: string, imageFp: string)

  function OdooFpEntry(p: OdooImage): Option<(string, (int, string))>
  {
    var code := Trim(p.defaultCode);
    if code == "" then None else Some((code, (p.id, Trim(p.imageFp))))
  }

  /** `odooFpMap`: reference → (product id, stored fingerprint). */
  function OdooFingerprints(products: seq<OdooImage>): (r: OMap<string, (int, string)>)
    ensures Valid(r)
  {
    PutCollected(products, OdooFpEntry)
  }

  // ---------------------------------------------------------------- selection

  /** The article is active, its product is in Odoo, and the stored
   *  fingerprint is not the ERP one. */
  predicate Wanted(am: OMap<string, Article>, mf: OMap<string, string>, of: OMap<string, (int, string)>, sku: string)
  {
    sku in am.m && sku in mf.m && sku in of.m && of.m[sku].1 != mf.m[sku]
  }

  function WantedIn(am: OMap<string, Article>, mf: OMap<string, string>, of: OMap<string, (int, string)>)
    : string -> bool
  {
    (sku: string) => Wanted(am, mf, of, sku)
  }

  /** `needUpload`: the wanted SKUs in ERP image order. */
  function NeedUpload(am: OMap<string, Article>, mf: OMap<string, string>, of: OMap<string, (int, string)>)
    : seq<string>
  {
    Filter(mf.keys, WantedIn(am, mf, of))
  }

  /** A SKU is selected exactly when it is wanted, and none twice. */
  lemma NeedUploadExactly(am: OMap<string, Article>, mf: OMap<string, string>, of: OMap<string, (int, string)>,
                          sku: string)
    requires Valid(mf)
    ensures sku in NeedUpload(am, mf, of) <==> Wanted(am, mf, of, sku)
    ensures Distinct(NeedUpload(am, mf, of))
  {
    FilterKeepsDistinct(mf.keys, WantedIn(am, mf, of));
    if Wanted(am, mf, of, sku) {
      assert sku in Elems(mf.keys);
      FilterComplete(mf.keys, WantedIn(am, mf, of), sku);
    }
  }

  /** The selection loop of `syncImages`. */
  method SelectUploads(am: OMap<string, Article>, mf: OMap<string, string>, of: OMap<string, (int, string)>)
    returns (needUpload: seq<string>)
    requires Valid(mf)
    ensures needUpload == NeedUpload(am, mf, of)
  {
    needUpload := [];
    for i := 0 to |mf.keys|
      invariant needUpload == Filter(mf.keys[..i], WantedIn(am, mf, of))
    {
      FilterSnoc(mf.keys, WantedIn(am, mf, of), i);
      var sku := mf.keys[i];
      assert sku in Elems(mf.keys);
      var mssqlFp := mf.m[sku];
      if sku !in am.m {
        continue;
      }
      var odoo := Get(of, sku);
      if odoo.None? {
        continue;
      }
      if odoo.value.1 == mssqlFp {
        continue;
      }
      needUpload := needUpload + [sku];
    }
    assert mf.keys[..|mf.keys|] == mf.keys;
  }

  // ---------------------------------------------------------------- blob query

  predicate IsAsciiAlnum(c: char)
  {
    ('a' <= c <= 'z') || ('A' <= c <= 'Z') || ('0' <= c <= '9')
  }

  /** `id.replace(/[^a-zA-Z0-9]/g, '')`. */
  function SanitizeId(id: string): (r: string)
    ensures forall k :: 0 <= k < |r| ==> IsAsciiAlnum(r[k])
  {
    Filter(id, IsAsciiAlnum)
  }

  /** An id already made of letters and digits is left as it is. */
  lemma {:induction false} SanitizeKeepsAlnum(id: string)
    requires forall k :: 0 <= k < |id| ==> IsAsciiAlnum(id[k])
    ensures SanitizeId(id) == id
    decreases |id|
  {
    if id != [] {
      SanitizeKeepsAlnum(id[..|id| - 1]);
      assert id[..|id| - 1] + [id[|id| - 1]] == id;
    }
  }

  function Quoted(id: string): string
  {
    "'" + SanitizeId(id) + "'"
  }

  /** The characters the IN-list may contain. */
  predicate ListChar(c: char)
  {
    IsAsciiAlnum(c) || c == '\'' || c == ','
  }

  /** The `IN (…)` list of the blob query, or no query at all for no ids. */
  function InList(ids: seq<string>): Option<string>
  {
    if ids == [] then None else Some(Join(MapSeq(ids, Quoted), ","))
  }

  lemma {:induction false} JoinListChars(parts: seq<string>)
    requires forall i, k :: 0 <= i < |parts| && 0 <= k < |parts[i]| ==> ListChar(parts[i][k])
    ensures forall k :: 0 <= k < |Join(parts, ",")| ==> ListChar(Join(parts, ",")[k])
    decreases |parts|
  {
    if |parts| > 1 {
      JoinListChars(parts[1..]);
      assert forall i, k :: 0 <= i < |parts[1..]| && 0 <= k < |parts[1..][i]| ==> ListChar(parts[1..][i][k]) by {
        forall i, k | 0 <= i < |parts[1..]| && 0 <= k < |parts[1..][i]| ensures ListChar(parts[1..][i][k]) {
          assert parts[1..][i] == parts[i + 1];
        }
      }
      var t := Join(parts[1..], ",");
      assert Join(parts, ",") == parts[0] + "," + t;
      forall k | 0 <= k < |Join(parts, ",")| ensures ListChar(Join(parts, ",")[k]) {
        if k < |parts[0]| {
          assert Join(parts, ",")[k] == parts[0][k];
        } else if k > |parts[0]| {
          assert Join(parts, ",")[k] == t[k - |parts[0]| - 1];
        }
      }
    } else if |parts| == 1 {
      assert Join(parts, ",") == parts[0];
    }
  }

  lemma QuotedChars(id: string)
    ensures forall k :: 0 <= k < |Quoted(id)| ==> ListChar(Quoted(id)[k])
    ensures ',' !in Quoted(id)
  {
    var s := SanitizeId(id);
    assert forall k :: 0 <= k < |Quoted(id)| ==> Quoted(id)[k] == '\'' || Quoted(id)[k] == s[k - 1];
  }

  /** The IN-list holds only letters, digits, quotes and commas, and splits
   *  back at its commas into one quoted, sanitised literal per id: no id can
   *  break out of its literal. */
  lemma InListSafe(ids: seq<string>)
    requires ids != []
    ensures var l := InList(ids).value;
      (forall k :: 0 <= k < |l| ==> ListChar(l[k])) && Split(l, ',') == MapSeq(ids, Quoted)
  {
    var parts := MapSeq(ids, Quoted);
    forall i | 0 <= i < |parts| ensures (forall k :: 0 <= k < |parts[i]| ==> ListChar(parts[i][k])) && ',' !in parts[i] {
      QuotedChars(ids[i]);
    }
    JoinListChars(parts);
    SplitJoin(parts, ',');
  }

  // ---------------------------------------------------------------- uploads

  /** Uploads from one batch: none when the blob query fails, otherwise the
   *  SKUs whose blob came back, whose product is known and whose write
   *  succeeds. */
  function BatchUploads(b: seq<string>, of: OMap<string, (int, string)>, fetch: seq<string> -> Option<set<string>>,
                        writeOk: string -> bool): nat
  {
    if fetch(b).None? then 0 else Count(b, UploadsOk(fetch(b).value, of, writeOk))
  }

  function UploadsOk(blobs: set<string>, of: OMap<string, (int, string)>, writeOk: string -> bool): string -> bool
  {
    (sku: string) => sku in blobs && sku in of.m && writeOk(sku)
  }

  function Uploads(bs: seq<seq<string>>, of: OMap<string, (int, string)>, fetch: seq<string> -> Option<set<string>>,
                   writeOk: string -> bool): nat
    decreases |bs|
  {
    if bs == [] then 0 else Uploads(bs[..|bs| - 1], of, fetch, writeOk) + BatchUploads(bs[|bs| - 1], of, fetch, writeOk)
  }

  lemma {:induction false} UploadsAtMost(bs: seq<seq<string>>, of: OMap<string, (int, string)>,
                                         fetch: seq<string> -> Option<set<string>>, writeOk: string -> bool)
    ensures Uploads(bs, of, fetch, writeOk) <= |Flatten(bs)|
    decreases |bs|
  {
    if bs != [] {
      UploadsAtMost(bs[..|bs| - 1], of, fetch, writeOk);
    }
  }

  /** The upload loop of `syncImages` (blob batches of 10), with the blob
   *  query and the writes as parameters: nothing in a dry run, otherwise
   *  every selected SKU counts once, as uploaded or as failed. */
  method UploadImages(needUpload: seq<string>, of: OMap<string, (int, string)>, dryRun: bool,
                      fetch: seq<string> -> Option<set<string>>, writeOk: string -> bool)
    returns (uploaded: nat, failed: nat)
    ensures dryRun ==> uploaded == 0 && failed == 0
    ensures !dryRun ==> uploaded == Uploads(Chunks(needUpload, 10), of, fetch, writeOk)
    ensures !dryRun ==> uploaded + failed == |needUpload|
  {
    uploaded, failed := 0, 0;
    if |needUpload| == 0 || dryRun {
      return;
    }
    var batches := Chunk(needUpload, 10);
    for i := 0 to |batches|
      invariant uploaded == Uploads(batches[..i], of, fetch, writeOk)
      invariant uploaded + failed == |Flatten(batches[..i])|
    {
      assert batches[..i + 1][..i] == batches[..i];
      var b := batches[i];
      var blobs := fetch(b);
      if blobs.None? {
        failed := failed + |b|;
      } else {
        var ok := UploadBatch(b, blobs.value, of, writeOk);
        uploaded, failed := uploaded + ok, failed + (|b| - ok);
      }
    }
    assert batches[..|batches|] == batches;
    ChunksProperties(needUpload, 10);
  }

  /** `for (const sku of blobBatch)`: a SKU without blob or product, or whose
   *  write fails, is a failure. */
  method UploadBatch(b: seq<string>, blobs: set<string>, of: OMap<string, (int, string)>, writeOk: string -> bool)
    returns (ok: nat)
    ensures ok == Count(b, UploadsOk(blobs, of, writeOk)) <= |b|
  {
    ok := 0;
    for j := 0 to |b|
      invariant ok == Count(b[..j], UploadsOk(blobs, of, writeOk))
    {
      FilterSnoc(b, UploadsOk(blobs, of, writeOk), j);
      var sku := b[j];
      if sku !in blobs || Get(of, sku).None? {
        continue;
      }
      if writeOk(sku) {
        ok := ok + 1;
      }
    }
    assert b[..|b|] == b;
  }
}
