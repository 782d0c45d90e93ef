// The SQLite settings table: one row per key with its value, category,
// description and last-update time; seeding that never overwrites, the typed
// getters, the upserts and the delete.
module SettingsDb {
  import opened Wrappers
  import opened Text
  import opened Seqs
  import Sorting

  /** A row of the `settings` table (the key is the map's key). */
  datatype Setting = Setting(value: string, category: string, description: string, updatedAt: string)

  /** A row offered for seeding. */
  datatype DefaultSetting = DefaultSetting(key: string, value: string, category: string, description: string)

  /** The rows the service seeds whenever it opens the database. */
  const Defaults: seq<DefaultSetting> := [
    DefaultSetting("timezone", "America/Los_Angeles", "general",
      "Zona horaria del sistema (IANA)"),
    DefaultSetting("log_level", "info", "general",
      "Nivel de log: debug, info, warn, error"),
    DefaultSetting("sucursal_wix", "101", "general",
      "ID de sucursal para Wix"),
    DefaultSetting("smtp.port", "587", "smtp",
      "Puerto del servidor SMTP"),
    DefaultSetting("smtp.secure", "false", "smtp",
      "Usar TLS para SMTP (true/false)"),
    DefaultSetting("smtp.from", "", "smtp",
      "Dirección de remitente para correos"),
    DefaultSetting("emails.marketing", "", "emails",
      "Destinatarios generales de marketing (fallback). Separar con coma."),
    DefaultSetting("emails.abandoned_carts", "", "emails",
      "Destinatarios del reporte de carritos abandonados. Separar con coma."),
    DefaultSetting("emails.chat_leads", "", "emails",
      "Destinatarios del reporte de leads del chat. Separar con coma."),
    DefaultSetting("emails.chat_analysis", "", "emails",
      "Destinatarios del reporte de análisis del chat. Separar con coma."),
    DefaultSetting("emails.erp_postgres_sync", "", "emails",
      "Destinatarios del reporte de sincronización ERP→PostgreSQL. Separar con coma."),
    DefaultSetting("mssql.port", "1433", "mssql",
      "Puerto del servidor MSSQL"),
    DefaultSetting("mssql.database", "LDCOM_PROCONSA", "mssql",
      "Base de datos MSSQL"),
    DefaultSetting("mssql.encrypt", "false", "mssql",
      "Encriptar conexión MSSQL (true/false)"),
    DefaultSetting("mssql.trust_server_cert", "true", "mssql",
      "Confiar en certificado del servidor MSSQL (true/false)"),
    DefaultSetting("mssql.emp_id", "1", "mssql",
      "ID de empleado para consultas MSSQL"),
    DefaultSetting("pg.port", "5432", "pg",
      "Puerto del servidor PostgreSQL"),
    DefaultSetting("pg.database", "prices", "pg",
      "Base de datos PostgreSQL"),
    DefaultSetting("odoo.livechat_channel_id", "1", "odoo",
      "ID del canal de livechat en Odoo"),
    DefaultSetting("odoo.reports_dir", "./reports", "odoo",
      "Directorio para reportes generados"),
    DefaultSetting("odoo.stock_write_concurrency", "6", "odoo",
      "Concurrencia de escritura de stock en Odoo"),
    DefaultSetting("odoo.stock_write_retries", "4", "odoo",
      "Reintentos de escritura de stock en Odoo"),
    DefaultSetting("odoo.product_write_concurrency", "10", "odoo",
      "Concurrencia de escritura de productos en Odoo"),
    DefaultSetting("odoo.product_write_retries", "3", "odoo",
      "Reintentos de escritura de productos en Odoo"),
    DefaultSetting("odoo.rpc_timeout_ms", "300000", "odoo",
      "Timeout de RPC en milisegundos"),
    DefaultSetting("wix.min_stock_threshold", "10", "wix",
      "Umbral mínimo de stock total. Si el stock sumado de todas las sucursales es menor a este valor, se pone en 0 en Wix."),
    DefaultSetting("wix.dry_run", "true", "wix",
      "Modo prueba: no escribe en Wix (true/false). Cambiar a false para activar sincronización real."),
    DefaultSetting("wix.branch_prefix", "1", "wix",
      "Prefijo de sucursales a incluir en suma de stock (ej: \"1\" para Mexicali, \"4\" para Hermosillo)."),
    DefaultSetting("erp_odoo.dry_run", "false", "erp_odoo",
      "Modo prueba: no escribe en Odoo (true/false)"),
    DefaultSetting("erp_odoo.max_inventory_rows", "50000", "erp_odoo",
      "Máximo de filas de inventario por ejecución"),
    DefaultSetting("erp_odoo.max_product_rows", "20000", "erp_odoo",
      "Máximo de filas de productos por ejecución"),
    DefaultSetting("erp_odoo.max_image_rows", "3000", "erp_odoo",
      "Máximo de filas de imágenes por ejecución"),
    DefaultSetting("state_dir", "./state", "general",
      "Directorio para archivos de estado (watermarks, snapshots)")
  ]

  // ---------------------------------------------------------------- seeding

  /** `INSERT OR IGNORE` of one row: a key already present is left alone. */
  function InsertOrIgnore(rows: map<string, Setting>, d: DefaultSetting, now: string): map<string, Setting>
  {
    if d.key in rows then rows else rows[d.key := Setting(d.value, d.category, d.description, now)]
  }

  /** The table after offering every row of `ds` in order. */
  function Seeded(rows: map<string, Setting>, ds: seq<DefaultSetting>, now: string): map<string, Setting>
    decreases |ds|
  {
    if ds == [] then rows else InsertOrIgnore(Seeded(rows, ds[..|ds| - 1], now), ds[|ds| - 1], now)
  }

  /** The keys a list of rows offers. */
  function KeysOf(ds: seq<DefaultSetting>): set<string>
  {
    set i | 0 <= i < |ds| :: ds[i].key
  }

  lemma KeysOfSnoc(ds: seq<DefaultSetting>, i: nat)
    requires i < |ds|
    ensures KeysOf(ds[..i + 1]) == KeysOf(ds[..i]) + {ds[i].key}
  {
    assert ds[..i + 1][i] == ds[i];
    forall k | k in KeysOf(ds[..i + 1]) ensures k in KeysOf(ds[..i]) + {ds[i].key} {
      var j :| 0 <= j < i + 1 && ds[..i + 1][j].key == k;
      if j < i {
        assert ds[..i][j] == ds[j];
      }
    }
    forall k | k in KeysOf(ds[..i]) ensures k in KeysOf(ds[..i + 1]) {
      var j :| 0 <= j < i && ds[..i][j].key == k;
      assert ds[..i + 1][j] == ds[j];
    }
  }

  lemma SeededSnoc(rows: map<string, Setting>, ds: seq<DefaultSetting>, now: string, i: nat)
    requires i < |ds|
    ensures Seeded(rows, ds[..i + 1], now) == InsertOrIgnore(Seeded(rows, ds[..i], now), ds[i], now)
  {
    assert ds[..i + 1][..i] == ds[..i];
    assert ds[..i + 1][i] == ds[i];
  }

  /** Seeding adds exactly the offered keys. */
  lemma {:induction false} SeededKeys(rows: map<string, Setting>, ds: seq<DefaultSetting>, now: string)
    ensures Seeded(rows, ds, now).Keys == rows.Keys + KeysOf(ds)
    decreases |ds|
  {
    if ds != [] {
      var n := |ds| - 1;
      SeededKeys(rows, ds[..n], now);
      SeededSnoc(rows, ds, now, n);
      KeysOfSnoc(ds, n);
      assert ds[..n + 1] == ds;
    }
  }

  /** A key already in the table keeps its row. */
  lemma {:induction false} SeededKeeps(rows: map<string, Setting>, ds: seq<DefaultSetting>, now: string, k: string)
    requires k in rows
    ensures k in Seeded(rows, ds, now) && Seeded(rows, ds, now)[k] == rows[k]
    decreases |ds|
  {
    if ds != [] {
      SeededKeeps(rows, ds[..|ds| - 1], now, k);
    }
  }

  lemma {:induction false} SeededConcat(rows: map<string, Setting>, a: seq<DefaultSetting>, b: seq<DefaultSetting>, now: string)
    ensures Seeded(rows, a + b, now) == Seeded(Seeded(rows, a, now), b, now)
    decreases |b|
  {
    if b == [] {
      assert a + b == a;
    } else {
      var n := |b| - 1;
      SeededConcat(rows, a, b[..n], now);
      assert (a + b)[..|a + b| - 1] == a + b[..n];
      assert (a + b)[|a + b| - 1] == b[n];
    }
  }

  /** A new key gets the first row offered for it. */
  lemma SeededFirst(rows: map<string, Setting>, ds: seq<DefaultSetting>, now: string, i: nat)
    requires i < |ds| && ds[i].key !in rows && ds[i].key !in KeysOf(ds[..i])
    ensures ds[i].key in Seeded(rows, ds, now)
    ensures Seeded(rows, ds, now)[ds[i].key] == Setting(ds[i].value, ds[i].category, ds[i].description, now)
  {
    var k := ds[i].key;
    SeededKeys(rows, ds[..i], now);
    SeededSnoc(rows, ds, now, i);
    var mid := Seeded(rows, ds[..i + 1], now);
    assert mid[k] == Setting(ds[i].value, ds[i].category, ds[i].description, now);
    SeededConcat(rows, ds[..i + 1], ds[i + 1..], now);
    assert ds[..i + 1] + ds[i + 1..] == ds;
    SeededKeeps(mid, ds[i + 1..], now, k);
  }

  /** Offering only keys the table already has changes nothing. */
  lemma {:induction false} SeededPresent(rows: map<string, Setting>, ds: seq<DefaultSetting>, now: string)
    requires KeysOf(ds) <= rows.Keys
    ensures Seeded(rows, ds, now) == rows
    decreases |ds|
  {
    if ds != [] {
      var n := |ds| - 1;
      KeysOfSnoc(ds, n);
      assert ds[..n + 1] == ds;
      SeededPresent(rows, ds[..n], now);
    }
  }

  /** Seeding twice is seeding once: a second run inserts nothing. */
  lemma SeedIdempotent(rows: map<string, Setting>, ds: seq<DefaultSetting>, now: string, later: string)
    ensures KeysOf(ds) - Seeded(rows, ds, now).Keys == {}
    ensures Seeded(Seeded(rows, ds, now), ds, later) == Seeded(rows, ds, now)
  {
    SeededKeys(rows, ds, now);
    SeededPresent(Seeded(rows, ds, now), ds, later);
  }

  lemma NewKeyCounts(offered: set<string>, stored: set<string>, k: string)
    requires k !in offered && k !in stored
    ensures |(offered + {k}) - stored| == |offered - stored| + 1
  {
    assert (offered + {k}) - stored == (offered - stored) + {k};
  }

  lemma OldKeyCounts(offered: set<string>, stored: set<string>, k: string)
    requires k in offered || k in stored
    ensures (offered + {k}) - stored == offered - stored
  {
  }

  /** An offered key counts as inserted exactly when the table lacks it. */
  lemma NewKeyStep(start: map<string, Setting>, ds: seq<DefaultSetting>, now: string, i: nat)
    requires i < |ds|
    ensures |KeysOf(ds[..i + 1]) - start.Keys| ==
      |KeysOf(ds[..i]) - start.Keys| + (if ds[i].key in Seeded(start, ds[..i], now) then 0 else 1)
  {
    SeededKeys(start, ds[..i], now);
    KeysOfSnoc(ds, i);
    var k := ds[i].key;
    var offered, stored := KeysOf(ds[..i]), start.Keys;
    if k in Seeded(start, ds[..i], now) {
      OldKeyCounts(offered, stored, k);
    } else {
      NewKeyCounts(offered, stored, k);
    }
  }

  /** One `insert.run(d)` of the seeding loop, with its count. */
  method SeedOne(start: map<string, Setting>, ds: seq<DefaultSetting>, now: string, i: nat,
                 table: map<string, Setting>, inserted: nat, skipped: nat)
    returns (table': map<string, Setting>, inserted': nat, skipped': nat)
    requires i < |ds| && table == Seeded(start, ds[..i], now)
    requires inserted == |KeysOf(ds[..i]) - start.Keys| && inserted + skipped == i
    ensures table' == Seeded(start, ds[..i + 1], now)
    ensures inserted' == |KeysOf(ds[..i + 1]) - start.Keys| && inserted' + skipped' == i + 1
  {
    SeededSnoc(start, ds, now, i);
    NewKeyStep(start, ds, now, i);
    var d := ds[i];
    if d.key !in table {
      table', inserted', skipped' := table[d.key := Setting(d.value, d.category, d.description, now)], inserted + 1, skipped;
    } else {
      table', inserted', skipped' := table, inserted, skipped + 1;
    }
  }

  /** The seeding loop over a table. */
  method SeedRows(start: map<string, Setting>, ds: seq<DefaultSetting>, now: string)
    returns (table: map<string, Setting>, inserted: nat, skipped: nat)
    ensures table == Seeded(start, ds, now)
    ensures inserted == |KeysOf(ds) - start.Keys|
    ensures inserted + skipped == |ds|
  {
    table, inserted, skipped := start, 0, 0;
    for i := 0 to |ds|
      invariant table == Seeded(start, ds[..i], now)
      invariant inserted == |KeysOf(ds[..i]) - start.Keys|
      invariant inserted + skipped == i
    {
      table, inserted, skipped := SeedOne(start, ds, now, i, table, inserted, skipped);
    }
    assert ds[..|ds|] == ds;
  }

  // ---------------------------------------------------------------- values

  /** `getSettingInt`'s parse: `parseInt(value, 10)`, NaN giving the fallback. */
  function IntOf(value: string, fallback: int): int
  {
    var p := ParseInt(value);
    if p.Some? then p.value else fallback
  }

  /** An integer stored as text reads back as itself. */
  lemma IntOfRoundTrip(n: int, fallback: int)
    ensures IntOf(IntToString(n), fallback) == n
  {
    ParseIntOfIntToString(n);
  }

  /** `String(true)` / `String(false)`. */
  function BoolText(b: bool): string
  {
    if b then "true" else "false"
  }

  predicate BoolOf(value: string)
  {
    value == "true" || value == "1"
  }

  lemma BoolOfRoundTrip(b: bool)
    ensures BoolOf(BoolText(b)) == b
  {
  }

  predicate NonBlank(s: string)
  {
    s != ""
  }

  /** `value.split(',').map(s => s.trim()).filter(Boolean)`. */
  function ListOf(value: string): seq<string>
  {
    Filter(MapSeq(Split(value, ','), Trim), NonBlank)
  }

  /** The entries are non-empty, have no surrounding whitespace and no comma. */
  lemma ListOfClean(value: string)
    ensures forall x :: x in ListOf(value) ==>
      x != "" && !IsSpace(x[0]) && !IsSpace(x[|x| - 1]) && ',' !in x
  {
    var pieces := Split(value, ',');
    forall x | x in ListOf(value)
      ensures x != "" && !IsSpace(x[0]) && !IsSpace(x[|x| - 1]) && ',' !in x
    {
      var i :| 0 <= i < |pieces| && MapSeq(pieces, Trim)[i] == x;
      assert x == Trim(pieces[i]) && ',' !in pieces[i];
      assert forall c :: c in x ==> c in pieces[i] by {
        TrimSubsequence(pieces[i]);
      }
    }
  }

  lemma TrimSubsequence(s: string)
    ensures forall c :: c in Trim(s) ==> c in s
  {
    var t := TrimStart(s);
    assert forall c :: c in t ==> c in s;
    assert forall c :: c in TrimEnd(t) ==> c in t;
  }

  lemma {:induction false} FilterAll<T>(s: seq<T>, p: T -> bool)
    requires forall i :: 0 <= i < |s| ==> p(s[i])
    ensures Filter(s, p) == s
    decreases |s|
  {
    if s != [] {
      FilterAll(s[..|s| - 1], p);
      assert s[..|s| - 1] + [s[|s| - 1]] == s;
    }
  }

  lemma ListOfEmpty()
    ensures ListOf("") == []
  {
    assert Split("", ',') == [""];
    assert Trim("") == "";
    assert MapSeq([""], Trim) == [""];
  }

  lemma MapTrimTrimmed(items: seq<string>)
    requires forall i :: 0 <= i < |items| ==> Trim(items[i]) == items[i]
    ensures MapSeq(items, Trim) == items
  {
  }

  /** A list written as its comma-joined entries reads back as itself. */
  lemma ListOfRoundTrip(items: seq<string>)
    requires forall i :: 0 <= i < |items| ==>
      items[i] != "" && Trim(items[i]) == items[i] && ',' !in items[i]
    ensures ListOf(Join(items, ",")) == items
  {
    if items == [] {
      ListOfEmpty();
    } else {
      SplitJoin(items, ',');
      MapTrimTrimmed(items);
      FilterAll(items, NonBlank);
    }
  }

  /** Tasks that mail a report; each has its own recipient list. */
  datatype ReportTask = AbandonedCarts | ChatLeads | ChatAnalysis | ErpPostgresSync

  function TaskKey(t: ReportTask): string
  {
    match t
    case AbandonedCarts => "emails.abandoned_carts"
    case ChatLeads => "emails.chat_leads"
    case ChatAnalysis => "emails.chat_analysis"
    case ErpPostgresSync => "emails.erp_postgres_sync"
  }

  const MarketingKey := "emails.marketing"

  /** The table after `setSetting(key, value)`: an existing row keeps its
   *  category and description, a new one gets 'general' and ''. */
  function Upsert(rows: map<string, Setting>, key: string, value: string, now: string): (r: map<string, Setting>)
    ensures key in r && r[key].value == value && r[key].updatedAt == now
    ensures r.Keys == rows.Keys + {key}
    ensures forall k :: k in rows && k != key ==> r[k] == rows[k]
    ensures key in rows ==> r[key].category == rows[key].category && r[key].description == rows[key].description
  {
    rows[key := if key in rows then rows[key].(value := value, updatedAt := now) else Setting(value, "general", "", now)]
  }

  /** The strictly increasing code-unit order that `ORDER BY` gives text. */
  function TextOrder(s: string): seq<int>
  {
    Sorting.CharCodes(s)
  }

  // ---------------------------------------------------------------- the table

  /** The settings database: the table is the map from key to row. */
  class Store {
    var rows: map<string, Setting>

    /** Opening a database file that holds `stored`. */
    constructor (stored: map<string, Setting>)
      ensures rows == stored
    {
      rows := stored;
    }

    /** The seeding transaction: every row of `ds` is offered with
     *  `INSERT OR IGNORE`; `inserted` counts the new keys, `skipped` the rest. */
    method Seed(ds: seq<DefaultSetting>, now: string) returns (inserted: nat, skipped: nat)
      modifies this
      ensures rows == Seeded(old(rows), ds, now)
      ensures inserted == |KeysOf(ds) - old(rows).Keys|
      ensures inserted + skipped == |ds|
    {
      var table;
      table, inserted, skipped := SeedRows(rows, ds, now);
      rows := table;
    }

    /** `getSetting`: the stored value whenever the row exists, even when it
     *  is empty; the fallback otherwise. */
    function Get(key: string, fallback: string): (r: string)
      reads this
      ensures key in rows ==> r == rows[key].value
      ensures key !in rows ==> r == fallback
    {
      if key in rows then rows[key].value else fallback
    }

    /** `getSettingInt`: a missing key or a value `parseInt` cannot read
     *  gives the fallback. */
    function GetInt(key: string, fallback: int): (r: int)
      reads this
      ensures key !in rows ==> r == fallback
      ensures key in rows && ParseInt(rows[key].value).Some? ==> r == ParseInt(rows[key].value).value
      ensures key in rows && ParseInt(rows[key].value).None? ==> r == fallback
    {
      IntOfRoundTrip(fallback, fallback);
      IntOf(Get(key, IntToString(fallback)), fallback)
    }

    /** `getSettingBool`: true exactly for a stored 'true' or '1'; a missing
     *  key gives the fallback. */
    function GetBool(key: string, fallback: bool): (r: bool)
      reads this
      ensures key !in rows ==> r == fallback
      ensures key in rows ==> (r <==> rows[key].value == "true" || rows[key].value == "1")
    {
      BoolOf(Get(key, BoolText(fallback)))
    }

    /** `getSettingList`: a missing key gives no entries; a stored value gives
     *  its comma-separated pieces, trimmed, without the empty ones. */
    function GetList(key: string): (r: seq<string>)
      reads this
      ensures key !in rows ==> r == []
      ensures key in rows ==> r == ListOf(rows[key].value)
      ensures forall x :: x in r ==> x != "" && !IsSpace(x[0]) && !IsSpace(x[|x| - 1]) && ',' !in x
    {
      ListOfEmpty();
      ListOfClean(Get(key, ""));
      ListOf(Get(key, ""))
    }

    /** `getTaskEmails`: the task's own list when it has an entry, else the
     *  marketing list. */
    function TaskEmails(t: ReportTask): (r: seq<string>)
      reads this
      ensures GetList(TaskKey(t)) != [] ==> r == GetList(TaskKey(t))
      ensures GetList(TaskKey(t)) == [] ==> r == GetList(MarketingKey)
    {
      var specific := GetList(TaskKey(t));
      if |specific| > 0 then specific else GetList(MarketingKey)
    }

    /** `setSetting`: an upsert of the value; an existing row keeps its
     *  category and description, a new one gets 'general' and ''. */
    method Set(key: string, value: string, now: string)
      modifies this
      ensures rows == Upsert(old(rows), key, value, now)
      ensures forall f :: Get(key, f) == value
      ensures forall k, f :: k != key ==> Get(k, f) == old(Get(k, f))
    {
      if key in rows {
        rows := rows[key := rows[key].(value := value, updatedAt := now)];
      } else {
        rows := rows[key := Setting(value, "general", "", now)];
      }
    }

    /** `updateSetting`: category and description are written only when both
     *  are given and non-empty; otherwise it is `setSetting`. */
    method Update(key: string, value: string, category: Option<string>, description: Option<string>, now: string)
      modifies this
      ensures category.Some? && category.value != "" && description.Some? && description.value != "" ==>
        rows == old(rows)[key := Setting(value, category.value, description.value, now)]
      ensures !(category.Some? && category.value != "" && description.Some? && description.value != "") ==>
        rows == Upsert(old(rows), key, value, now)
      ensures forall k :: k != key ==> (k in rows <==> k in old(rows))
    {
      if category.Some? && category.value != "" && description.Some? && description.value != "" {
        rows := rows[key := Setting(value, category.value, description.value, now)];
      } else {
        Set(key, value, now);
      }
    }

    /** `deleteSetting`: true exactly when the key existed; it is gone after. */
    method Delete(key: string) returns (existed: bool)
      modifies this
      ensures existed <==> key in old(rows)
      ensures rows == old(rows) - {key}
      ensures key !in rows
    {
      existed := key in rows;
      rows := rows - {key};
    }

    /** The categories in use. */
    function CategorySet(): set<string>
      reads this
    {
      set k | k in rows :: rows[k].category
    }

    /** `getCategories`: `SELECT DISTINCT category … ORDER BY category`. */
    method Categories() returns (cats: seq<string>)
      ensures multiset(cats) == multiset(CategorySet())
      ensures Sorting.SortedBy(cats, TextOrder)
    {
      var remaining := CategorySet();
      cats := [];
      while remaining != {}
        invariant remaining <= CategorySet()
        invariant multiset(cats) + multiset(remaining) == multiset(CategorySet())
        invariant Sorting.SortedBy(cats, TextOrder)
        decreases |remaining|
      {
        var c :| c in remaining;
        Sorting.InsertSorted(c, cats, TextOrder);
        cats := Sorting.Insert(c, cats, TextOrder);
        assert multiset(remaining - {c}) + multiset{c} == multiset(remaining);
        remaining := remaining - {c};
      }
    }
  }
}
