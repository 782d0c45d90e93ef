// The ERP (MSSQL) → PostgreSQL price ETL: the COPY text encoding of every
// extracted row, the table swap, the zone and priority rules of the change
// analysis, the classification of significant changes into per-priority and
// per-zone lists, and the report and error e-mails.
module ErpPostgresSync {
  import opened Wrappers
  import opened Text
  import opened Seqs

  /** Column order of the COPY into the staging table. */
  const PgColumns: seq<string> := [
    "sucursal", "sku", "abc", "tag", "nombre_corto", "nombre", "modelo",
    "departamento", "categoria", "subcategoria", "precio", "impuesto",
    "ieps", "costo_total", "ubicacion", "precio_actualizado", "existencia",
    "unidad_simbolo", "unidad"
  ]

  // ---------------------------------------------------------------- COPY text format

  /** A column value of an extracted row: NULL (or a missing column), a
   *  timestamp already rendered by `toISOString`, or any other value as the
   *  text `String(val)` gives. */
  datatype Cell = Null | Instant(iso: string) | Plain(text: string)

  /** The COPY text escape of one character. */
  function EscapeChar(c: char): string
  {
    if c == '\\' then "\\\\"
    else if c == '\n' then "\\n"
    else if c == '\r' then "\\r"
    else if c == '\t' then "\\t"
    else [c]
  }

  /** Character-by-character escape: the reference for the four chained
   *  replacements of `formatValue`. */
  function Escape(s: string): string
    decreases |s|
  {
    if s == [] then "" else EscapeChar(s[0]) + Escape(s[1..])
  }

  /** The four replacements in the order the source applies them. */
  function ChainedReplace(t: string): string
  {
    ReplaceChar(ReplaceChar(ReplaceChar(ReplaceChar(t, '\\', "\\\\"), '\n', "\\n"), '\r', "\\r"), '\t', "\\t")
  }

  /** The COPY text-format reading of a backslash sequence. */
  function DecodeEscape(c: char): char
  {
    if c == 'n' then '\n' else if c == 'r' then '\r' else if c == 't' then '\t' else c
  }

  /** How PostgreSQL's COPY text format reads a field back. */
  function Unescape(s: string): string
    decreases |s|
  {
    if s == [] then ""
    else if s[0] == '\\' && |s| >= 2 then [DecodeEscape(s[1])] + Unescape(s[2..])
    else [s[0]] + Unescape(s[1..])
  }

  predicate NoControl(s: string)
  {
    '\t' !in s && '\n' !in s && '\r' !in s
  }

  lemma ChainedConcat(a: string, b: string)
    ensures ChainedReplace(a + b) == ChainedReplace(a) + ChainedReplace(b)
  {
    ReplaceConcat(a, b, '\\', "\\\\");
    var a1, b1 := ReplaceChar(a, '\\', "\\\\"), ReplaceChar(b, '\\', "\\\\");
    ReplaceConcat(a1, b1, '\n', "\\n");
    var a2, b2 := ReplaceChar(a1, '\n', "\\n"), ReplaceChar(b1, '\n', "\\n");
    ReplaceConcat(a2, b2, '\r', "\\r");
    var a3, b3 := ReplaceChar(a2, '\r', "\\r"), ReplaceChar(b2, '\r', "\\r");
    ReplaceConcat(a3, b3, '\t', "\\t");
  }

  /** One character goes through the four passes as `EscapeChar` says. */
  lemma ChainedChar(c: char)
    ensures ChainedReplace([c]) == EscapeChar(c)
  {
    ReplaceSingle(c, '\\', "\\\\");
    if c == '\\' {
      ReplacePair('\\', '\\', '\n', "\\n");
      ReplaceSingle('\\', '\n', "\\n");
      ReplacePair('\\', '\\', '\r', "\\r");
      ReplaceSingle('\\', '\r', "\\r");
      ReplacePair('\\', '\\', '\t', "\\t");
      ReplaceSingle('\\', '\t', "\\t");
    } else if c == '\n' {
      ReplaceSingle(c, '\n', "\\n");
      ReplacePair('\\', 'n', '\r', "\\r");
      ReplaceSingle('\\', '\r', "\\r");
      ReplaceSingle('n', '\r', "\\r");
      ReplacePair('\\', 'n', '\t', "\\t");
      ReplaceSingle('\\', '\t', "\\t");
      ReplaceSingle('n', '\t', "\\t");
    } else if c == '\r' {
      ReplaceSingle(c, '\n', "\\n");
      ReplaceSingle(c, '\r', "\\r");
      ReplacePair('\\', 'r', '\t', "\\t");
      ReplaceSingle('\\', '\t', "\\t");
      ReplaceSingle('r', '\t', "\\t");
    } else {
      ReplaceSingle(c, '\n', "\\n");
      ReplaceSingle(c, '\r', "\\r");
      ReplaceSingle(c, '\t', "\\t");
    }
  }

  /** Backslash first, then newline, CR and tab: the passes never touch each
   *  other's output, so together they escape each character on its own. */
  lemma {:induction false} ChainedIsEscape(t: string)
    ensures ChainedReplace(t) == Escape(t)
    decreases |t|
  {
    if t != [] {
      assert t == [t[0]] + t[1..];
      ChainedConcat([t[0]], t[1..]);
      ChainedChar(t[0]);
      ChainedIsEscape(t[1..]);
    }
  }

  lemma {:induction false} EscapeNoControl(s: string)
    ensures NoControl(Escape(s))
    decreases |s|
  {
    if s != [] {
      EscapeNoControl(s[1..]);
    }
  }

  lemma UnescapeStep(c: char, rest: string)
    ensures Unescape(EscapeChar(c) + rest) == [c] + Unescape(rest)
  {
    var e := EscapeChar(c) + rest;
    if c == '\\' || c == '\n' || c == '\r' || c == '\t' {
      assert e[0] == '\\' && e[2..] == rest;
    } else {
      assert e[0] == c && e[1..] == rest;
    }
  }

  /** Reading an escaped field back gives the original text. */
  lemma {:induction false} UnescapeEscape(s: string)
    ensures Unescape(Escape(s)) == s
    decreases |s|
  {
    if s != [] {
      UnescapeStep(s[0], Escape(s[1..]));
      UnescapeEscape(s[1..]);
      assert s == [s[0]] + s[1..];
    }
  }

  /** An escaped text never reads as the NULL marker. */
  lemma EscapeNotNull(s: string)
    ensures Escape(s) != "\\N"
  {
    if s != [] {
      var e := Escape(s);
      assert e == EscapeChar(s[0]) + Escape(s[1..]);
      if s[0] == '\\' || s[0] == '\n' || s[0] == '\r' || s[0] == '\t' {
        assert e[1] != 'N';
      } else {
        assert e[0] == s[0];
      }
    }
  }

  lemma {:induction false} UnescapePlain(s: string)
    requires '\\' !in s
    ensures Unescape(s) == s
    decreases |s|
  {
    if s != [] {
      assert '\\' !in s[1..];
      UnescapePlain(s[1..]);
    }
  }

  /** `formatValue`: NULL becomes `\N`, a timestamp its ISO text, and any
   *  other value its text with backslash, newline, CR and tab escaped. */
  function FormatValue(v: Cell): (r: string)
    ensures v.Null? ==> r == "\\N"
    ensures v.Instant? ==> r == v.iso
    ensures v.Plain? ==> NoControl(r) && r != "\\N" && Unescape(r) == v.text
  {
    match v
    case Null => "\\N"
    case Instant(iso) => iso
    case Plain(t) =>
      ChainedIsEscape(t);
      EscapeNoControl(t);
      EscapeNotNull(t);
      UnescapeEscape(t);
      ChainedReplace(t)
  }

  // ---------------------------------------------------------------- COPY lines

  /** A rendered ISO timestamp: no backslash and no control characters. */
  predicate IsoText(s: string)
  {
    '\\' !in s && NoControl(s)
  }

  predicate TimestampsAreIso(cells: seq<Cell>)
  {
    forall k :: 0 <= k < |cells| && cells[k].Instant? ==> IsoText(cells[k].iso)
  }

  /** One COPY line: the formatted values joined by tabs, ended by '\n'. */
  function Line(cells: seq<Cell>): string
  {
    Join(MapSeq(cells, FormatValue), "\t") + "\n"
  }

  /** A field as COPY reads it: `\N` is NULL, anything else is text. */
  function DecodeField(f: string): Cell
  {
    if f == "\\N" then Null else Plain(Unescape(f))
  }

  /** What the database stores for a cell: a timestamp arrives as its text. */
  function Stored(c: Cell): Cell
  {
    match c
    case Instant(iso) => Plain(iso)
    case _ => c
  }

  /** How COPY splits a line into fields and reads each one. */
  function DecodeLine(line: string): seq<Cell>
  {
    if line != [] && line[|line| - 1] == '\n'
    then MapSeq(Split(line[..|line| - 1], '\t'), DecodeField)
    else []
  }

  lemma FieldDecodes(c: Cell)
    requires c.Instant? ==> IsoText(c.iso)
    ensures '\t' !in FormatValue(c) && '\n' !in FormatValue(c)
    ensures DecodeField(FormatValue(c)) == Stored(c)
  {
    if c.Instant? {
      UnescapePlain(c.iso);
      assert '\\' in "\\N";
    }
  }

  /** Every COPY line ends with its only newline and reads back, field by
   *  field, as the cells it was built from. */
  lemma LineRoundTrip(cells: seq<Cell>)
    requires |cells| >= 1
    requires TimestampsAreIso(cells)
    ensures var line := Line(cells);
      line[|line| - 1] == '\n' && '\n' !in line[..|line| - 1]
    ensures |Split(Line(cells)[..|Line(cells)| - 1], '\t')| == |cells|
    ensures DecodeLine(Line(cells)) == MapSeq(cells, Stored)
  {
    var fields := MapSeq(cells, FormatValue);
    var body := Join(fields, "\t");
    var line := body + "\n";
    forall k | 0 <= k < |fields|
      ensures '\t' !in fields[k] && '\n' !in fields[k]
      ensures DecodeField(fields[k]) == Stored(cells[k])
    {
      FieldDecodes(cells[k]);
    }
    JoinAvoids(fields, "\t", '\n');
    assert line[..|line| - 1] == body;
    SplitJoin(fields, '\t');
  }

  // ---------------------------------------------------------------- rows

  /** An extracted row by column name; a missing column is `undefined`. */
  type Row = map<string, Cell>

  function CellOf(row: Row, col: string): Cell
  {
    if col in row then row[col] else Null
  }

  function Cells(row: Row): (r: seq<Cell>)
    ensures |r| == |PgColumns|
    ensures forall k :: 0 <= k < |PgColumns| ==> r[k] == CellOf(row, PgColumns[k])
  {
    MapSeq(PgColumns, (col: string) => CellOf(row, col))
  }

  /** The staging-table line of one extracted row. */
  function CopyLine(row: Row): string
  {
    Line(Cells(row))
  }

  predicate RowTimestampsAreIso(row: Row)
  {
    forall col :: col in row && row[col].Instant? ==> IsoText(row[col].iso)
  }

  /** A row's line has exactly one field per column, and each field reads
   *  back as that column's value (NULL for a missing column). */
  lemma CopyLineRoundTrip(row: Row)
    requires RowTimestampsAreIso(row)
    ensures var line := CopyLine(row);
      line[|line| - 1] == '\n' && |Split(line[..|line| - 1], '\t')| == |PgColumns|
    ensures var cells := DecodeLine(CopyLine(row));
      |cells| == |PgColumns| &&
      forall k :: 0 <= k < |PgColumns| ==> cells[k] == Stored(CellOf(row, PgColumns[k]))
  {
    var cells := Cells(row);
    forall k | 0 <= k < |cells| && cells[k].Instant?
      ensures IsoText(cells[k].iso)
    {
      assert PgColumns[k] in row;
    }
    LineRoundTrip(cells);
  }

  /** The data stream pushed into the COPY, one line per extracted row. */
  method BuildCopyStream(data: seq<Row>) returns (lines: seq<string>)
    ensures |lines| == |data|
    ensures forall k :: 0 <= k < |data| ==> lines[k] == CopyLine(data[k])
  {
    lines := [];
    for i := 0 to |data|
      invariant |lines| == i
      invariant forall k :: 0 <= k < i ==> lines[k] == CopyLine(data[k])
    {
      lines := lines + [CopyLine(data[i])];
    }
  }

  /** A row of the `articulo_codigo` COPY: the SKU and its equivalent code. */
  function CodigoLine(sku: Cell, codigo: Cell): (r: string)
    ensures r == Line([sku, codigo])
  {
    var fields := MapSeq([sku, codigo], FormatValue);
    assert fields == [FormatValue(sku), FormatValue(codigo)];
    assert fields[1..] == [FormatValue(codigo)];
    assert Join(fields[1..], "\t") == FormatValue(codigo);
    assert Join(fields, "\t") == FormatValue(sku) + "\t" + FormatValue(codigo);
    FormatValue(sku) + "\t" + FormatValue(codigo) + "\n"
  }

  lemma CodigoLineRoundTrip(sku: string, codigo: string)
    ensures DecodeLine(CodigoLine(Plain(sku), Plain(codigo))) == [Plain(sku), Plain(codigo)]
  {
    LineRoundTrip([Plain(sku), Plain(codigo)]);
    assert MapSeq([Plain(sku), Plain(codigo)], Stored) == [Plain(sku), Plain(codigo)];
  }

  // ---------------------------------------------------------------- branches, zones, priorities

  /** The branch number the extract gives an ERP store id (its CASE); a
   *  store outside the list gives NULL. */
  function BranchOf(sucId: int): Option<int>
  {
    if 1 <= sucId <= 6 then Some(100 + sucId)
    else if 7 <= sucId <= 9 then Some(101 + sucId)
    else if 10 <= sucId <= 11 then Some(102 + sucId)
    else if 16 <= sucId <= 18 then Some(385 + sucId)
    else None
  }

  /** The store ids the extract selects. */
  const ExtractedStores: set<int> := {1, 2, 3, 4, 5, 6, 7, 8, 9, 10, 11, 16, 17, 18}

  const MexicaliBranches: set<int> := {101, 102, 103, 104, 105, 106, 108, 109, 110, 112, 113}
  const HermosilloBranches: set<int> := {401, 402, 403}

  /** The zone CASE of the analysis. */
  function Zone(sucursal: int): string
  {
    if sucursal in MexicaliBranches then "Mexicali"
    else if sucursal in HermosilloBranches then "Hermosillo"
    else "Otra"
  }

  /** Every extracted store gets a branch number and a real zone: stores 1
   *  to 11 are Mexicali and 16 to 18 Hermosillo, so "Otra" never occurs. */
  lemma ExtractedStoresHaveZones(sucId: int)
    requires sucId in ExtractedStores
    ensures BranchOf(sucId).Some?
    ensures Zone(BranchOf(sucId).value) == (if sucId <= 11 then "Mexicali" else "Hermosillo")
  {
  }

  /** The priority CASE over the rounded absolute variation. */
  function Priority(variation: real): string
  {
    if variation >= 30.0 then "alta"
    else if variation >= 15.0 then "media"
    else if variation >= 10.0 then "baja"
    else "normal"
  }

  /** The ORDER BY rank of a priority: alta first. */
  function Rank(priority: string): nat
  {
    if priority == "alta" then 1
    else if priority == "media" then 2
    else if priority == "baja" then 3
    else 4
  }

  /** A larger variation never gets a lower priority, and the bands are
   *  [30, ∞), [15, 30), [10, 15) and below 10. */
  lemma PriorityBands(v: real, w: real)
    ensures v <= w ==> Rank(Priority(w)) <= Rank(Priority(v))
    ensures (Priority(v) == "alta") <==> v >= 30.0
    ensures (Priority(v) == "media") <==> 15.0 <= v < 30.0
    ensures (Priority(v) == "baja") <==> 10.0 <= v < 15.0
    ensures (Priority(v) == "normal") <==> v < 10.0
  {
  }

  /** `ROUND(x, 1)` on numeric: to one decimal, halves away from zero. */
  function RoundTenth(x: real): (r: real)
    ensures -0.05 < r - x <= 0.05 || -0.05 <= r - x < 0.05
    ensures (r >= 0.0) == (x > -0.05)
  {
    if x >= 0.0 then (x * 10.0 + 0.5).Floor as real / 10.0
    else -((-x * 10.0 + 0.5).Floor as real / 10.0)
  }

  /** How the analysis queries count an old/new price pair of a branch. */
  datatype ChangeKind = Unchanged | Micro | Minor | Significant(priority: string)

  /** The WHERE clauses of the count, micro, minor and significant queries. */
  function KindOf(newPrice: real, oldPrice: real): (k: ChangeKind)
    ensures k.Significant? ==> k.priority != "normal"
  {
    if newPrice == oldPrice || oldPrice <= 0.0 then Unchanged
    else
      var v := RoundTenth((newPrice - oldPrice) / oldPrice * 100.0);
      var a := if v < 0.0 then -v else v;
      if v == 0.0 then Micro
      else if a < 10.0 then Minor
      else Significant(Priority(a))
  }

  /** A price that moved by less than 0.05% is a micro change, and one that
   *  moved by 10.05% or more is significant. */
  lemma KindThresholds(newPrice: real, oldPrice: real)
    requires oldPrice > 0.0 && newPrice != oldPrice
    ensures var p := (newPrice - oldPrice) / oldPrice * 100.0;
      (-0.05 < p < 0.05 ==> KindOf(newPrice, oldPrice) == Micro) &&
      (p >= 10.05 || p <= -10.05 ==> KindOf(newPrice, oldPrice).Significant?)
  {
  }

  // ---------------------------------------------------------------- classification

  /** A row of the significant-changes query, grouped by zone, SKU, name and
   *  priority. */
  datatype PriceChange = PriceChange(zona: string, sku: string, nombreCorto: string, prioridad: string, variacionMaxima: real)

  /** The alta, media and baja lists. */
  datatype Levels = Levels(alta: seq<PriceChange>, media: seq<PriceChange>, baja: seq<PriceChange>)

  const NoLevels := Levels([], [], [])

  datatype Analysis = Analysis(
    totalChanges: nat, microChanges: nat, microChangesRegistros: nat, minorChanges: nat,
    prioridad: Levels, historyInserted: nat, mexicali: Levels, hermosillo: Levels)

  function AtLevel(level: string): PriceChange -> bool
  {
    (c: PriceChange) => c.prioridad == level
  }

  function InZone(zone: string): PriceChange -> bool
  {
    (c: PriceChange) => c.zona == zone
  }

  /** The lists the classification loop builds from `rows`. */
  function ByLevel(rows: seq<PriceChange>): Levels
  {
    Levels(Filter(rows, AtLevel("alta")), Filter(rows, AtLevel("media")), Filter(rows, AtLevel("baja")))
  }

  /** One push of the loop into a set of lists. */
  function Push(l: Levels, c: PriceChange): Levels
  {
    if c.prioridad == "alta" then l.(alta := l.alta + [c])
    else if c.prioridad == "media" then l.(media := l.media + [c])
    else if c.prioridad == "baja" then l.(baja := l.baja + [c])
    else l
  }

  lemma ByLevelSnoc(rows: seq<PriceChange>, c: PriceChange)
    ensures ByLevel(rows + [c]) == Push(ByLevel(rows), c)
  {
    FilterConcat(rows, [c], AtLevel("alta"));
    FilterConcat(rows, [c], AtLevel("media"));
    FilterConcat(rows, [c], AtLevel("baja"));
    assert [c][..0] == [];
  }

  lemma ZoneSnoc(rows: seq<PriceChange>, c: PriceChange, zone: string)
    ensures Filter(rows + [c], InZone(zone)) == Filter(rows, InZone(zone)) + (if c.zona == zone then [c] else [])
  {
    FilterConcat(rows, [c], InZone(zone));
    assert [c][..0] == [];
  }

  /** The lists classified from `rows`, with the counts of `counts`. */
  function Classified(counts: Analysis, rows: seq<PriceChange>): Analysis
  {
    counts.(prioridad := ByLevel(rows),
            mexicali := ByLevel(Filter(rows, InZone("Mexicali"))),
            hermosillo := ByLevel(Filter(rows, InZone("Hermosillo"))))
  }

  /** One iteration of the loop: the global push, then the zone push. */
  function ClassifyStep(r: Analysis, c: PriceChange): Analysis
  {
    var g := r.(prioridad := Push(r.prioridad, c));
    if c.zona == "Mexicali" then g.(mexicali := Push(g.mexicali, c))
    else if c.zona == "Hermosillo" then g.(hermosillo := Push(g.hermosillo, c))
    else g
  }

  lemma ZoneLevelsSnoc(rows: seq<PriceChange>, c: PriceChange, zone: string)
    ensures ByLevel(Filter(rows + [c], InZone(zone))) ==
      if c.zona == zone then Push(ByLevel(Filter(rows, InZone(zone))), c) else ByLevel(Filter(rows, InZone(zone)))
  {
    ZoneSnoc(rows, c, zone);
    var z := Filter(rows, InZone(zone));
    if c.zona == zone {
      ByLevelSnoc(z, c);
    } else {
      assert z + [] == z;
    }
  }

  lemma ClassifiedAppend(counts: Analysis, rows: seq<PriceChange>, c: PriceChange)
    ensures Classified(counts, rows + [c]) == ClassifyStep(Classified(counts, rows), c)
  {
    ByLevelSnoc(rows, c);
    ZoneLevelsSnoc(rows, c, "Mexicali");
    ZoneLevelsSnoc(rows, c, "Hermosillo");
  }

  lemma ClassifiedSnoc(counts: Analysis, rows: seq<PriceChange>, i: nat)
    requires i < |rows|
    ensures Classified(counts, rows[..i + 1]) == ClassifyStep(Classified(counts, rows[..i]), rows[i])
  {
    assert rows[..i + 1] == rows[..i] + [rows[i]];
    ClassifiedAppend(counts, rows[..i], rows[i]);
  }

  /** The classification loop over the significant-changes rows. */
  method Classify(counts: Analysis, rows: seq<PriceChange>) returns (r: Analysis)
    ensures r == Classified(counts, rows)
  {
    r := counts.(prioridad := NoLevels, mexicali := NoLevels, hermosillo := NoLevels);
    assert rows[..0] == [];
    for i := 0 to |rows|
      invariant r == Classified(counts, rows[..i])
    {
      var change := rows[i];
      ClassifiedSnoc(counts, rows, i);
      r := r.(prioridad := Push(r.prioridad, change));
      if change.zona == "Mexicali" {
        r := r.(mexicali := Push(r.mexicali, change));
      } else if change.zona == "Hermosillo" {
        r := r.(hermosillo := Push(r.hermosillo, change));
      }
    }
    assert rows[..|rows|] == rows;
  }

  predicate IsSignificant(c: PriceChange)
  {
    c.prioridad in {"alta", "media", "baja"}
  }

  /** Each alta, media or baja row lands in exactly one of the three
   *  lists, so the three lengths add up to the number of such rows. */
  lemma {:induction false} LevelsPartition(rows: seq<PriceChange>)
    ensures var l := ByLevel(rows);
      |l.alta| + |l.media| + |l.baja| == Count(rows, IsSignificant)
    decreases |rows|
  {
    if rows != [] {
      var init := rows[..|rows| - 1];
      var c := rows[|rows| - 1];
      assert rows == init + [c];
      LevelsPartition(init);
      ByLevelSnoc(init, c);
      FilterConcat(init, [c], IsSignificant);
      assert [c][..0] == [];
    }
  }

  /** A row is in a zone's list of a priority exactly when it has that zone
   *  and that priority; every zone list is drawn from the global list. */
  lemma ZoneListMembership(rows: seq<PriceChange>, zone: string, level: string, c: PriceChange)
    ensures c in Filter(Filter(rows, InZone(zone)), AtLevel(level)) <==>
      (c in rows && c.zona == zone && c.prioridad == level)
    ensures c in Filter(Filter(rows, InZone(zone)), AtLevel(level)) ==> c in Filter(rows, AtLevel(level))
  {
    var z := Filter(rows, InZone(zone));
    if c in rows && c.zona == zone && c.prioridad == level {
      FilterComplete(rows, InZone(zone), c);
      FilterComplete(z, AtLevel(level), c);
    }
    if c in Filter(z, AtLevel(level)) {
      FilterComplete(rows, AtLevel(level), c);
    }
  }

  // ---------------------------------------------------------------- report and e-mails

  datatype Email = Email(to: seq<string>, subject: string, attachesCsv: bool)

  /** The number of articles the report counts. */
  function TotalCambios(a: Analysis): nat
  {
    |a.prioridad.alta| + |a.prioridad.media| + |a.prioridad.baja| + a.microChanges + a.minorChanges
  }

  /** Which suffix the subject carries, with its count. */
  datatype SubjectTag = Urgent(n: nat) | ToVerify(n: nat) | ToReview(n: nat) | MinorOnly(n: nat)

  /** The subject: the highest non-empty priority wins. */
  function Tag(a: Analysis): (t: SubjectTag)
    ensures t.Urgent? <==> a.prioridad.alta != []
    ensures t.ToVerify? <==> a.prioridad.alta == [] && a.prioridad.media != []
    ensures t.ToReview? <==> a.prioridad.alta == [] && a.prioridad.media == [] && a.prioridad.baja != []
    ensures t.MinorOnly? <==> a.prioridad == NoLevels
    ensures t.n == match t
      case Urgent(_) => |a.prioridad.alta|
      case ToVerify(_) => |a.prioridad.media|
      case ToReview(_) => |a.prioridad.baja|
      case MinorOnly(_) => TotalCambios(a)
  {
    if |a.prioridad.alta| > 0 then Urgent(|a.prioridad.alta|)
    else if |a.prioridad.media| > 0 then ToVerify(|a.prioridad.media|)
    else if |a.prioridad.baja| > 0 then ToReview(|a.prioridad.baja|)
    else MinorOnly(TotalCambios(a))
  }

  const SubjectBase := "Sincronización de Precios - Completada"

  function SubjectText(t: SubjectTag): string
  {
    SubjectBase + match t
      case Urgent(n) => " - " + NatToString(n) + " cambios URGENTES (>30%)"
      case ToVerify(n) => " - " + NatToString(n) + " cambios a verificar (>15%)"
      case ToReview(n) => " - " + NatToString(n) + " cambios a revisar (>10%)"
      case MinorOnly(n) => " - " + NatToString(n) + " cambios menores detectados"
  }

  /** `sendPriceChangeReport`: nothing when no change was counted or no
   *  recipient is configured; otherwise one e-mail to the recipients, with
   *  the CSV attached when some alta, media or baja change exists. */
  function PriceReport(a: Analysis, recipients: seq<string>): (r: Option<Email>)
    ensures r.Some? <==> TotalCambios(a) > 0 && recipients != []
    ensures r.Some? ==> r.value.to == recipients && r.value.subject == SubjectText(Tag(a))
    ensures r.Some? ==> (r.value.attachesCsv <==> a.prioridad != NoLevels)
  {
    if TotalCambios(a) == 0 then None
    else
      var attach := |a.prioridad.alta| > 0 || |a.prioridad.media| > 0 || |a.prioridad.baja| > 0;
      if |recipients| == 0 then None
      else Some(Email(recipients, SubjectText(Tag(a)), attach))
  }

  /** The CSV is attached exactly when the subject names a priority. */
  lemma AttachmentMatchesSubject(a: Analysis, recipients: seq<string>)
    requires PriceReport(a, recipients).Some?
    ensures PriceReport(a, recipients).value.attachesCsv <==> !Tag(a).MinorOnly?
    ensures Tag(a).MinorOnly? ==> Tag(a).n > 0
  {
  }

  /** `sendErrorEmail`: nothing without recipients. */
  function ErrorEmails(title: string, recipients: seq<string>): (r: seq<Email>)
    ensures |r| <= 1
    ensures r != [] <==> recipients != []
    ensures r != [] ==> r[0] == Email(recipients, "ERROR - " + title, false)
  {
    if |recipients| == 0 then [] else [Email(recipients, "ERROR - " + title, false)]
  }

  const EtlErrorTitle := "Error en Sincronización ERP→PostgreSQL"
  const AnalysisErrorTitle := "Error en Análisis de Precios"

  // ---------------------------------------------------------------- the run

  /** The live table and the previous one (`_old`), as the lines loaded. */
  datatype Tables = Tables(live: seq<string>, previous: Option<seq<string>>)

  datatype RunResult = RunResult(tables: Tables, syncDateUpdated: bool, emails: seq<Email>)

  /** The table contents after a load of `data`: one line per row. */
  function Loaded(data: seq<Row>): (lines: seq<string>)
    ensures |lines| == |data|
    ensures forall k :: 0 <= k < |data| ==> lines[k] == CopyLine(data[k])
  {
    MapSeq(data, CopyLine)
  }

  /** `execute`. `extract` is the MSSQL result (None when the query
   *  fails), `loaded` whether the COPY and the swap commit, `syncDateOk`
   *  whether the sync date update succeeds, and `analysis` the analysis
   *  (None when it fails). The code sync is non-critical and changes none of
   *  this. */
  function Execute(t: Tables, extract: Option<seq<Row>>, loaded: bool, syncDateOk: bool,
                   analysis: Option<Analysis>, recipients: seq<string>): (r: RunResult)
    ensures extract == Some([]) ==> r == RunResult(t, false, [])
    ensures r.tables == t ||
      (extract.Some? && loaded && r.tables == Tables(Loaded(extract.value), Some(t.live)))
    ensures !loaded || extract.None? ==> r.tables == t && !r.syncDateUpdated
    ensures r.syncDateUpdated ==> r.tables == Tables(Loaded(extract.value), Some(t.live))
    ensures |r.emails| <= 1 && (recipients == [] ==> r.emails == [])
    ensures forall e :: e in r.emails ==> e.to == recipients
    ensures (extract.None? || (extract.value != [] && (!loaded || !syncDateOk))) ==>
      r.emails == ErrorEmails(EtlErrorTitle, recipients)
  {
    match extract
    case None => RunResult(t, false, ErrorEmails(EtlErrorTitle, recipients))
    case Some(data) =>
      if |data| == 0 then RunResult(t, false, [])
      else if !loaded then RunResult(t, false, ErrorEmails(EtlErrorTitle, recipients))
      else
        var swapped := Tables(Loaded(data), Some(t.live));
        if !syncDateOk then RunResult(swapped, false, ErrorEmails(EtlErrorTitle, recipients))
        else match analysis
          case None => RunResult(swapped, true, ErrorEmails(AnalysisErrorTitle, recipients))
          case Some(a) =>
            RunResult(swapped, true, match PriceReport(a, recipients) case None => [] case Some(e) => [e])
  }

  /** After a committed load, every line of the live table reads back as
   *  the extracted row it came from. */
  lemma LiveTableReadsBack(t: Tables, data: seq<Row>, syncDateOk: bool,
                           analysis: Option<Analysis>, recipients: seq<string>, k: nat)
    requires data != [] && k < |data|
    requires forall j :: 0 <= j < |data| ==> RowTimestampsAreIso(data[j])
    ensures var live := Execute(t, Some(data), true, syncDateOk, analysis, recipients).tables.live;
      |live| == |data| &&
      var cells := DecodeLine(live[k]);
      |cells| == |PgColumns| &&
      forall c :: 0 <= c < |PgColumns| ==> cells[c] == Stored(CellOf(data[k], PgColumns[c]))
  {
    CopyLineRoundTrip(data[k]);
  }
}
