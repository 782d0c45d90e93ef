// Judging a chat lead: the client-type cascade, the additive priority score
// and its five tiers, and the suggested sales approach. The Python script and
// the TypeScript task carry the same three functions line for line; they
// differ only in the intent catalog that feeds them, so the intents and
// products of a session arrive here as sets of tag names.
module LeadScoring {
  import opened Text
  import opened Seqs

  // ---------------------------------------------------------------- client type

  datatype ClientType =
    | Contractor      // 'Contratista/Constructor'
    | Wholesaler      // 'Mayorista/Distribuidor'
    | VolumeBuyer     // 'Comprador de Volumen'
    | Business        // 'Empresa'
    | HomeOwner       // 'Particular/Remodelación'
    | Trainee         // 'Profesional en Formación'
    | Invoiced        // 'Cliente con Facturación'
    | Prospect        // 'Prospecto General'
  {
    function Label(): string
    {
      match this
      case Contractor => "Contratista/Constructor"
      case Wholesaler => "Mayorista/Distribuidor"
      case VolumeBuyer => "Comprador de Volumen"
      case Business => "Empresa"
      case HomeOwner => "Particular/Remodelación"
      case Trainee => "Profesional en Formación"
      case Invoiced => "Cliente con Facturación"
      case Prospect => "Prospecto General"
    }
  }

  /** Distinct client types have distinct labels in the report. */
  lemma LabelsDistinct(a: ClientType, b: ClientType)
    requires a != b
    ensures a.Label() != b.Label()
  {
    LabelSignature(a);
    LabelSignature(b);
  }

  /** A label's first two letters and its length, which tell the labels apart. */
  function Signature(c: ClientType): (char, char, nat)
  {
    match c
    case Contractor => ('C', 'o', 23)
    case Wholesaler => ('M', 'a', 22)
    case VolumeBuyer => ('C', 'o', 20)
    case Business => ('E', 'm', 7)
    case HomeOwner => ('P', 'a', 23)
    case Trainee => ('P', 'r', 24)
    case Invoiced => ('C', 'l', 23)
    case Prospect => ('P', 'r', 17)
  }

  lemma LabelSignature(c: ClientType)
    ensures |c.Label()| >= 2 && (c.Label()[0], c.Label()[1], |c.Label()|) == Signature(c)
  {
  }

  predicate ContainsAny(text: string, words: seq<string>)
  {
    exists i :: 0 <= i < |words| && Contains(text, words[i])
  }

  /** `contratista|constructor|obra grande|proyecto|edificio|residencial|fraccionamiento`. */
  const ContractorWords: seq<string> :=
    ["contratista", "constructor", "obra grande", "proyecto", "edificio", "residencial", "fraccionamiento"]

  /** `empresa|negocio|compañ[ií]a|sa de cv|s\.a\.|spr|s\.?r\.?l`, every alternative spelled out. */
  const BusinessWords: seq<string> :=
    ["empresa", "negocio", "compañia", "compañía", "sa de cv", "s.a.", "spr", "srl", "s.rl", "sr.l", "s.r.l"]

  /** `mi casa|remodelaci[oó]n|arreglar|reparar|ba[nñ]o|cocina|cuarto`. */
  const HomeWords: seq<string> :=
    ["mi casa", "remodelacion", "remodelación", "arreglar", "reparar", "bano", "baño", "cocina", "cuarto"]

  /** The first rule of the cascade. */
  predicate ContractorSignal(intents: set<string>, lower: string)
  {
    "contratista" in intents || ContainsAny(lower, ContractorWords)
  }

  /** `classify_client_type` / `classifyClientType`: the first matching rule
   *  decides; `text` is the session's visitor texts joined by spaces. */
  function ClassifyClientType(intents: set<string>, products: set<string>, text: string): ClientType
  {
    var lower := ToLower(text);
    if ContractorSignal(intents, lower) then Contractor
    else if "cotizacion_mayoreo" in intents && |products| >= 2 then Wholesaler
    else if "cotizacion_mayoreo" in intents then VolumeBuyer
    else if ContainsAny(lower, BusinessWords) then Business
    else if ContainsAny(lower, HomeWords) then HomeOwner
    else if "talleres_clinicas" in intents then Trainee
    else if "factura" in intents then Invoiced
    else Prospect
  }

  /** The cascade written as an ordered rule table. */
  function Rules(intents: set<string>, products: set<string>, lower: string): seq<(bool, ClientType)>
  {
    [ (ContractorSignal(intents, lower), Contractor),
      ("cotizacion_mayoreo" in intents && |products| >= 2, Wholesaler),
      ("cotizacion_mayoreo" in intents, VolumeBuyer),
      (ContainsAny(lower, BusinessWords), Business),
      (ContainsAny(lower, HomeWords), HomeOwner),
      ("talleres_clinicas" in intents, Trainee),
      ("factura" in intents, Invoiced) ]
  }

  /** Reference reading of a rule table: the first rule that fires, else the default. */
  function FirstMatch(rules: seq<(bool, ClientType)>, default: ClientType): (r: ClientType)
    ensures r == default || exists i :: 0 <= i < |rules| && rules[i].0 && rules[i].1 == r
    ensures forall i :: 0 <= i < |rules| && rules[i].0 && (forall j :: 0 <= j < i ==> !rules[j].0) ==> r == rules[i].1
    decreases |rules|
  {
    if rules == [] then default
    else if rules[0].0 then rules[0].1
    else
      var r := FirstMatch(rules[1..], default);
      assert forall i :: 1 <= i < |rules| ==> rules[i] == rules[1..][i - 1];
      r
  }

  lemma ClassifyIsFirstMatch(intents: set<string>, products: set<string>, text: string)
    ensures ClassifyClientType(intents, products, text) == FirstMatch(Rules(intents, products, ToLower(text)), Prospect)
  {
    var rules := Rules(intents, products, ToLower(text));
    var r := FirstMatch(rules, Prospect);
    if rules[0].0 {
      assert r == rules[0].1;
    } else if rules[1].0 {
      assert r == rules[1].1;
    } else if rules[2].0 {
      assert r == rules[2].1;
    } else if rules[3].0 {
      assert r == rules[3].1;
    } else if rules[4].0 {
      assert r == rules[4].1;
    } else if rules[5].0 {
      assert r == rules[5].1;
    } else if rules[6].0 {
      assert r == rules[6].1;
    } else {
      assert forall i :: 0 <= i < |rules| ==> !rules[i].0;
    }
  }

  /** Rule 1 outranks everything: a contractor intent or contractor wording
   *  wins even when the bulk-quote rules would also fire. */
  lemma ContractorOutranksBulk(intents: set<string>, products: set<string>, text: string)
    requires ContractorSignal(intents, ToLower(text))
    ensures ClassifyClientType(intents, products, text) == Contractor
  {
  }

  /** Contractor exactly when rule 1 fires. */
  lemma ContractorIff(intents: set<string>, products: set<string>, text: string)
    ensures ClassifyClientType(intents, products, text) == Contractor <==> ContractorSignal(intents, ToLower(text))
  {
  }

  /** A bulk quote splits on two distinct products, whenever rule 1 is silent. */
  lemma BulkQuoteSplit(intents: set<string>, products: set<string>, text: string)
    requires "cotizacion_mayoreo" in intents && !ContractorSignal(intents, ToLower(text))
    ensures ClassifyClientType(intents, products, text) == (if |products| >= 2 then Wholesaler else VolumeBuyer)
  {
  }

  /** 'Prospecto General' exactly when no rule fires. */
  lemma ProspectIffNoRule(intents: set<string>, products: set<string>, text: string)
    ensures ClassifyClientType(intents, products, text) == Prospect
        <==> forall i :: 0 <= i < 7 ==> !Rules(intents, products, ToLower(text))[i].0
  {
    ClassifyIsFirstMatch(intents, products, text);
  }

  // ---------------------------------------------------------------- priority

  /** Recency: 40 / 30 / 20 / 10 points up to 3 / 7 / 14 / 30 days, then 0. */
  function RecencyPoints(daysAgo: int): (p: int)
    ensures 0 <= p <= 40
  {
    if daysAgo <= 3 then 40
    else if daysAgo <= 7 then 30
    else if daysAgo <= 14 then 20
    else if daysAgo <= 30 then 10
    else 0
  }

  /** `min(len(products) * 5, 15)`. */
  function ProductPoints(numProducts: nat): (p: nat)
    ensures p <= 15 && p <= 5 * numProducts
    ensures numProducts >= 3 ==> p == 15
  {
    if numProducts * 5 < 15 then numProducts * 5 else 15
  }

  function EngagementPoints(numMessages: int): (p: int)
    ensures 0 <= p <= 10
  {
    if numMessages >= 8 then 10 else if numMessages >= 5 then 5 else 0
  }

  function IntentPoints(intents: set<string>): (p: int)
    ensures 0 <= p <= 55
  {
    (if "cotizacion_mayoreo" in intents then 20 else 0)
    + (if "contratista" in intents then 15 else 0)
    + (if "busca_producto" in intents then 10 else 0)
    + (if "precio" in intents then 10 else 0)
  }

  /** −15 for 'solo_viendo'; −10 when 'problema_sitio' is the only intent. */
  function Penalty(intents: set<string>): (p: int)
    ensures 0 <= p <= 25
  {
    (if "solo_viendo" in intents then 15 else 0)
    + (if "problema_sitio" in intents && |intents| == 1 then 10 else 0)
  }

  /** The unclamped score accumulated by `calculate_priority`. */
  function Score(daysAgo: int, hasEmail: bool, intents: set<string>, products: set<string>, numMessages: int): int
  {
    RecencyPoints(daysAgo) + (if hasEmail then 15 else 0) + IntentPoints(intents)
    + ProductPoints(|products|) + EngagementPoints(numMessages) - Penalty(intents)
  }

  /** Tier 1 (best) to 5 from the score alone; thresholds 70, 50, 35 and 20. */
  function Tier(score: int): (t: int)
    ensures 1 <= t <= 5
  {
    if score >= 70 then 1
    else if score >= 50 then 2
    else if score >= 35 then 3
    else if score >= 20 then 4
    else 5
  }

  datatype Priority = Priority(num: int, caption: string)

  function TierLabel(t: int): string
  {
    if t == 1 then "\U{1F534} MÁXIMA"
    else if t == 2 then "\U{1F7E0} ALTA"
    else if t == 3 then "\U{1F7E1} MEDIA"
    else if t == 4 then "\U{1F535} BAJA"
    else "\U{26AA} MUY BAJA"
  }

  /** `calculate_priority` / `calculatePriority`. */
  function CalculatePriority(daysAgo: int, hasEmail: bool, intents: set<string>, products: set<string>, numMessages: int): (p: Priority)
    ensures 1 <= p.num <= 5
    ensures p.caption == TierLabel(p.num)
  {
    var t := Tier(Score(daysAgo, hasEmail, intents, products, numMessages));
    Priority(t, TierLabel(t))
  }

  const Thresholds: seq<int> := [70, 50, 35, 20]

  /** Reference definition of the tier: one plus the number of thresholds the
   *  score falls short of. */
  lemma TierCountsMissedThresholds(score: int)
    ensures Tier(score) == 1 + Count(Thresholds, t => score < t)
  {
    var p := t => score < t;
    assert Thresholds[..3][..2][..1][..0] == [];
    assert Thresholds[..3][..2] == Thresholds[..2] && Thresholds[..2][..1] == Thresholds[..1];
    assert Thresholds[..4] == Thresholds && Thresholds[..4][..3] == Thresholds[..3];
    assert Filter(Thresholds[..1], p) == if score < 70 then [70] else [];
    assert Filter(Thresholds[..2], p) == Filter(Thresholds[..1], p) + (if score < 50 then [50] else []);
    assert Filter(Thresholds[..3], p) == Filter(Thresholds[..2], p) + (if score < 35 then [35] else []);
    assert Filter(Thresholds, p) == Filter(Thresholds[..3], p) + (if score < 20 then [20] else []);
  }

  lemma TierBoundaries()
    ensures Tier(70) == 1 && Tier(69) == 2 && Tier(50) == 2 && Tier(49) == 3
    ensures Tier(35) == 3 && Tier(34) == 4 && Tier(20) == 4 && Tier(19) == 5
  {
  }

  /** A higher score never gives a worse tier. */
  lemma TierMonotone(s1: int, s2: int)
    requires s1 <= s2
    ensures Tier(s2) <= Tier(s1)
  {
  }

  /** On a fixed input, a more recent chat never scores lower nor ranks worse. */
  lemma RecencyMonotone(d1: int, d2: int, hasEmail: bool, intents: set<string>, products: set<string>, n: int)
    requires d1 <= d2
    ensures Score(d1, hasEmail, intents, products, n) >= Score(d2, hasEmail, intents, products, n)
    ensures CalculatePriority(d1, hasEmail, intents, products, n).num <= CalculatePriority(d2, hasEmail, intents, products, n).num
  {
    TierMonotone(Score(d2, hasEmail, intents, products, n), Score(d1, hasEmail, intents, products, n));
  }

  /** The points a purchase intent is worth: 20 for a bulk quote, 15 for a
   *  contractor, 10 for a product search or a price question. */
  function IntentWeight(intent: string): (w: int)
    ensures w > 0 <==> intent in {"cotizacion_mayoreo", "contratista", "busca_producto", "precio"}
  {
    if intent == "cotizacion_mayoreo" then 20
    else if intent == "contratista" then 15
    else if intent == "busca_producto" || intent == "precio" then 10
    else 0
  }

  /** Adding a newly detected purchase intent raises the score by at least
   *  its weight (more when it lifts the site-problem penalty) and never
   *  worsens the tier. */
  lemma IntentMonotone(d: int, hasEmail: bool, intents: set<string>, x: string, products: set<string>, n: int)
    requires IntentWeight(x) > 0 && x !in intents
    ensures Score(d, hasEmail, intents + {x}, products, n) >= Score(d, hasEmail, intents, products, n) + IntentWeight(x)
    ensures CalculatePriority(d, hasEmail, intents + {x}, products, n).num <= CalculatePriority(d, hasEmail, intents, products, n).num
  {
    var more := intents + {x};
    assert IntentPoints(more) == IntentPoints(intents) + IntentWeight(x);
    assert Penalty(more) <= Penalty(intents);
    TierMonotone(Score(d, hasEmail, intents, products, n), Score(d, hasEmail, more, products, n));
  }

  /** An e-mail address is worth exactly 15 points. */
  lemma EmailBonus(d: int, intents: set<string>, products: set<string>, n: int)
    ensures Score(d, true, intents, products, n) == Score(d, false, intents, products, n) + 15
  {
  }

  /** Products beyond the third add nothing. */
  lemma ProductCap(d: int, hasEmail: bool, intents: set<string>, p1: set<string>, p2: set<string>, n: int)
    requires |p1| >= 3 && |p2| >= 3
    ensures Score(d, hasEmail, intents, p1, n) == Score(d, hasEmail, intents, p2, n)
  {
  }

  /** The two penalties never apply together, so the score lies in −15..135
   *  although it is never clamped. */
  lemma ScoreBounds(d: int, hasEmail: bool, intents: set<string>, products: set<string>, n: int)
    ensures -15 <= Score(d, hasEmail, intents, products, n) <= 135
  {
    if "solo_viendo" in intents && "problema_sitio" in intents {
      assert {"solo_viendo", "problema_sitio"} <= intents;
      assert |{"solo_viendo", "problema_sitio"}| == 2;
      assert |intents| >= 2 by {
        SubsetCardinality({"solo_viendo", "problema_sitio"}, intents);
      }
    }
  }

  lemma SubsetCardinality(a: set<string>, b: set<string>)
    requires a <= b
    ensures |a| <= |b|
  {
    assert b == a + (b - a);
  }

  /** The site-problem penalty needs 'problema_sitio' to be the only intent. */
  lemma SiteProblemPenalty(intents: set<string>)
    ensures ("problema_sitio" in intents && |intents| == 1) <==> intents == {"problema_sitio"}
  {
    if "problema_sitio" in intents && |intents| == 1 {
      var rest := intents - {"problema_sitio"};
      assert |rest| == 0;
      assert intents == rest + {"problema_sitio"};
    }
  }

  // ---------------------------------------------------------------- suggested approach

  const BulkQuoteNote := "Enviar cotización personalizada de: "
  const BulkContactNote := "Contactar para conocer necesidades de mayoreo y enviar catálogo"
  const ContractorNote := "Ofrecer programa de descuentos para contratistas y línea de crédito"
  const DistributorNote := "Presentar programa de distribución y precios especiales por volumen"
  const WorkshopNote := "Invitar a próximos talleres y ofrecer descuento post-capacitación"
  const PriceListNote := "Enviar lista de precios actualizada de los productos consultados"
  const InvoiceNote := "Ya es cliente - verificar historial y ofrecer recompra con beneficios"
  const SiteProblemNote := "Disculparse por inconvenientes técnicos y ofrecer atención directa"
  const ProductInfoNote := "Contactar ofreciendo información sobre: "
  const CatalogNote := "Enviar catálogo general y promociones vigentes"

  function If(c: bool, note: string): seq<string>
  {
    if c then [note] else []
  }

  /** The suggestions triggered by the session, in the order the rules are
   *  written; `products` is the session's product set in iteration order. */
  function Triggered(intents: set<string>, products: seq<string>, ct: ClientType): seq<string>
  {
    var prodList := Join(products, ", ");
    (if "cotizacion_mayoreo" in intents then
       [if products != [] then BulkQuoteNote + prodList else BulkContactNote]
     else [])
    + If("contratista" in intents || ct == Contractor, ContractorNote)
    + If(ct == Wholesaler, DistributorNote)
    + If("talleres_clinicas" in intents, WorkshopNote)
    + If("precio" in intents, PriceListNote)
    + If("factura" in intents, InvoiceNote)
    + If("problema_sitio" in intents, SiteProblemNote)
  }

  /** The suggestion list, with the fallback when no rule fires. */
  function Suggestions(intents: set<string>, products: seq<string>, ct: ClientType): (r: seq<string>)
    ensures |r| >= 1
    ensures forall i :: 0 <= i < |r| ==> r[i] != ""
  {
    var t := Triggered(intents, products, ct);
    if t != [] then t
    else if products != [] then [ProductInfoNote + Join(products, ", ")]
    else [CatalogNote]
  }

  /** `suggest_approach` / `suggestApproach`: never empty. */
  function SuggestApproach(intents: set<string>, products: seq<string>, ct: ClientType): (r: string)
    ensures r != ""
  {
    var s := Suggestions(intents, products, ct);
    JoinNonEmpty(s, " | ");
    Join(s, " | ")
  }

  /** No rule fires exactly when the session shows none of the triggering
   *  intents and is neither a contractor nor a distributor; only then is the
   *  generic fallback used, and it names the products when there are any. */
  lemma FallbackIffNothingTriggered(intents: set<string>, products: seq<string>, ct: ClientType)
    ensures Triggered(intents, products, ct) == []
        <==> ("cotizacion_mayoreo" !in intents && "contratista" !in intents && ct != Contractor && ct != Wholesaler
              && "talleres_clinicas" !in intents && "precio" !in intents && "factura" !in intents && "problema_sitio" !in intents)
    ensures Triggered(intents, products, ct) != [] ==> Suggestions(intents, products, ct) == Triggered(intents, products, ct)
    ensures Triggered(intents, products, ct) == [] ==>
      Suggestions(intents, products, ct) == [if products == [] then CatalogNote else ProductInfoNote + Join(products, ", ")]
  {
  }

  /** A price question always brings the price list, a site problem the apology. */
  lemma PriceAndProblemNotes(intents: set<string>, products: seq<string>, ct: ClientType)
    ensures "precio" in intents ==> PriceListNote in Suggestions(intents, products, ct)
    ensures "problema_sitio" in intents ==> SiteProblemNote in Suggestions(intents, products, ct)
  {
  }
}
