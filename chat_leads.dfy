// The chat-leads report (Python `main`, TypeScript `execute`): one lead per
// live-chat session in which the visitor wrote something, enriched from the
// matching Odoo contact, ranked by priority tier and age, and split into the
// follow-up list (leads with an address) and the missed opportunities
// (leads without one, tiers 1 to 3).
module ChatLeads {
  import opened Wrappers
  import opened Text
  import opened Seqs
  import opened Sorting
  import opened Tally
  import opened Calendar
  import opened ChatSignals
  import opened LeadScoring

  /** The two implementations differ in their catalogs, in how the body is
   *  reduced to text, and in when e-mail addresses are lower-cased. */
  datatype Dialect = Python | TypeScript

  function LeadExtraction(d: Dialect, pats: Patterns): Extraction
  {
    match d
    case Python => Extraction(PyStripHtml(pats.htmlData), PyIntentTags, PyProductTags, pats.matches, pats.findEmails, false)
    case TypeScript => Extraction(StripHtml, TsLeadsIntentTags, TsProductTags, pats.matches, pats.findEmails, true)
  }

  // ---------------------------------------------------------------- records

  /** The `res.partner` fields the enrichment reads; `None` is Odoo's `False`. */
  datatype PartnerRecord = PartnerRecord(
    name: string,
    phone: Option<string>,
    mobile: Option<string>,
    city: Option<string>,
    state: Option<string>,
    company: Option<string>,
    jobTitle: Option<string>,
    isCompany: bool,
    saleOrders: int,
    totalInvoiced: real)

  /** The contact columns of a lead (nombre_odoo, telefono, celular, ciudad,
   *  estado, empresa, puesto, es_empresa, ordenes_venta, total_facturado,
   *  es_cliente_existente). */
  datatype Contact = Contact(
    name: string,
    phone: string,
    mobile: string,
    city: string,
    state: string,
    company: string,
    jobTitle: string,
    isCompany: bool,
    saleOrders: int,
    totalInvoiced: real,
    existingClient: bool)

  const NoContact := Contact("", "", "", "", "", "", "", false, 0, 0.0, false)

  /** One row of the report (session_id, fecha_chat, dias_transcurridos,
   *  priority_num, prioridad, email, tipo_cliente, intenciones,
   *  productos_solicitados, resumen_visitante, sugerencia_abordaje,
   *  num_mensajes, conversacion_completa and the contact columns). */
  datatype Lead = Lead(
    sessionId: int,
    chatDate: string,
    daysAgo: int,
    priorityNum: int,
    priority: string,
    email: string,
    clientType: string,
    intents: string,
    products: string,
    visitorSummary: string,
    approach: string,
    numMessages: int,
    transcript: string,
    contact: Contact)

  // ---------------------------------------------------------------- one session

  /** Python lower-cases and strips the first address; TypeScript has already
   *  lower-cased every address and takes the first as it is. */
  function PrimaryEmail(d: Dialect, emails: seq<string>): string
  {
    if emails == [] then ""
    else if d == Python then Trim(ToLower(emails[0]))
    else emails[0]
  }

  /** `sorted(tags)` / `Array.from(tags).sort()`: code-unit order. */
  function SortedTags(tags: seq<string>): (r: seq<string>)
    ensures multiset(r) == multiset(tags)
    ensures SortedBy(r, CharCodes)
  {
    SortBySorted(tags, CharCodes);
    SortBy(tags, CharCodes)
  }

  /** The tags, sorted and comma-joined, or the placeholder when there are none. */
  function TagList(tags: seq<string>, placeholder: string): string
  {
    if tags == [] then placeholder else Join(SortedTags(tags), ", ")
  }

  /** The signals of one session: its fetched messages, oldest first, read
   *  with the dialect's catalogs. */
  function SessionSignals(d: Dialect, pats: Patterns, msgs: seq<Message>): Signals
  {
    SignalsOf(Chronological(msgs), LeadExtraction(d, pats))
  }

  /** The lead of one session whose fetched messages are `msgs`, or `None`
   *  when the visitor wrote nothing that survives the filters. */
  function BuildLead(d: Dialect, pats: Patterns, now: DateTime, session: Session, msgs: seq<Message>): Option<Lead>
  {
    var s := SessionSignals(d, pats, msgs);
    if s.visitorTexts == [] then None else Some(LeadFrom(d, AgeDays(now, session.created), session, |msgs|, s))
  }

  /** The lead row of a session with visitor text. */
  function LeadFrom(d: Dialect, days: int, session: Session, numMessages: int, s: Signals): Lead
  {
    var intents := Elems(s.intents);
    var products := Elems(s.products);
    var ct := ClassifyClientType(intents, products, Join(s.visitorTexts, " "));
    var p := CalculatePriority(days, s.emails != [], intents, products, numMessages);
    Lead(session.id, session.createDate, days, p.num, p.caption, PrimaryEmail(d, s.emails), ct.Label(),
         TagList(s.intents, "sin_clasificar"), TagList(s.products, "No especificado"),
         Join(Take(s.visitorTexts, 6), " | "), SuggestApproach(intents, s.products, ct),
         numMessages, Join(s.transcript, "\n"), NoContact)
  }

  /** A session yields a lead exactly when one of its messages is the
   *  visitor's and is not noise. */
  lemma LeadIffVisitorSpoke(d: Dialect, pats: Patterns, now: DateTime, session: Session, msgs: seq<Message>)
    ensures BuildLead(d, pats, now, session, msgs).Some?
        <==> exists m :: m in msgs && Speaks(m, LeadExtraction(d, pats))
  {
    SpokeIffSomeMessageSpeaks(msgs, LeadExtraction(d, pats));
  }

  /** The engagement count is the number of all the session's messages,
   *  noise and operator turns included. */
  lemma EngagementCountsEveryMessage(d: Dialect, pats: Patterns, now: DateTime, session: Session, msgs: seq<Message>)
    requires BuildLead(d, pats, now, session, msgs).Some?
    ensures BuildLead(d, pats, now, session, msgs).value.numMessages == |msgs|
  {
  }

  /** The lead's address is the first one found, in visitor-message order:
   *  lower-cased and stripped by Python, already lower-cased by TypeScript. */
  lemma PrimaryEmailIsFirstFound(d: Dialect, pats: Patterns, now: DateTime, session: Session, msgs: seq<Message>)
    requires BuildLead(d, pats, now, session, msgs).Some?
    ensures var x := LeadExtraction(d, pats);
      var found := EmailsOf(SessionSignals(d, pats, msgs).visitorTexts, x);
      BuildLead(d, pats, now, session, msgs).value.email
        == (if found == [] then "" else if d == Python then Trim(ToLower(found[0])) else found[0])
    ensures var e := BuildLead(d, pats, now, session, msgs).value.email;
      ToLower(e) == e
  {
    var x := LeadExtraction(d, pats);
    var s := SessionSignals(d, pats, msgs);
    EmailsComeFromVisitorTexts(Chronological(msgs), x);
    var e := BuildLead(d, pats, now, session, msgs).value.email;
    assert e == PrimaryEmail(d, s.emails);
    if s.emails != [] {
      if d == Python {
        LowerIdempotent(s.emails[0]);
        TrimKeepsLower(ToLower(s.emails[0]));
      } else {
        LoweredEmailsAreLowerCase(s.visitorTexts, x);
        assert s.emails[0] == EmailsOf(s.visitorTexts, x)[0];
      }
    }
  }

  /** Trimming keeps a lower-case text lower-case. */
  lemma TrimKeepsLower(y: string)
    requires ToLower(y) == y
    ensures ToLower(Trim(y)) == Trim(y)
  {
    var t := TrimStart(y);
    var off := |y| - |t|;
    var r := TrimEnd(t);
    assert forall i :: 0 <= i < |y| ==> LowerChar(y[i]) == y[i] by {
      forall i | 0 <= i < |y| ensures LowerChar(y[i]) == y[i] {
        assert ToLower(y)[i] == LowerChar(y[i]);
      }
    }
    forall i | 0 <= i < |r| ensures ToLower(r)[i] == r[i] {
      assert r[i] == t[i] == y[off + i];
    }
  }

  /** A session with no classified intent shows the placeholder; otherwise
   *  the intents column lists them in sorted order. */
  lemma IntentColumn(tags: seq<string>)
    ensures tags == [] ==> TagList(tags, "sin_clasificar") == "sin_clasificar"
    ensures tags != [] ==>
      (TagList(tags, "sin_clasificar") == Join(SortedTags(tags), ", ")
       && multiset(SortedTags(tags)) == multiset(tags) && SortedBy(SortedTags(tags), CharCodes))
  {
  }

  // ---------------------------------------------------------------- all sessions

  /** The lead of one session, reading its messages out of all the fetched ones. */
  function LeadOf(d: Dialect, pats: Patterns, now: DateTime, all: seq<Message>): Session -> Option<Lead>
  {
    (s: Session) => BuildLead(d, pats, now, s, MessagesOf(all, s.id))
  }

  /** The leads of `sessions`, in session order. */
  function LeadsOf(d: Dialect, pats: Patterns, now: DateTime, sessions: seq<Session>, all: seq<Message>): (r: seq<Lead>)
    ensures |r| <= |sessions|
  {
    Collect(sessions, LeadOf(d, pats, now, all))
  }

  /** Every lead comes from one of the sessions, and every session with
   *  visitor text contributes its lead. */
  lemma LeadsOfSessions(d: Dialect, pats: Patterns, now: DateTime, sessions: seq<Session>, all: seq<Message>, l: Lead)
    ensures l in LeadsOf(d, pats, now, sessions, all) <==>
      exists i :: 0 <= i < |sessions| && BuildLead(d, pats, now, sessions[i], MessagesOf(all, sessions[i].id)) == Some(l)
  {
    CollectMembership(sessions, LeadOf(d, pats, now, all), l);
  }

  /** The set of lead addresses, gathered lead by lead. */
  function LeadEmails(leads: seq<Lead>): set<string>
    decreases |leads|
  {
    if leads == [] then {}
    else
      var l := leads[|leads| - 1];
      LeadEmails(leads[..|leads| - 1]) + (if l.email != "" then {l.email} else {})
  }

  /** The lead addresses are exactly the non-empty primary addresses. */
  lemma {:induction false} LeadEmailsAreEmails(leads: seq<Lead>, e: string)
    ensures e in LeadEmails(leads) <==> e != "" && exists i :: 0 <= i < |leads| && leads[i].email == e
    decreases |leads|
  {
    if leads != [] {
      var init := leads[..|leads| - 1];
      LeadEmailsAreEmails(init, e);
      if e != "" && exists i :: 0 <= i < |leads| && leads[i].email == e {
        var i :| 0 <= i < |leads| && leads[i].email == e;
        if i < |init| {
          assert init[i] == leads[i];
        }
      }
      if exists i :: 0 <= i < |init| && init[i].email == e {
        var i :| 0 <= i < |init| && init[i].email == e;
        assert leads[i] == init[i];
      }
    }
  }

  lemma LeadEmailsSnoc(leads: seq<Lead>, l: Lead)
    ensures LeadEmails(leads + [l]) == LeadEmails(leads) + (if l.email != "" then {l.email} else {})
  {
    assert (leads + [l])[..|leads|] == leads;
  }

  /** The lead of one session, from the messages grouped by session. */
  method SessionLead(d: Dialect, pats: Patterns, now: DateTime, groups: map<int, seq<Message>>, all: seq<Message>, s: Session)
    returns (lead: Option<Lead>)
    requires forall sid :: GroupOf(groups, sid) == MessagesOf(all, sid)
    ensures lead == LeadOf(d, pats, now, all)(s)
  {
    lead := BuildLead(d, pats, now, s, GroupOf(groups, s.id));
  }

  /** `leads.append(lead)` and `lead_emails.add(email)` for a session that
   *  produced a lead; nothing for one that did not. */
  method KeepLead(leads: seq<Lead>, leadEmails: set<string>, lead: Option<Lead>)
    returns (leads': seq<Lead>, leadEmails': set<string>)
    requires leadEmails == LeadEmails(leads)
    ensures leads' == leads + (if lead.Some? then [lead.value] else [])
    ensures leadEmails' == LeadEmails(leads')
  {
    leads', leadEmails' := leads, leadEmails;
    if lead.Some? {
      var l := lead.value;
      LeadEmailsSnoc(leads, l);
      leads' := leads + [l];
      if l.email != "" {
        leadEmails' := leadEmails + {l.email};
      }
    }
  }

  /** The session loop of `main` / `execute`. */
  method ExtractLeads(d: Dialect, pats: Patterns, now: DateTime, sessions: seq<Session>, all: seq<Message>)
    returns (leads: seq<Lead>, leadEmails: set<string>)
    ensures leads == LeadsOf(d, pats, now, sessions, all)
    ensures leadEmails == LeadEmails(leads)
  {
    var groups := GroupByResId(all);
    leads := [];
    leadEmails := {};
    var i := 0;
    while i < |sessions|
      invariant 0 <= i <= |sessions|
      invariant leads == LeadsOf(d, pats, now, sessions[..i], all)
      invariant leadEmails == LeadEmails(leads)
    {
      var lead := SessionLead(d, pats, now, groups, all, sessions[i]);
      LeadsOfSnoc(d, pats, now, sessions, all, i, lead);
      leads, leadEmails := KeepLead(leads, leadEmails, lead);
      i := i + 1;
    }
    assert sessions[..|sessions|] == sessions;
  }

  lemma LeadsOfSnoc(d: Dialect, pats: Patterns, now: DateTime, sessions: seq<Session>, all: seq<Message>, i: nat, lead: Option<Lead>)
    requires i < |sessions| && lead == LeadOf(d, pats, now, all)(sessions[i])
    ensures LeadsOf(d, pats, now, sessions[..i + 1], all)
            == LeadsOf(d, pats, now, sessions[..i], all) + (if lead.Some? then [lead.value] else [])
  {
    CollectSnocWith(sessions, LeadOf(d, pats, now, all), i, lead);
  }

  // ---------------------------------------------------------------- enrichment

  function ContactOf(d: Dialect, p: PartnerRecord): (c: Contact)
    ensures c.existingClient <==> p.saleOrders > 0 || p.totalInvoiced > 0.0
  {
    Contact(p.name, p.phone.GetOr(""), p.mobile.GetOr(""), p.city.GetOr(""), p.state.GetOr(""),
            p.company.GetOr(""), p.jobTitle.GetOr(""), d == Python && p.isCompany,
            p.saleOrders, p.totalInvoiced, p.saleOrders > 0 || p.totalInvoiced > 0.0)
  }

  /** A lead with an address that Odoo knows takes over the contact's data. */
  function Enriched(d: Dialect, l: Lead, found: map<string, PartnerRecord>): Lead
  {
    if l.email != "" && l.email in found then l.(contact := ContactOf(d, found[l.email])) else l
  }

  /** Enrichment touches the contact columns only, and marks an existing
   *  client exactly when Odoo reports a sale order or an invoiced amount. */
  lemma EnrichedOnlyContact(d: Dialect, l: Lead, found: map<string, PartnerRecord>)
    requires l.contact == NoContact
    ensures Enriched(d, l, found).(contact := NoContact) == l
    ensures Enriched(d, l, found).contact.existingClient
        <==> l.email != "" && l.email in found && (found[l.email].saleOrders > 0 || found[l.email].totalInvoiced > 0.0)
  {
  }

  method EnrichLeads(d: Dialect, leads: array<Lead>, found: map<string, PartnerRecord>)
    modifies leads
    ensures forall i :: 0 <= i < leads.Length ==> leads[i] == Enriched(d, old(leads[i]), found)
  {
    var i := 0;
    while i < leads.Length
      invariant 0 <= i <= leads.Length
      invariant forall k :: 0 <= k < i ==> leads[k] == Enriched(d, old(leads[k]), found)
      invariant forall k :: i <= k < leads.Length ==> leads[k] == old(leads[k])
    {
      var l := leads[i];
      if l.email != "" && l.email in found {
        leads[i] := l.(contact := ContactOf(d, found[l.email]));
      }
      i := i + 1;
    }
  }

  // ---------------------------------------------------------------- ranking and lists

  /** `(priority_num, dias_transcurridos)`. */
  function LeadKey(l: Lead): seq<int>
  {
    [l.priorityNum, l.daysAgo]
  }

  /** `leads.sort(...)`: the array ends as the stable sort of its contents. */
  method SortLeads(leads: array<Lead>)
    modifies leads
    ensures leads[..] == SortBy(old(leads[..]), LeadKey)
    ensures forall k :: Filter(leads[..], KeyIs(LeadKey, k)) == Filter(old(leads[..]), KeyIs(LeadKey, k))
  {
    var sorted := SortBy(leads[..], LeadKey);
    SortByLength(leads[..], LeadKey);
    forall i | 0 <= i < leads.Length {
      leads[i] := sorted[i];
    }
    assert leads[..] == sorted;
    forall k ensures Filter(sorted, KeyIs(LeadKey, k)) == Filter(old(leads[..]), KeyIs(LeadKey, k)) {
      SortByStable(old(leads[..]), LeadKey, k);
    }
  }

  /** After ranking, tiers never decrease and within a tier older chats come
   *  later; leads with the same tier and age keep their order. */
  lemma RankedOrder(leads: seq<Lead>)
    ensures var r := SortBy(leads, LeadKey);
      multiset(r) == multiset(leads)
      && (forall i :: 0 <= i < |r| - 1 ==>
           r[i].priorityNum < r[i + 1].priorityNum
           || (r[i].priorityNum == r[i + 1].priorityNum && r[i].daysAgo <= r[i + 1].daysAgo))
      && forall k :: Filter(r, KeyIs(LeadKey, k)) == Filter(leads, KeyIs(LeadKey, k))
  {
    var r := SortBy(leads, LeadKey);
    forall k ensures Filter(r, KeyIs(LeadKey, k)) == Filter(leads, KeyIs(LeadKey, k)) {
      SortByStable(leads, LeadKey, k);
    }
    SortBySorted(leads, LeadKey);
    forall i | 0 <= i < |r| - 1
      ensures r[i].priorityNum < r[i + 1].priorityNum
           || (r[i].priorityNum == r[i + 1].priorityNum && r[i].daysAgo <= r[i + 1].daysAgo)
    {
      assert LexLe(LeadKey(r[i]), LeadKey(r[i + 1]));
      LexLePair(r[i].priorityNum, r[i].daysAgo, r[i + 1].priorityNum, r[i + 1].daysAgo);
    }
  }

  lemma LexLePair(a0: int, a1: int, b0: int, b1: int)
    ensures LexLe([a0, a1], [b0, b1]) <==> a0 < b0 || (a0 == b0 && a1 <= b1)
  {
    assert [a0, a1][1..] == [a1] && [b0, b1][1..] == [b1];
    assert [a1][1..] == [] && [b1][1..] == [];
    assert LexLe([a1], [b1]) <==> a1 <= b1;
  }

  predicate HasEmail(l: Lead)
  {
    l.email != ""
  }

  predicate LacksEmail(l: Lead)
  {
    l.email == ""
  }

  /** Email-less leads worth a second look: tiers 1 to 3. */
  predicate MissedOpportunity(l: Lead)
  {
    l.email == "" && l.priorityNum <= 3
  }

  /** The follow-up list and the missed opportunities hold exactly the leads
   *  with, and the tier-1-to-3 leads without, an address; the leads with and
   *  without an address together are all the leads. */
  lemma ListsPartition(leads: seq<Lead>, l: Lead)
    ensures l in Filter(leads, HasEmail) <==> l in leads && l.email != ""
    ensures l in Filter(leads, MissedOpportunity) <==> l in leads && l.email == "" && l.priorityNum <= 3
    ensures |Filter(leads, HasEmail)| + |Filter(leads, LacksEmail)| == |leads|
  {
    if l in leads && l.email != "" {
      FilterComplete(leads, HasEmail, l);
    }
    if l in leads && l.email == "" && l.priorityNum <= 3 {
      FilterComplete(leads, MissedOpportunity, l);
    }
    FilterComplementLength(leads, HasEmail, LacksEmail);
  }

  function Captions(leads: seq<Lead>): (r: seq<string>)
    ensures |r| == |leads|
  {
    seq(|leads|, i requires 0 <= i < |leads| => leads[i].priority)
  }

  /** `countByPriority`: how many leads carry each tier label. */
  function CountByPriority(leads: seq<Lead>): map<string, nat>
  {
    CountKeys(Captions(leads))
  }

  /** Every lead is counted under its own label, and only there. */
  lemma CountByPriorityCounts(leads: seq<Lead>, caption: string)
    ensures Lookup(CountByPriority(leads), caption) == multiset(Captions(leads))[caption]
    ensures SumMap(CountByPriority(leads)) == |leads|
  {
    CountKeysIsMultiplicity(Captions(leads));
    SumCountKeys(Captions(leads));
  }

  /** The report pipeline after extraction: enrich, rank, split. */
  function Ranked(d: Dialect, leads: seq<Lead>, found: map<string, PartnerRecord>): seq<Lead>
  {
    SortBy(seq(|leads|, i requires 0 <= i < |leads| => Enriched(d, leads[i], found)), LeadKey)
  }

  method LeadsReport(d: Dialect, pats: Patterns, now: DateTime, sessions: seq<Session>, all: seq<Message>,
                     found: map<string, PartnerRecord>)
    returns (withEmail: seq<Lead>, noEmail: seq<Lead>, leadEmails: set<string>)
    ensures var ranked := Ranked(d, LeadsOf(d, pats, now, sessions, all), found);
      withEmail == Filter(ranked, HasEmail) && noEmail == Filter(ranked, MissedOpportunity)
    ensures leadEmails == LeadEmails(LeadsOf(d, pats, now, sessions, all))
  {
    var leads;
    leads, leadEmails := ExtractLeads(d, pats, now, sessions, all);
    var ranked := RankLeads(d, leads, found);
    withEmail := Filter(ranked, HasEmail);
    noEmail := Filter(ranked, MissedOpportunity);
  }

  /** The leads enriched from Odoo and sorted in place. */
  method RankLeads(d: Dialect, leads: seq<Lead>, found: map<string, PartnerRecord>) returns (ranked: seq<Lead>)
    ensures ranked == Ranked(d, leads, found)
    ensures var enriched := seq(|leads|, i requires 0 <= i < |leads| => Enriched(d, leads[i], found));
      multiset(ranked) == multiset(enriched) && SortedBy(ranked, LeadKey)
      && forall k :: Filter(ranked, KeyIs(LeadKey, k)) == Filter(enriched, KeyIs(LeadKey, k))
  {
    var a := new Lead[|leads|](i requires 0 <= i < |leads| => leads[i]);
    assert a[..] == leads;
    EnrichLeads(d, a, found);
    assert a[..] == seq(|leads|, i requires 0 <= i < |leads| => Enriched(d, leads[i], found));
    ghost var enriched := a[..];
    SortLeads(a);
    ranked := a[..];
    SortBySorted(enriched, LeadKey);
  }
}
