// `analyze` of the TypeScript chat-analysis task: the same reading of each
// session as the Python report, with its own catalogs, the Sunday-first
// weekday names, counters that only hold the keys seen, addresses lower-cased
// as they are found and kept once each in first-seen order, and no country
// column.
module TsChatAnalysis {
  import opened Wrappers
  import opened Text
  import opened Seqs
  import opened Tally
  import opened Calendar
  import opened ChatSignals
  import opened SessionColumns

  const Weekdays: seq<string> := ["Domingo", "Lunes", "Martes", "Miércoles", "Jueves", "Viernes", "Sábado"]

  function AnalysisExtraction(pats: Patterns): Extraction
  {
    Extraction(StripHtml, TsAnalysisIntentTags, TsProductTags, pats.matches, pats.findEmails, true)
  }

  /** One `SessionAnalysis` row. */
  datatype Conversation = Conversation(
    sessionId: int,
    date: string,
    operator: string,
    active: bool,
    numMessages: nat,
    visitorMessages: string,
    intents: string,
    products: string,
    emails: string)

  /** `AnalysisResult`. */
  datatype Analysis = Analysis(
    totalSessions: nat,
    totalMessages: nat,
    byMonth: map<string, nat>,
    byWeekday: map<string, nat>,
    byHour: map<int, nat>,
    intents: map<string, nat>,
    products: map<string, nat>,
    emailsCaptured: seq<string>,
    conversations: seq<Conversation>)

  /** `xs.join(', ') || fallback`. */
  function JoinOr(xs: seq<string>, fallback: string): string
  {
    var j := Join(xs, ", ");
    if j == "" then fallback else j
  }

  function ConversationOf(s: Session, numMessages: nat, sig: Signals): Conversation
  {
    Conversation(s.id, s.createDate, s.operator.GetOr("N/A"), s.active, numMessages,
                 Join(Take(sig.visitorTexts, 5), " | "),
                 JoinOr(sig.intents, "sin_clasificar"), JoinOr(sig.products, "ninguno"),
                 Join(sig.emails, ", "))
  }

  function ConversationFor(x: Extraction, all: seq<Message>): Session -> Conversation
  {
    (s: Session) => ConversationOf(s, |SessionMessages(all, s)|, SessionSignals(x, all, s))
  }

  function Conversations(x: Extraction, all: seq<Message>, ss: seq<Session>): (r: seq<Conversation>)
    ensures |r| == |ss|
  {
    MapSeq(ss, ConversationFor(x, all))
  }

  /** `WEEKDAYS[dt.getUTCDay()]`. */
  function WeekdayName(t: DateTime): string
    requires ValidDateTime(t)
  {
    Weekdays[SundayFirstWeekday(t)]
  }

  function MonthKeys(ss: seq<Session>): (r: seq<string>)
    requires ValidSessions(ss)
    ensures |r| == |ss|
  {
    seq(|ss|, i requires 0 <= i < |ss| => TsMonthKey(ss[i].created))
  }

  function WeekdayKeys(ss: seq<Session>): (r: seq<string>)
    requires ValidSessions(ss)
    ensures |r| == |ss|
  {
    seq(|ss|, i requires 0 <= i < |ss| => WeekdayName(ss[i].created))
  }

  function Hours(ss: seq<Session>): (r: seq<int>)
    ensures |r| == |ss|
  {
    seq(|ss|, i requires 0 <= i < |ss| => ss[i].created.hour)
  }

  /** What `analyze` returns. */
  function Analyze(pats: Patterns, sessions: seq<Session>, all: seq<Message>): Analysis
    requires ValidSessions(sessions)
  {
    var x := AnalysisExtraction(pats);
    Analysis(|sessions|, |all|,
             CountKeys(MonthKeys(sessions)),
             CountKeys(WeekdayKeys(sessions)),
             CountKeys(Hours(sessions)),
             TagTally(IntentSets(x, all, sessions)),
             TagTally(ProductSets(x, all, sessions)),
             AddNew([], Flatten(EmailLists(x, all, sessions))),
             Conversations(AnalysisExtraction(pats), all, sessions))
  }

  /** `for (const e of found) emailsSet.add(e)`. */
  method AddEach(d: seq<string>, es: seq<string>) returns (r: seq<string>)
    ensures r == AddNew(d, es)
  {
    r := d;
    var i := 0;
    while i < |es|
      invariant 0 <= i <= |es|
      invariant r == AddNew(d, es[..i])
    {
      assert es[..i + 1][..i] == es[..i];
      if es[i] !in r {
        r := r + [es[i]];
      }
      i := i + 1;
    }
    assert es[..|es|] == es;
  }

  /** The session loop of `analyze`. */
  method AnalyzeChats(pats: Patterns, sessions: seq<Session>, all: seq<Message>) returns (a: Analysis)
    requires ValidSessions(sessions)
    ensures a == Analyze(pats, sessions, all)
  {
    var byMonth, byWeekday, byHour, intents, products, emailsSet, conversations :=
      SessionLoop(AnalysisExtraction(pats), sessions, all);
    a := Analysis(|sessions|, |all|, byMonth, byWeekday, byHour, intents, products, emailsSet, conversations);
  }

  /** The counters and lists the loop leaves behind. */
  method SessionLoop(x: Extraction, sessions: seq<Session>, all: seq<Message>)
    returns (byMonth: map<string, nat>, byWeekday: map<string, nat>, byHour: map<int, nat>,
             intents: map<string, nat>, products: map<string, nat>, emailsSet: seq<string>,
             conversations: seq<Conversation>)
    requires ValidSessions(sessions)
    ensures byMonth == CountKeys(MonthKeys(sessions)) && byWeekday == CountKeys(WeekdayKeys(sessions))
    ensures byHour == CountKeys(Hours(sessions))
    ensures intents == TagTally(IntentSets(x, all, sessions))
    ensures products == TagTally(ProductSets(x, all, sessions))
    ensures emailsSet == AddNew([], Flatten(EmailLists(x, all, sessions)))
    ensures conversations == Conversations(x, all, sessions)
  {
    var groups := GroupByResId(all);
    byMonth, byWeekday, byHour := map[], map[], map[];
    intents, products, emailsSet, conversations := map[], map[], [], [];
    var i := 0;
    while i < |sessions|
      invariant 0 <= i <= |sessions|
      invariant byMonth == CountKeys(MonthKeys(sessions)[..i]) && byWeekday == CountKeys(WeekdayKeys(sessions)[..i])
      invariant byHour == CountKeys(Hours(sessions)[..i])
      invariant intents == TagTally(IntentSets(x, all, sessions)[..i])
      invariant products == TagTally(ProductSets(x, all, sessions)[..i])
      invariant emailsSet == AddNew([], Flatten(EmailLists(x, all, sessions)[..i]))
      invariant conversations == Conversations(x, all, sessions)[..i]
    {
      byMonth, byWeekday, byHour := TimeStep(sessions, i, byMonth, byWeekday, byHour);
      intents, products, emailsSet, conversations :=
        SignalStep(x, groups, all, sessions, i, intents, products, emailsSet, conversations);
      i := i + 1;
    }
    assert MonthKeys(sessions)[..i] == MonthKeys(sessions) && WeekdayKeys(sessions)[..i] == WeekdayKeys(sessions);
    assert Hours(sessions)[..i] == Hours(sessions);
    assert IntentSets(x, all, sessions)[..i] == IntentSets(x, all, sessions);
    assert ProductSets(x, all, sessions)[..i] == ProductSets(x, all, sessions);
    assert EmailLists(x, all, sessions)[..i] == EmailLists(x, all, sessions);
    assert Conversations(x, all, sessions)[..i] == Conversations(x, all, sessions);
  }


  /** The time buckets of one session: `by_month`, `by_weekday`, `by_hour`. */
  method TimeStep(sessions: seq<Session>, i: nat, byMonth: map<string, nat>, byWeekday: map<string, nat>,
                  byHour: map<int, nat>)
    returns (byMonth': map<string, nat>, byWeekday': map<string, nat>, byHour': map<int, nat>)
    requires ValidSessions(sessions) && i < |sessions|
    requires byMonth == CountKeys(MonthKeys(sessions)[..i]) && byWeekday == CountKeys(WeekdayKeys(sessions)[..i])
    requires byHour == CountKeys(Hours(sessions)[..i])
    ensures byMonth' == CountKeys(MonthKeys(sessions)[..i + 1])
    ensures byWeekday' == CountKeys(WeekdayKeys(sessions)[..i + 1])
    ensures byHour' == CountKeys(Hours(sessions)[..i + 1])
  {
    var s := sessions[i];
    var month := TsMonthKey(s.created);
    var weekday := WeekdayName(s.created);
    PrefixSnoc(MonthKeys(sessions), i);
    PrefixSnoc(WeekdayKeys(sessions), i);
    PrefixSnoc(Hours(sessions), i);
    CountKeysSnoc(MonthKeys(sessions)[..i], month);
    CountKeysSnoc(WeekdayKeys(sessions)[..i], weekday);
    CountKeysSnoc(Hours(sessions)[..i], s.created.hour);
    byMonth' := Increment(byMonth, month);
    byWeekday' := Increment(byWeekday, weekday);
    byHour' := Increment(byHour, s.created.hour);
  }

  /** What one session's messages add: its tags, its addresses and its row. */
  method SignalStep(x: Extraction, groups: map<int, seq<Message>>, all: seq<Message>, sessions: seq<Session>, i: nat,
                    intents: map<string, nat>, products: map<string, nat>, emailsSet: seq<string>,
                    conversations: seq<Conversation>)
    returns (intents': map<string, nat>, products': map<string, nat>, emailsSet': seq<string>,
             conversations': seq<Conversation>)
    requires forall sid :: GroupOf(groups, sid) == MessagesOf(all, sid)
    requires i < |sessions|
    requires intents == TagTally(IntentSets(x, all, sessions)[..i])
    requires products == TagTally(ProductSets(x, all, sessions)[..i])
    requires emailsSet == AddNew([], Flatten(EmailLists(x, all, sessions)[..i]))
    requires conversations == Conversations(x, all, sessions)[..i]
    ensures intents' == TagTally(IntentSets(x, all, sessions)[..i + 1])
    ensures products' == TagTally(ProductSets(x, all, sessions)[..i + 1])
    ensures emailsSet' == AddNew([], Flatten(EmailLists(x, all, sessions)[..i + 1]))
    ensures conversations' == Conversations(x, all, sessions)[..i + 1]
  {
    var s := sessions[i];
    var n, sig := ReadSession(x, groups, all, s);
    var ints, prods, found := IntentSets(x, all, sessions), ProductSets(x, all, sessions), EmailLists(x, all, sessions);
    SessionColumnsAt(x, all, sessions, i);
    PrefixSnoc(ints, i);
    PrefixSnoc(prods, i);
    PrefixSnoc(found, i);
    PrefixSnoc(Conversations(x, all, sessions), i);
    TagTallySnoc(ints[..i], ints[i]);
    TagTallySnoc(prods[..i], prods[i]);
    FlattenSnoc(found[..i], found[i]);
    AddNewConcat([], Flatten(found[..i]), found[i]);
    intents' := CountEach(intents, sig.intents);
    products' := CountEach(products, sig.products);
    emailsSet' := AddEach(emailsSet, sig.emails);
    conversations' := conversations + [ConversationOf(s, n, sig)];
  }

  // ---------------------------------------------------------------- properties

  /** `getUTCDay()` and Python's `weekday()` name the same day. */
  lemma WeekdayNamesAgree(t: DateTime)
    requires ValidDateTime(t)
    ensures WeekdayName(t) == ["Lunes", "Martes", "Miércoles", "Jueves", "Viernes", "Sábado", "Domingo"][MondayFirstWeekday(t)]
  {
    WeekdayConventions(t);
  }

  /** Every session is counted once in each time bucket, and only the
   *  buckets some session fell in appear. */
  lemma TablesCountEverySession(pats: Patterns, sessions: seq<Session>, all: seq<Message>)
    requires ValidSessions(sessions)
    ensures var a := Analyze(pats, sessions, all);
      SumMap(a.byMonth) == a.totalSessions && SumMap(a.byWeekday) == a.totalSessions
      && SumMap(a.byHour) == a.totalSessions
    ensures forall k :: k in Analyze(pats, sessions, all).byWeekday ==> k in Weekdays && Lookup(Analyze(pats, sessions, all).byWeekday, k) > 0
  {
    SumCountKeys(MonthKeys(sessions));
    SumCountKeys(WeekdayKeys(sessions));
    SumCountKeys(Hours(sessions));
    var w := WeekdayKeys(sessions);
    CountKeysIsMultiplicity(w);
    forall k | k in CountKeys(w) ensures k in Weekdays && Lookup(CountKeys(w), k) > 0 {
      assert k in multiset(w);
      var i :| 0 <= i < |w| && w[i] == k;
    }
  }

  /** An intent (a product) is counted once for each session that mentions it. */
  lemma OncePerSession(pats: Patterns, sessions: seq<Session>, all: seq<Message>, t: string)
    requires ValidSessions(sessions)
    ensures var a := Analyze(pats, sessions, all);
      var x := AnalysisExtraction(pats);
      Lookup(a.intents, t) == SessionsWith(IntentSets(x, all, sessions), t) <= |sessions|
      && Lookup(a.products, t) == SessionsWith(ProductSets(x, all, sessions), t) <= |sessions|
  {
    TalliesCountSessions(AnalysisExtraction(pats), all, sessions, t);
  }

  /** The captured addresses are the addresses found, each listed once, in
   *  the order first seen, and all of them lower case. */
  lemma EmailsCapturedOnce(pats: Patterns, sessions: seq<Session>, all: seq<Message>, e: string)
    requires ValidSessions(sessions)
    ensures var a := Analyze(pats, sessions, all);
      Distinct(a.emailsCaptured)
      && (e in a.emailsCaptured <==> e in Flatten(EmailLists(AnalysisExtraction(pats), all, sessions)))
      && (e in a.emailsCaptured ==> ToLower(e) == e)
  {
    var x := AnalysisExtraction(pats);
    var es := Flatten(EmailLists(x, all, sessions));
    AddNewDistinct([], es);
    AddNewMembership([], es, e);
    if e in es {
      FoundEmailsAreLower(x, all, sessions, e);
    }
  }

  lemma {:induction false} FoundEmailsAreLower(x: Extraction, all: seq<Message>, ss: seq<Session>, e: string)
    requires x.lowerEmails && e in Flatten(EmailLists(x, all, ss))
    ensures ToLower(e) == e
    decreases |ss|
  {
    var lists := EmailLists(x, all, ss);
    var init := ss[..|ss| - 1];
    assert EmailLists(x, all, init) == lists[..|lists| - 1];
    if e in Flatten(EmailLists(x, all, init)) {
      FoundEmailsAreLower(x, all, init, e);
    } else {
      var sig := SessionSignals(x, all, ss[|ss| - 1]);
      assert e in sig.emails;
      var msgs := SessionMessages(all, ss[|ss| - 1]);
      EmailsComeFromVisitorTexts(msgs, x);
      LoweredEmailsAreLowerCase(sig.visitorTexts, x);
      var k :| 0 <= k < |sig.emails| && sig.emails[k] == e;
    }
  }

  /** One conversation row per session, in session order; the placeholder
   *  shows exactly when the session has no intent (no product). */
  lemma OneConversationPerSession(pats: Patterns, sessions: seq<Session>, all: seq<Message>, i: nat)
    requires ValidSessions(sessions) && i < |sessions|
    ensures var a := Analyze(pats, sessions, all);
      var sig := SessionSignals(AnalysisExtraction(pats), all, sessions[i]);
      |a.conversations| == |sessions| == a.totalSessions
      && a.conversations[i].sessionId == sessions[i].id
      && a.conversations[i].numMessages == |MessagesOf(all, sessions[i].id)|
      && (sig.intents == [] <==> a.conversations[i].intents == "sin_clasificar")
      && (sig.products == [] <==> a.conversations[i].products == "ninguno")
  {
    var x := AnalysisExtraction(pats);
    var sig := SessionSignals(x, all, sessions[i]);
    MessageCount(all, sessions[i]);
    TagsAreCatalogKeys(x, SessionMessages(all, sessions[i]));
    assert Analyze(pats, sessions, all).conversations[i]
      == ConversationOf(sessions[i], |SessionMessages(all, sessions[i])|, sig);
    ConversationPlaceholders(sessions[i], |SessionMessages(all, sessions[i])|, sig);
  }

  lemma TagsAreCatalogKeys(x: Extraction, msgs: seq<Message>)
    ensures forall t :: t in SignalsOf(msgs, x).intents ==> t in x.intentTags
    ensures forall t :: t in SignalsOf(msgs, x).products ==> t in x.productTags
  {
    forall t | t in SignalsOf(msgs, x).intents || t in SignalsOf(msgs, x).products
      ensures (t in SignalsOf(msgs, x).intents ==> t in x.intentTags)
        && (t in SignalsOf(msgs, x).products ==> t in x.productTags)
    {
      TagsAreMentions(msgs, x, t);
    }
  }

  lemma ConversationPlaceholders(s: Session, n: nat, sig: Signals)
    requires forall t :: t in sig.intents ==> t in TsAnalysisIntentTags
    requires forall t :: t in sig.products ==> t in TsProductTags
    ensures (sig.intents == [] <==> ConversationOf(s, n, sig).intents == "sin_clasificar")
    ensures (sig.products == [] <==> ConversationOf(s, n, sig).products == "ninguno")
  {
    JoinOrPlaceholder(sig.intents, "sin_clasificar", TsAnalysisIntentTags);
    JoinOrPlaceholder(sig.products, "ninguno", TsProductTags);
  }

  /** A list of catalog keys joins to the placeholder only when it is empty:
   *  no key is empty or the placeholder, and the placeholder has no comma. */
  lemma JoinOrPlaceholder(tags: seq<string>, fallback: string, catalog: seq<string>)
    requires forall t :: t in tags ==> t in catalog
    requires fallback !in catalog && "" !in catalog && ',' !in fallback
    ensures JoinOr(tags, fallback) == fallback <==> tags == []
  {
    if tags != [] {
      assert tags[0] in catalog;
      JoinNonEmpty(tags, ", ");
      if |tags| > 1 {
        assert Join(tags, ", ") == tags[0] + ", " + Join(tags[1..], ", ");
        assert Join(tags, ", ")[|tags[0]|] == ',';
      }
    }
  }
}
