// `analyze_chats` of the Python chat-analysis report: every session is
// bucketed by month, weekday (Monday first) and UTC hour; each intent and
// product category counts once per session that mentions it; the addresses
// found are gathered and de-duplicated case-insensitively; and each session
// gets one conversation row. Also the Tijuana hour table of the report.
module PyChatAnalysis {
  import opened Wrappers
  import opened Text
  import opened Seqs
  import opened Tally
  import opened Calendar
  import opened ChatSignals
  import opened SessionColumns

  const WeekdayNames: seq<string> := ["Lunes", "Martes", "Miércoles", "Jueves", "Viernes", "Sábado", "Domingo"]

  function AnalysisExtraction(pats: Patterns): Extraction
  {
    Extraction(PyStripHtml(pats.htmlData), PyIntentTags, PyProductTags, pats.matches, pats.findEmails, false)
  }

  /** One row of `conversations_data`. */
  datatype Conversation = Conversation(
    sessionId: int,
    date: string,
    operator: string,
    country: string,
    active: bool,
    numMessages: nat,
    visitorMessages: string,
    intents: string,
    products: string,
    emails: string)

  datatype Analysis = Analysis(
    totalSessions: nat,
    totalMessages: nat,
    byMonth: map<string, nat>,
    byWeekday: seq<(string, nat)>,
    byHour: map<int, nat>,
    intents: map<string, nat>,
    products: map<string, nat>,
    emailsCaptured: set<string>,
    conversations: seq<Conversation>)

  // ---------------------------------------------------------------- one session

  function ConversationOf(s: Session, numMessages: nat, sig: Signals): Conversation
  {
    Conversation(s.id, s.createDate, s.operator.GetOr("N/A"), s.country.GetOr("N/A"), s.active, numMessages,
                 Join(Take(sig.visitorTexts, 5), " | "),
                 if sig.intents == [] then "sin_clasificar" else Join(sig.intents, ", "),
                 if sig.products == [] then "ninguno" else Join(sig.products, ", "),
                 Join(sig.emails, ", "))
  }

  function WeekdayName(t: DateTime): string
    requires ValidDateTime(t)
  {
    WeekdayNames[MondayFirstWeekday(t)]
  }

  // ---------------------------------------------------------------- per-session columns

  function MonthKeys(ss: seq<Session>): (r: seq<string>)
    requires ValidSessions(ss)
    ensures |r| == |ss|
  {
    seq(|ss|, i requires 0 <= i < |ss| => PyMonthKey(ss[i].created))
  }

  function Weekdays(ss: seq<Session>): (r: seq<string>)
    requires ValidSessions(ss)
    ensures |r| == |ss|
  {
    seq(|ss|, i requires 0 <= i < |ss| => WeekdayName(ss[i].created))
  }

  function Hours(ss: seq<Session>): (r: seq<int>)
    ensures |r| == |ss|
  {
    seq(|ss|, i requires 0 <= i < |ss| => ss[i].created.hour)
  }

  function ConversationFor(x: Extraction, all: seq<Message>): Session -> Conversation
  {
    (s: Session) => ConversationOf(s, |SessionMessages(all, s)|, SessionSignals(x, all, s))
  }

  function Conversations(x: Extraction, all: seq<Message>, ss: seq<Session>): (r: seq<Conversation>)
    ensures |r| == |ss|
  {
    MapSeq(ss, ConversationFor(x, all))
  }

  /** `list(set(e.lower() for e in emails_captured))`. */
  function UniqueEmails(es: seq<string>): set<string>
  {
    set e | e in es :: ToLower(e)
  }

  /** What `analyze_chats` returns. */
  function Analyze(pats: Patterns, sessions: seq<Session>, all: seq<Message>): Analysis
    requires ValidSessions(sessions)
  {
    Analysis(|sessions|, |all|,
             CountKeys(MonthKeys(sessions)),
             Table(CountKeys(Weekdays(sessions)), WeekdayNames),
             CountKeys(Hours(sessions)),
             TagTally(IntentSets(AnalysisExtraction(pats), all, sessions)),
             TagTally(ProductSets(AnalysisExtraction(pats), all, sessions)),
             UniqueEmails(Flatten(EmailLists(AnalysisExtraction(pats), all, sessions))),
             Conversations(AnalysisExtraction(pats), all, sessions))
  }

  // ---------------------------------------------------------------- the loops

  /** The session loop of `analyze_chats`. */
  method AnalyzeChats(pats: Patterns, sessions: seq<Session>, all: seq<Message>) returns (a: Analysis)
    requires ValidSessions(sessions)
    ensures a == Analyze(pats, sessions, all)
  {
    var byMonth, byWeekday, byHour, intents, products, captured, conversations :=
      SessionLoop(AnalysisExtraction(pats), sessions, all);
    a := Analysis(|sessions|, |all|, byMonth, Table(byWeekday, WeekdayNames), byHour, intents, products,
                  UniqueEmails(captured), conversations);
  }

  /** The counters and lists the loop leaves behind. */
  method SessionLoop(x: Extraction, sessions: seq<Session>, all: seq<Message>)
    returns (byMonth: map<string, nat>, byWeekday: map<string, nat>, byHour: map<int, nat>,
             intents: map<string, nat>, products: map<string, nat>, captured: seq<string>,
             conversations: seq<Conversation>)
    requires ValidSessions(sessions)
    ensures byMonth == CountKeys(MonthKeys(sessions)) && byWeekday == CountKeys(Weekdays(sessions))
    ensures byHour == CountKeys(Hours(sessions))
    ensures intents == TagTally(IntentSets(x, all, sessions))
    ensures products == TagTally(ProductSets(x, all, sessions))
    ensures captured == Flatten(EmailLists(x, all, sessions))
    ensures conversations == Conversations(x, all, sessions)
  {
    var groups := GroupByResId(all);
    byMonth, byWeekday, byHour := map[], map[], map[];
    intents, products, captured, conversations := map[], map[], [], [];
    var i := 0;
    while i < |sessions|
      invariant 0 <= i <= |sessions|
      invariant byMonth == CountKeys(MonthKeys(sessions)[..i]) && byWeekday == CountKeys(Weekdays(sessions)[..i])
      invariant byHour == CountKeys(Hours(sessions)[..i])
      invariant intents == TagTally(IntentSets(x, all, sessions)[..i])
      invariant products == TagTally(ProductSets(x, all, sessions)[..i])
      invariant captured == Flatten(EmailLists(x, all, sessions)[..i])
      invariant conversations == Conversations(x, all, sessions)[..i]
    {
      byMonth, byWeekday, byHour := TimeStep(sessions, i, byMonth, byWeekday, byHour);
      intents, products, captured, conversations :=
        SignalStep(x, groups, all, sessions, i, intents, products, captured, conversations);
      i := i + 1;
    }
    assert MonthKeys(sessions)[..i] == MonthKeys(sessions) && Weekdays(sessions)[..i] == Weekdays(sessions);
    assert Hours(sessions)[..i] == Hours(sessions);
    assert IntentSets(x, all, sessions)[..i] == IntentSets(x, all, sessions);
    assert ProductSets(x, all, sessions)[..i] == ProductSets(x, all, sessions);
    assert EmailLists(x, all, sessions)[..i] == EmailLists(x, all, sessions);
    assert Conversations(x, all, sessions)[..i] == Conversations(x, all, sessions);
  }

  /** The time buckets of one session: `by_month`, `by_weekday`, `by_hour`. */
  method TimeStep(sessions: seq<Session>, i: nat, byMonth: map<string, nat>, byWeekday: map<string, nat>,
                  byHour: map<int, nat>)
    returns (byMonth': map<string, nat>, byWeekday': map<string, nat>, byHour': map<int, nat>)
    requires ValidSessions(sessions) && i < |sessions|
    requires byMonth == CountKeys(MonthKeys(sessions)[..i]) && byWeekday == CountKeys(Weekdays(sessions)[..i])
    requires byHour == CountKeys(Hours(sessions)[..i])
    ensures byMonth' == CountKeys(MonthKeys(sessions)[..i + 1])
    ensures byWeekday' == CountKeys(Weekdays(sessions)[..i + 1])
    ensures byHour' == CountKeys(Hours(sessions)[..i + 1])
  {
    var s := sessions[i];
    var month := PyMonthKey(s.created);
    var weekday := WeekdayName(s.created);
    PrefixSnoc(MonthKeys(sessions), i);
    PrefixSnoc(Weekdays(sessions), i);
    PrefixSnoc(Hours(sessions), i);
    CountKeysSnoc(MonthKeys(sessions)[..i], month);
    CountKeysSnoc(Weekdays(sessions)[..i], weekday);
    CountKeysSnoc(Hours(sessions)[..i], s.created.hour);
    byMonth' := Increment(byMonth, month);
    byWeekday' := Increment(byWeekday, weekday);
    byHour' := Increment(byHour, s.created.hour);
  }

  /** What one session's messages add: its tags, its addresses and its row. */
  method SignalStep(x: Extraction, groups: map<int, seq<Message>>, all: seq<Message>, sessions: seq<Session>, i: nat,
                    intents: map<string, nat>, products: map<string, nat>, captured: seq<string>,
                    conversations: seq<Conversation>)
    returns (intents': map<string, nat>, products': map<string, nat>, captured': seq<string>,
             conversations': seq<Conversation>)
    requires forall sid :: GroupOf(groups, sid) == MessagesOf(all, sid)
    requires i < |sessions|
    requires intents == TagTally(IntentSets(x, all, sessions)[..i])
    requires products == TagTally(ProductSets(x, all, sessions)[..i])
    requires captured == Flatten(EmailLists(x, all, sessions)[..i])
    requires conversations == Conversations(x, all, sessions)[..i]
    ensures intents' == TagTally(IntentSets(x, all, sessions)[..i + 1])
    ensures products' == TagTally(ProductSets(x, all, sessions)[..i + 1])
    ensures captured' == Flatten(EmailLists(x, all, sessions)[..i + 1])
    ensures conversations' == Conversations(x, all, sessions)[..i + 1]
  {
    var s := sessions[i];
    var n, sig := ReadSession(x, groups, all, s);
    var ints, prods, found := IntentSets(x, all, sessions), ProductSets(x, all, sessions), EmailLists(x, all, sessions);
    SessionColumnsAt(x, all, sessions, i);
    PrefixSnoc(ints, i);
    PrefixSnoc(prods, i);
    PrefixSnoc(found, i);
    PrefixSnoc(Conversations(x, all, sessions), i);
    TagTallySnoc(ints[..i], ints[i]);
    TagTallySnoc(prods[..i], prods[i]);
    FlattenSnoc(found[..i], found[i]);

    intents' := CountEach(intents, sig.intents);
    products' := CountEach(products, sig.products);
    captured' := captured + sig.emails;
    conversations' := conversations + [ConversationOf(s, n, sig)];
  }


  // ---------------------------------------------------------------- properties

  lemma WeekdayNamesDistinct()
    ensures Distinct(WeekdayNames)
  {
  }

  /** Every session lands in each of the three time tables, whether or not
   *  its visitor wrote anything: each table sums to the number of sessions. */
  lemma TablesCountEverySession(pats: Patterns, sessions: seq<Session>, all: seq<Message>)
    requires ValidSessions(sessions)
    ensures var a := Analyze(pats, sessions, all);
      SumMap(a.byMonth) == a.totalSessions && SumMap(a.byHour) == a.totalSessions
      && TableTotal(a.byWeekday) == a.totalSessions
  {
    SumCountKeys(MonthKeys(sessions));
    SumCountKeys(Hours(sessions));
    var w := Weekdays(sessions);
    var c := CountKeys(w);
    SumCountKeys(w);
    CountKeysIsMultiplicity(w);
    forall k | k in c ensures k in WeekdayNames {
      assert k in multiset(w);
      var i :| 0 <= i < |w| && w[i] == k;
    }
    WeekdayNamesDistinct();
    SumOverKeys(c, WeekdayNames);
    TableTotalIsSumOver(c, WeekdayNames);
  }

  /** The weekday table always lists the seven names, Monday first, each with
   *  the number of sessions created on that day (zero when none was). */
  lemma WeekdayTableZeroFilled(pats: Patterns, sessions: seq<Session>, all: seq<Message>, d: nat)
    requires ValidSessions(sessions) && d < 7
    ensures var t := Analyze(pats, sessions, all).byWeekday;
      |t| == 7 && t[d].0 == WeekdayNames[d]
      && t[d].1 == multiset(Weekdays(sessions))[WeekdayNames[d]]
  {
    CountKeysIsMultiplicity(Weekdays(sessions));
  }

  /** An intent (a product) is counted once for each session that mentions
   *  it, however often it matched, and never more than there are sessions. */
  lemma OncePerSession(pats: Patterns, sessions: seq<Session>, all: seq<Message>, t: string)
    requires ValidSessions(sessions)
    ensures var a := Analyze(pats, sessions, all);
      var x := AnalysisExtraction(pats);
      Lookup(a.intents, t) == SessionsWith(IntentSets(x, all, sessions), t) <= |sessions|
      && Lookup(a.products, t) == SessionsWith(ProductSets(x, all, sessions), t) <= |sessions|
  {
    TalliesCountSessions(AnalysisExtraction(pats), all, sessions, t);
  }

  /** The captured addresses are the lower-cased forms of the addresses found
   *  in visitor text, each listed once. */
  lemma EmailsCapturedAreLowered(pats: Patterns, sessions: seq<Session>, all: seq<Message>, e: string)
    requires ValidSessions(sessions)
    ensures var a := Analyze(pats, sessions, all);
      (e in a.emailsCaptured <==> exists raw :: raw in Flatten(EmailLists(AnalysisExtraction(pats), all, sessions)) && ToLower(raw) == e)
      && (e in a.emailsCaptured ==> ToLower(e) == e)
  {
    var es := Flatten(EmailLists(AnalysisExtraction(pats), all, sessions));
    if e in UniqueEmails(es) {
      var raw :| raw in es && ToLower(raw) == e;
      LowerIdempotent(raw);
    }
  }

  /** One conversation row per session, in session order, with the
   *  placeholders for a session without intents or products. */
  lemma OneConversationPerSession(pats: Patterns, sessions: seq<Session>, all: seq<Message>, i: nat)
    requires ValidSessions(sessions) && i < |sessions|
    ensures var a := Analyze(pats, sessions, all);
      var sig := SessionSignals(AnalysisExtraction(pats), all, sessions[i]);
      |a.conversations| == |sessions| == a.totalSessions
      && a.conversations[i].sessionId == sessions[i].id
      && a.conversations[i].numMessages == |MessagesOf(all, sessions[i].id)|
      && (sig.intents == [] ==> a.conversations[i].intents == "sin_clasificar")
      && (sig.products == [] ==> a.conversations[i].products == "ninguno")
  {
    MessageCount(all, sessions[i]);
  }

  // ---------------------------------------------------------------- Tijuana hour table

  /** The report's 24-row table: UTC hour, Tijuana hour, sessions. */
  function HourTable(byHour: map<int, nat>): (t: seq<(int, int, nat)>)
    ensures |t| == 24
  {
    seq(24, h requires 0 <= h < 24 => (h, TijuanaHour(h), Lookup(byHour, h)))
  }

  function TijuanaColumn(byHour: map<int, nat>): (c: seq<int>)
    ensures |c| == 24
  {
    var t := HourTable(byHour);
    seq(24, i requires 0 <= i < 24 => t[i].1)
  }

  /** The Tijuana column lists every hour of the day exactly once. */
  lemma TijuanaColumnIsPermutation(byHour: map<int, nat>)
    ensures forall i, j :: 0 <= i < j < 24 ==> TijuanaColumn(byHour)[i] != TijuanaColumn(byHour)[j]
    ensures forall h :: 0 <= h < 24 ==> h in TijuanaColumn(byHour)
  {
    var c := TijuanaColumn(byHour);
    forall h | 0 <= h < 24 ensures h in c {
      var i := if h < 16 then h + 8 else h - 16;
      assert c[i] == TijuanaHour(i) == h;
    }
  }

  function HourList(n: nat): (r: seq<int>)
    ensures |r| == n && forall i :: 0 <= i < n ==> r[i] == i
  {
    seq(n, i requires 0 <= i < n => i)
  }

  /** UTC hours fall in 0..23, so the 24-row table shows every session. */
  lemma HourTableShowsEverySession(pats: Patterns, sessions: seq<Session>, all: seq<Message>)
    requires ValidSessions(sessions)
    ensures var t := HourTable(Analyze(pats, sessions, all).byHour);
      TableTotal(seq(24, i requires 0 <= i < 24 => (i, t[i].2))) == |sessions|
  {
    var hs := Hours(sessions);
    var c := CountKeys(hs);
    CountKeysIsMultiplicity(hs);
    SumCountKeys(hs);
    var ks := HourList(24);
    forall k | k in c ensures k in ks {
      assert k in multiset(hs);
      var i :| 0 <= i < |hs| && hs[i] == k;
      assert ks[k] == k;
    }
    SumOverKeys(c, ks);
    TableTotalIsSumOver(c, ks);
    var t := HourTable(c);
    assert seq(24, i requires 0 <= i < 24 => (i, t[i].2)) == Table(c, ks);
  }
}
