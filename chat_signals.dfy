// Reading one live-chat session: the per-message loop shared by the
// chat-leads and chat-analysis programs (Python script and TypeScript task).
// Each message body is reduced to plain text; empty and system messages are
// skipped; a message is the visitor's when it has no author or its author is
// not one of the operator accounts; visitor text is searched for e-mail
// addresses, intents and product mentions.
module ChatSignals {
  import opened Wrappers
  import opened Text
  import opened Seqs
  import opened Sorting
  import opened Calendar

  /** `author_id`: `False` for an anonymous visitor, else `[partner id, display name]`. */
  datatype Author = Anonymous | Partner(id: int, name: string)

  datatype Message = Message(id: int, resId: int, date: string, body: string, author: Author)

  /** A livechat session (`discuss.channel`): its id, its `create_date` as
   *  stored and as parsed, the display names of its operator and country
   *  (`False` when unset) and whether it is still open. */
  datatype Session = Session(
    id: int,
    createDate: string,
    created: DateTime,
    operator: Option<string>,
    country: Option<string>,
    active: bool)

  /** `create_date` parses (`strptime` raises otherwise). */
  predicate ValidSessions(sessions: seq<Session>)
  {
    forall i :: 0 <= i < |sessions| ==> ValidDateTime(sessions[i].created)
  }

  /** Partner ids of the accounts that answer the chat (operators and bot). */
  const OperatorIds: set<int> := {7, 8, 2}

  predicate IsVisitor(a: Author)
  {
    a.Anonymous? || a.id !in OperatorIds
  }

  /** Skipped messages: empty after stripping, session restarts, and the
   *  "left the conversation" notices. */
  predicate IsNoise(text: string)
  {
    text == "" || Contains(text, "Reiniciando") || Contains(text, "abandonó")
  }

  // ---------------------------------------------------------------- messages of a session

  /** The messages of session `sid`, in fetch order. */
  function MessagesOf(all: seq<Message>, sid: int): (r: seq<Message>)
    ensures forall m :: m in r <==> m in all && m.resId == sid
    decreases |all|
  {
    if all == [] then []
    else
      var init := MessagesOf(all[..|all| - 1], sid);
      var m := all[|all| - 1];
      assert all == all[..|all| - 1] + [m];
      if m.resId == sid then init + [m] else init
  }

  /** `msgs_by_session` / `msgsBySession`: every message appended to the list
   *  of its `res_id`, in fetch order. */
  method GroupByResId(all: seq<Message>) returns (groups: map<int, seq<Message>>)
    ensures forall sid :: GroupOf(groups, sid) == MessagesOf(all, sid)
    ensures forall sid :: sid in groups ==> groups[sid] != []
  {
    groups := map[];
    var i := 0;
    while i < |all|
      invariant 0 <= i <= |all|
      invariant forall sid :: GroupOf(groups, sid) == MessagesOf(all[..i], sid)
      invariant forall sid :: sid in groups ==> groups[sid] != []
    {
      assert all[..i + 1][..i] == all[..i];
      var m := all[i];
      var prev := if m.resId in groups then groups[m.resId] else [];
      groups := groups[m.resId := prev + [m]];
      i := i + 1;
    }
    assert all[..|all|] == all;
  }

  /** The messages the loop reads for a session: its group, or none. */
  function GroupOf(groups: map<int, seq<Message>>, sid: int): seq<Message>
  {
    if sid in groups then groups[sid] else []
  }

  function ByDate(m: Message): seq<int>
  {
    CharCodes(m.date)
  }

  /** `sorted(..., key=lambda x: x['date'])` / `.sort((a, b) => a.date.localeCompare(b.date))`:
   *  the session's own messages, oldest first; messages with the same date
   *  keep their fetch order. Dates are compared by character code; on Odoo's
   *  fixed-format "YYYY-MM-DD HH:MM:SS" dates `localeCompare` gives the same
   *  order, since the separators sit at the same positions and digits collate
   *  in numeric order. */
  function Chronological(msgs: seq<Message>): (r: seq<Message>)
    ensures multiset(r) == multiset(msgs)
    ensures SortedBy(r, ByDate)
    ensures forall d :: Filter(r, KeyIs(ByDate, d)) == Filter(msgs, KeyIs(ByDate, d))
  {
    SortBySorted(msgs, ByDate);
    assert forall d :: Filter(SortBy(msgs, ByDate), KeyIs(ByDate, d)) == Filter(msgs, KeyIs(ByDate, d)) by {
      forall d ensures Filter(SortBy(msgs, ByDate), KeyIs(ByDate, d)) == Filter(msgs, KeyIs(ByDate, d)) {
        SortByStable(msgs, ByDate, d);
      }
    }
    SortBy(msgs, ByDate)
  }

  /** A session sees exactly its own messages, each once, oldest first. */
  lemma SessionSeesOwnMessages(all: seq<Message>, sid: int)
    ensures forall m :: m in Chronological(MessagesOf(all, sid)) <==> m in all && m.resId == sid
  {
    var g := MessagesOf(all, sid);
    assert forall m :: m in Chronological(g) <==> m in multiset(g);
  }

  // ---------------------------------------------------------------- HTML stripping (TypeScript)

  /** `html.replace(/<[^>]*>/g, '')`: a `<` with a `>` somewhere after it opens
   *  a tag that runs to the first such `>` and is removed; a `<` with no `>`
   *  after it is kept. */
  function StripTags(s: string): (r: string)
    ensures forall k :: 0 <= k < |r| ==> r[k] in s
    ensures forall i, j :: 0 <= i < j < |r| && r[i] == '<' ==> r[j] != '>'
    decreases |s|
  {
    if s == [] then ""
    else if s[0] == '<' && '>' in s then
      var rest := s[IndexOf(s, '>') + 1..];
      assert forall c :: c in rest ==> c in s;
      StripTags(rest)
    else
      assert forall c :: c in s[1..] ==> c in s;
      [s[0]] + StripTags(s[1..])
  }

  /** Text without `<` goes through unchanged. */
  lemma {:induction false} StripTagsPlainText(s: string)
    requires '<' !in s
    ensures StripTags(s) == s
    decreases |s|
  {
    if s != [] {
      StripTagsPlainText(s[1..]);
    }
  }

  /** Text before the first `<` is kept as it is. */
  lemma {:induction false} StripTagsKeepsText(p: string, s: string)
    requires '<' !in p
    ensures StripTags(p + s) == p + StripTags(s)
    decreases |p|
  {
    if p != [] {
      assert (p + s)[0] == p[0] && (p + s)[1..] == p[1..] + s;
      StripTagsKeepsText(p[1..], s);
      assert p == [p[0]] + p[1..];
    } else {
      assert p + s == s;
    }
  }

  /** A complete tag `<…>` is removed, and the text after it is read on. */
  lemma StripTagsDropsTag(t: string, s: string)
    requires '>' !in t
    ensures StripTags("<" + t + ">" + s) == StripTags(s)
  {
    var w := "<" + t + ">" + s;
    IndexOfAfterPrefix("<" + t, '>', s);
    assert w == ("<" + t) + ['>'] + s;
    assert w[0] == '<';
    assert w[|t| + 2..] == s;
  }

  /** Text and tags in turn: the text pieces survive, in order, and the tags
   *  between them vanish. */
  lemma StripTagsBetween(a: string, t: string, b: string)
    requires '<' !in a && '>' !in t && '<' !in b
    ensures StripTags(a + "<" + t + ">" + b) == a + b
  {
    var tag := "<" + t + ">" + b;
    calc {
      StripTags(a + "<" + t + ">" + b);
    == { ConcatAssoc(a, "<", t, ">", b); }
      StripTags(a + tag);
    == { StripTagsKeepsText(a, tag); }
      a + StripTags(tag);
    == { StripTagsDropsTag(t, b); }
      a + StripTags(b);
    == { StripTagsPlainText(b); }
      a + b;
    }
  }

  lemma ConcatAssoc<T>(a: seq<T>, b: seq<T>, c: seq<T>, d: seq<T>, e: seq<T>)
    ensures a + b + c + d + e == a + (b + c + d + e)
  {
  }

  /** The TypeScript `stripHtml`. */
  function StripHtml(html: string): string
  {
    Trim(StripTags(html))
  }

  /** No complete tag survives: nothing after a remaining `<` closes it. */
  lemma StripHtmlLeavesNoTag(html: string)
    ensures var r := StripHtml(html);
      forall i, j :: 0 <= i < j < |r| && r[i] == '<' ==> r[j] != '>'
  {
    var t := StripTags(html);
    var a := TrimStart(t);
    var r := TrimEnd(a);
    var off := |t| - |a|;
    assert a == t[off..];
    assert r == a[..|r|];
    forall i, j | 0 <= i < j < |r| && r[i] == '<' ensures r[j] != '>' {
      assert r[i] == t[off + i] && r[j] == t[off + j];
    }
  }

  lemma StripHtmlPlainText(html: string)
    requires '<' !in html
    ensures StripHtml(html) == Trim(html)
  {
    StripTagsPlainText(html);
  }

  // ---------------------------------------------------------------- catalogs

  /** Intent tags of the Python script and report, in declaration order. */
  const PyIntentTags: seq<string> := [
    "cotizacion_mayoreo", "talleres_clinicas", "problema_sitio", "solo_viendo", "busca_producto",
    "precio", "disponibilidad", "envio", "horario", "ubicacion", "devolucion", "factura", "contratista"]

  /** Intent tags of the TypeScript leads task. */
  const TsLeadsIntentTags: seq<string> := [
    "cotizacion_mayoreo", "talleres_clinicas", "problema_sitio", "solo_viendo", "busca_producto",
    "precio", "factura", "contratista"]

  /** Intent tags of the TypeScript analysis task. */
  const TsAnalysisIntentTags: seq<string> := [
    "cotizacion_mayoreo", "talleres_clinicas", "problema_sitio", "solo_viendo", "busca_producto",
    "precio", "envio", "ubicacion", "factura", "contratista"]

  const PyProductTags: seq<string> := [
    "Varilla/Acero", "Cemento/Concreto", "Pintura", "Pisos/Loseta", "Plomería", "Electricidad",
    "Herramientas", "Madera", "Ferretería", "Impermeabilizante", "Vigueta/Estructura", "Arena/Grava"]

  const TsProductTags: seq<string> := [
    "Cemento/Concreto", "Varilla/Acero", "Pisos/Loseta", "Electricidad", "Madera", "Plomería",
    "Pintura", "Herramientas", "Ferretería", "Vigueta/Estructura", "Arena/Grava", "Impermeabilizante"]

  /** The TypeScript catalogs are sub-catalogs of the Python one, and both
   *  product tables name the same twelve categories. */
  lemma CatalogsNest()
    ensures |PyIntentTags| == 13 && |TsLeadsIntentTags| == 8 && |TsAnalysisIntentTags| == 10
    ensures forall t :: t in TsLeadsIntentTags ==> t in TsAnalysisIntentTags
    ensures forall t :: t in TsAnalysisIntentTags ==> t in PyIntentTags
  {
  }

  lemma ProductCatalogsAgree()
    ensures |PyProductTags| == |TsProductTags| == 12
    ensures forall t :: t in PyProductTags <==> t in TsProductTags
  {
  }

  /** How one program reads messages: its body-to-text function, its intent
   *  and product catalogs (tag names in declaration order), the regular
   *  expression behind each tag (`matches(tag, lowerText)`), the e-mail
   *  pattern's matches from left to right, and whether found addresses are
   *  lower-cased on the spot (TypeScript) or kept as written (Python). */
  datatype Extraction = Extraction(
    strip: string -> string,
    intentTags: seq<string>,
    productTags: seq<string>,
    matches: (string, string) -> bool,
    findEmails: string -> seq<string>,
    lowerEmails: bool)

  /** The pattern matchers a program brings: Python's HTML parser (the
   *  concatenated text data of a body), the catalog regular expressions and
   *  the e-mail pattern. */
  datatype Patterns = Patterns(
    htmlData: string -> string,
    matches: (string, string) -> bool,
    findEmails: string -> seq<string>)

  /** Python `strip_html`: the parser's text data, stripped. */
  function PyStripHtml(htmlData: string -> string): string -> string
  {
    h => Trim(htmlData(h))
  }

  /** What a session's messages yield. `intents` and `products` are sets
   *  kept in first-insertion order (JavaScript `Set`). */
  datatype Signals = Signals(
    visitorTexts: seq<string>,
    emails: seq<string>,
    intents: seq<string>,
    products: seq<string>,
    transcript: seq<string>)

  /** `for tag, pattern in catalog: if search(pattern, text): found.add(tag)`. */
  function AddMatches(acc: seq<string>, tags: seq<string>, text: string, matches: (string, string) -> bool): seq<string>
    decreases |tags|
  {
    if tags == [] then acc
    else
      var r := AddMatches(acc, tags[..|tags| - 1], text, matches);
      var t := tags[|tags| - 1];
      if matches(t, text) && t !in r then r + [t] else r
  }

  function LowerAll(es: seq<string>): (r: seq<string>)
    ensures |r| == |es|
  {
    seq(|es|, i requires 0 <= i < |es| => ToLower(es[i]))
  }

  /** The addresses one visitor text contributes. */
  function EmailsFound(text: string, x: Extraction): seq<string>
  {
    if x.lowerEmails then LowerAll(x.findEmails(text)) else x.findEmails(text)
  }

  /** A message the visitor wrote and that is not noise. */
  predicate Speaks(m: Message, x: Extraction)
  {
    !IsNoise(x.strip(m.body)) && IsVisitor(m.author)
  }

  /** The effect of one message on the session's signals. */
  function Step(acc: Signals, msg: Message, x: Extraction): Signals
  {
    var text := x.strip(msg.body);
    if IsNoise(text) then acc
    else if IsVisitor(msg.author) then
      var lower := ToLower(text);
      Signals(acc.visitorTexts + [text],
              acc.emails + EmailsFound(text, x),
              AddMatches(acc.intents, x.intentTags, lower, x.matches),
              AddMatches(acc.products, x.productTags, lower, x.matches),
              acc.transcript + ["[Visitante]: " + text])
    else
      acc.(transcript := acc.transcript + ["[" + msg.author.name + "]: " + text])
  }

  /** The signals of a session whose messages are `msgs`, in order. */
  function SignalsOf(msgs: seq<Message>, x: Extraction): Signals
    decreases |msgs|
  {
    if msgs == [] then Signals([], [], [], [], [])
    else Step(SignalsOf(msgs[..|msgs| - 1], x), msgs[|msgs| - 1], x)
  }

  // ---------------------------------------------------------------- the loops

  method AddMatching(acc: seq<string>, tags: seq<string>, text: string, matches: (string, string) -> bool)
    returns (r: seq<string>)
    ensures r == AddMatches(acc, tags, text, matches)
  {
    r := acc;
    var i := 0;
    while i < |tags|
      invariant 0 <= i <= |tags|
      invariant r == AddMatches(acc, tags[..i], text, matches)
    {
      assert tags[..i + 1][..i] == tags[..i];
      if matches(tags[i], text) && tags[i] !in r {
        r := r + [tags[i]];
      }
      i := i + 1;
    }
    assert tags[..|tags|] == tags;
  }

  /** The message loop of a session. */
  method ExtractSignals(msgs: seq<Message>, x: Extraction) returns (s: Signals)
    ensures s == SignalsOf(msgs, x)
  {
    var visitorTexts: seq<string> := [];
    var emails: seq<string> := [];
    var intents: seq<string> := [];
    var products: seq<string> := [];
    var transcript: seq<string> := [];
    var i := 0;
    while i < |msgs|
      invariant 0 <= i <= |msgs|
      invariant Signals(visitorTexts, emails, intents, products, transcript) == SignalsOf(msgs[..i], x)
    {
      assert msgs[..i + 1][..i] == msgs[..i];
      var msg := msgs[i];
      var text := x.strip(msg.body);
      if !IsNoise(text) {
        if IsVisitor(msg.author) {
          visitorTexts := visitorTexts + [text];
          var lower := ToLower(text);
          var found := x.findEmails(text);
          emails := emails + (if x.lowerEmails then LowerAll(found) else found);
          intents := AddMatching(intents, x.intentTags, lower, x.matches);
          products := AddMatching(products, x.productTags, lower, x.matches);
          transcript := transcript + ["[Visitante]: " + text];
        } else {
          transcript := transcript + ["[" + msg.author.name + "]: " + text];
        }
      }
      i := i + 1;
    }
    assert msgs[..|msgs|] == msgs;
    s := Signals(visitorTexts, emails, intents, products, transcript);
  }

  // ---------------------------------------------------------------- what the signals are

  lemma {:induction false} AddMatchesMembership(acc: seq<string>, tags: seq<string>, text: string,
                                                matches: (string, string) -> bool, t: string)
    ensures t in AddMatches(acc, tags, text, matches) <==> t in acc || (t in tags && matches(t, text))
    decreases |tags|
  {
    if tags != [] {
      var init := tags[..|tags| - 1];
      AddMatchesMembership(acc, init, text, matches, t);
      assert tags == init + [tags[|tags| - 1]];
    }
  }

  lemma {:induction false} AddMatchesDistinct(acc: seq<string>, tags: seq<string>, text: string,
                                              matches: (string, string) -> bool)
    requires Distinct(acc)
    ensures Distinct(AddMatches(acc, tags, text, matches))
    decreases |tags|
  {
    if tags != [] {
      AddMatchesDistinct(acc, tags[..|tags| - 1], text, matches);
    }
  }

  /** Some visitor text matches the pattern of `tag`. */
  predicate MentionedIn(tag: string, texts: seq<string>, matches: (string, string) -> bool)
  {
    exists i :: 0 <= i < |texts| && matches(tag, ToLower(texts[i]))
  }

  lemma MentionedInAppend(tag: string, texts: seq<string>, text: string, matches: (string, string) -> bool)
    ensures MentionedIn(tag, texts + [text], matches)
        <==> MentionedIn(tag, texts, matches) || matches(tag, ToLower(text))
  {
    var all := texts + [text];
    if matches(tag, ToLower(text)) {
      assert all[|texts|] == text;
    }
    if MentionedIn(tag, texts, matches) {
      var i :| 0 <= i < |texts| && matches(tag, ToLower(texts[i]));
      assert all[i] == texts[i];
    }
    if MentionedIn(tag, all, matches) {
      var i :| 0 <= i < |all| && matches(tag, ToLower(all[i]));
      if i < |texts| {
        assert all[i] == texts[i];
      }
    }
  }

  /** A session has an intent (a product) exactly when the tag is in the
   *  catalog and some visitor text of the session matches its pattern. */
  lemma {:induction false} TagsAreMentions(msgs: seq<Message>, x: Extraction, t: string)
    ensures var s := SignalsOf(msgs, x);
      (t in s.intents <==> t in x.intentTags && MentionedIn(t, s.visitorTexts, x.matches))
      && (t in s.products <==> t in x.productTags && MentionedIn(t, s.visitorTexts, x.matches))
    decreases |msgs|
  {
    if msgs != [] {
      var init := msgs[..|msgs| - 1];
      TagsAreMentions(init, x, t);
      var a := SignalsOf(init, x);
      var msg := msgs[|msgs| - 1];
      var text := x.strip(msg.body);
      if !IsNoise(text) && IsVisitor(msg.author) {
        var lower := ToLower(text);
        AddMatchesMembership(a.intents, x.intentTags, lower, x.matches, t);
        AddMatchesMembership(a.products, x.productTags, lower, x.matches, t);
        MentionedInAppend(t, a.visitorTexts, text, x.matches);
      }
    }
  }

  /** Each intent and each product is recorded once per session. */
  lemma {:induction false} TagsDistinct(msgs: seq<Message>, x: Extraction)
    ensures Distinct(SignalsOf(msgs, x).intents) && Distinct(SignalsOf(msgs, x).products)
    decreases |msgs|
  {
    if msgs != [] {
      var init := msgs[..|msgs| - 1];
      TagsDistinct(init, x);
      var a := SignalsOf(init, x);
      var lower := ToLower(x.strip(msgs[|msgs| - 1].body));
      AddMatchesDistinct(a.intents, x.intentTags, lower, x.matches);
      AddMatchesDistinct(a.products, x.productTags, lower, x.matches);
    }
  }

  function StrippedBodies(ms: seq<Message>, x: Extraction): (r: seq<string>)
    ensures |r| == |ms|
  {
    seq(|ms|, i requires 0 <= i < |ms| => x.strip(ms[i].body))
  }

  /** The visitor texts are the stripped bodies of exactly the speaking
   *  messages, in message order. */
  lemma {:induction false} VisitorTextsAreSpeakingMessages(msgs: seq<Message>, x: Extraction)
    ensures SignalsOf(msgs, x).visitorTexts == StrippedBodies(Filter(msgs, m => Speaks(m, x)), x)
    decreases |msgs|
  {
    if msgs != [] {
      var init := msgs[..|msgs| - 1];
      VisitorTextsAreSpeakingMessages(init, x);
      var f := Filter(init, m => Speaks(m, x));
      var last := msgs[|msgs| - 1];
      if Speaks(last, x) {
        assert StrippedBodies(f + [last], x) == StrippedBodies(f, x) + [x.strip(last.body)];
      } else {
        assert Filter(msgs, m => Speaks(m, x)) == f;
      }
    }
  }

  /** No lead: a session yields no visitor text exactly when every message is
   *  noise or was written by an operator. */
  lemma NoVisitorTextIffSilent(msgs: seq<Message>, x: Extraction)
    ensures SignalsOf(msgs, x).visitorTexts == [] <==> forall k :: 0 <= k < |msgs| ==> !Speaks(msgs[k], x)
  {
    VisitorTextsAreSpeakingMessages(msgs, x);
    var f := Filter(msgs, m => Speaks(m, x));
    if exists k :: 0 <= k < |msgs| && Speaks(msgs[k], x) {
      var k :| 0 <= k < |msgs| && Speaks(msgs[k], x);
      FilterComplete(msgs, m => Speaks(m, x), msgs[k]);
    }
    if f != [] {
      assert f[0] in msgs && Speaks(f[0], x);
    }
  }

  /** Reading the messages oldest first does not change whether the
   *  visitor spoke. */
  lemma SpokeIffSomeMessageSpeaks(msgs: seq<Message>, x: Extraction)
    ensures SignalsOf(Chronological(msgs), x).visitorTexts != [] <==> exists m :: m in msgs && Speaks(m, x)
  {
    var ordered := Chronological(msgs);
    NoVisitorTextIffSilent(ordered, x);
    assert forall m :: m in ordered <==> m in multiset(msgs);
    if exists m :: m in msgs && Speaks(m, x) {
      var m :| m in msgs && Speaks(m, x);
      assert m in ordered;
      var k :| 0 <= k < |ordered| && ordered[k] == m;
    }
    if SignalsOf(ordered, x).visitorTexts != [] {
      var k :| 0 <= k < |ordered| && Speaks(ordered[k], x);
      assert ordered[k] in multiset(msgs);
    }
  }

  /** Every visitor text is real text. */
  lemma VisitorTextsAreNotNoise(msgs: seq<Message>, x: Extraction)
    ensures forall i :: 0 <= i < |SignalsOf(msgs, x).visitorTexts| ==> !IsNoise(SignalsOf(msgs, x).visitorTexts[i])
  {
    VisitorTextsAreSpeakingMessages(msgs, x);
    var f := Filter(msgs, m => Speaks(m, x));
    forall i | 0 <= i < |f| ensures !IsNoise(x.strip(f[i].body)) {
      assert f[i] in f;
    }
  }

  /** The addresses of each visitor text, in message order. */
  function EmailsOf(texts: seq<string>, x: Extraction): seq<string>
    decreases |texts|
  {
    if texts == [] then [] else EmailsOf(texts[..|texts| - 1], x) + EmailsFound(texts[|texts| - 1], x)
  }

  /** The session's addresses are those found in its visitor texts, in the
   *  order the texts were written; the first one is the lead's address. */
  lemma {:induction false} EmailsComeFromVisitorTexts(msgs: seq<Message>, x: Extraction)
    ensures SignalsOf(msgs, x).emails == EmailsOf(SignalsOf(msgs, x).visitorTexts, x)
    decreases |msgs|
  {
    if msgs != [] {
      var init := msgs[..|msgs| - 1];
      EmailsComeFromVisitorTexts(init, x);
      var a := SignalsOf(init, x);
      var text := x.strip(msgs[|msgs| - 1].body);
      assert (a.visitorTexts + [text])[..|a.visitorTexts|] == a.visitorTexts;
    }
  }

  /** With on-the-spot lower-casing every session address is lower case. */
  lemma {:induction false} LoweredEmailsAreLowerCase(texts: seq<string>, x: Extraction)
    requires x.lowerEmails
    ensures forall i :: 0 <= i < |EmailsOf(texts, x)| ==> ToLower(EmailsOf(texts, x)[i]) == EmailsOf(texts, x)[i]
    decreases |texts|
  {
    if texts != [] {
      LoweredEmailsAreLowerCase(texts[..|texts| - 1], x);
      var found := x.findEmails(texts[|texts| - 1]);
      forall i | 0 <= i < |found| ensures ToLower(ToLower(found[i])) == ToLower(found[i]) {
        LowerIdempotent(found[i]);
      }
    }
  }
}
