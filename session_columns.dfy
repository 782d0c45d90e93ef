// The per-session reading shared by both chat-analysis reports: the messages
// of a session in date order, what its visitor said, and the columns (tags,
// addresses) gathered from every session of a run.
module SessionColumns {
  import opened Seqs
  import opened Tally
  import opened ChatSignals

  /** `msgs_by_session.get(id, [])` sorted by date. */
  function SessionMessages(all: seq<Message>, s: Session): (r: seq<Message>)
    ensures multiset(r) == multiset(MessagesOf(all, s.id))
  {
    Chronological(MessagesOf(all, s.id))
  }

  function SessionSignals(x: Extraction, all: seq<Message>, s: Session): Signals
  {
    SignalsOf(SessionMessages(all, s), x)
  }

  /** A session's message count is that of its own messages in the fetch. */
  lemma MessageCount(all: seq<Message>, s: Session)
    ensures |SessionMessages(all, s)| == |MessagesOf(all, s.id)|
  {
    assert |multiset(SessionMessages(all, s))| == |multiset(MessagesOf(all, s.id))|;
  }

  function IntentsOf(x: Extraction, all: seq<Message>): Session -> seq<string>
  {
    (s: Session) => SessionSignals(x, all, s).intents
  }

  function ProductsOf(x: Extraction, all: seq<Message>): Session -> seq<string>
  {
    (s: Session) => SessionSignals(x, all, s).products
  }

  function CapturedOf(x: Extraction, all: seq<Message>): Session -> seq<string>
  {
    (s: Session) => SessionSignals(x, all, s).emails
  }

  /** The intents of every session, in session order. */
  function IntentSets(x: Extraction, all: seq<Message>, ss: seq<Session>): (r: seq<seq<string>>)
    ensures |r| == |ss|
  {
    MapSeq(ss, IntentsOf(x, all))
  }

  function ProductSets(x: Extraction, all: seq<Message>, ss: seq<Session>): (r: seq<seq<string>>)
    ensures |r| == |ss|
  {
    MapSeq(ss, ProductsOf(x, all))
  }

  /** The addresses found in every session, in session order. */
  function EmailLists(x: Extraction, all: seq<Message>, ss: seq<Session>): (r: seq<seq<string>>)
    ensures |r| == |ss|
  {
    MapSeq(ss, CapturedOf(x, all))
  }

  lemma SessionColumnsAt(x: Extraction, all: seq<Message>, ss: seq<Session>, i: nat)
    requires i < |ss|
    ensures var sig := SessionSignals(x, all, ss[i]);
      IntentSets(x, all, ss)[i] == sig.intents && ProductSets(x, all, ss)[i] == sig.products
      && EmailLists(x, all, ss)[i] == sig.emails
  {
  }

  /** The messages of one session, oldest first, and what its visitor said. */
  method ReadSession(x: Extraction, groups: map<int, seq<Message>>, all: seq<Message>, s: Session)
    returns (n: nat, sig: Signals)
    requires forall sid :: GroupOf(groups, sid) == MessagesOf(all, sid)
    ensures n == |SessionMessages(all, s)| && sig == SessionSignals(x, all, s)
  {
    var msgs := Chronological(GroupOf(groups, s.id));
    n := |msgs|;
    sig := ExtractSignals(msgs, x);
  }

  /** `for tag in session_tags: counter[tag] += 1`. */
  method CountEach(m: map<string, nat>, tags: seq<string>) returns (r: map<string, nat>)
    ensures r == AddOnce(m, tags)
  {
    r := m;
    var i := 0;
    while i < |tags|
      invariant 0 <= i <= |tags|
      invariant r == AddOnce(m, tags[..i])
    {
      assert tags[..i + 1][..i] == tags[..i];
      r := r[tags[i] := Lookup(r, tags[i]) + 1];
      i := i + 1;
    }
    assert tags[..|tags|] == tags;
  }

  /** Tallying the sessions' tags counts, for every tag, the sessions that
   *  carry it, however often it matched within one session. */
  lemma TalliesCountSessions(x: Extraction, all: seq<Message>, ss: seq<Session>, t: string)
    ensures Lookup(TagTally(IntentSets(x, all, ss)), t) == SessionsWith(IntentSets(x, all, ss), t) <= |ss|
    ensures Lookup(TagTally(ProductSets(x, all, ss)), t) == SessionsWith(ProductSets(x, all, ss), t) <= |ss|
  {
    var ints := IntentSets(x, all, ss);
    var prods := ProductSets(x, all, ss);
    forall i | 0 <= i < |ss| ensures Distinct(ints[i]) && Distinct(prods[i]) {
      TagsDistinct(SessionMessages(all, ss[i]), x);
    }
    TagTallyCountsSessions(ints, t);
    TagTallyCountsSessions(prods, t);
  }
}
