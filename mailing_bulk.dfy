// The bulk load of partners with an e-mail into the Odoo mailing list
// "Contactos con Email": the e-mail clean-up, the case-insensitive
// de-duplication against the list and within the run, and the batched
// creation with its created / skipped / errors counts.
module MailingBulk {
  import opened Wrappers
  import opened Text
  import opened Seqs
  import opened Batches

  const MailingListId := 3
  const BatchSize := 50

  // ---------------------------------------------------------------- clean_email

  /** `s.split(c)[0]`: everything before the first `c`. */
  function Before(s: string, c: char): (r: string)
    ensures |r| <= |s| && c !in r && r == s[..|r|]
    ensures c !in s ==> r == s
  {
    if c in s then s[..IndexOf(s, c)] else s
  }

  lemma SuffixAvoids(e: string, k: nat, c: char)
    requires k <= |e| && c !in e
    ensures c !in e[k..]
  {
  }

  predicate IsColonOrSpace(c: char)
  {
    c == ':' || c == ' '
  }

  /** `s.lstrip(': ')`: the suffix left after the leading ':' and ' '. */
  function LStripColonSpace(s: string): (r: string)
    ensures |r| <= |s| && r == s[|s| - |r|..]
    ensures r == [] || !IsColonOrSpace(r[0])
    decreases |s|
  {
    if s != [] && IsColonOrSpace(s[0]) then LStripColonSpace(s[1..]) else s
  }

  lemma TrimKeeps(s: string)
    ensures forall x :: x in Trim(s) ==> x in s
  {
    var t := TrimStart(s);
    assert forall x :: x in t ==> x in s;
    assert forall x :: x in TrimEnd(t) ==> x in t;
  }

  /** `e.split(c)[0].strip()`: one step of the clean-up. */
  function Piece(e: string, c: char): (r: string)
    ensures c !in r
    ensures '\n' !in e ==> '\n' !in r
    ensures ',' !in e ==> ',' !in r
  {
    var b := Before(e, c);
    TrimKeeps(b);
    assert forall x :: x in b ==> x in e;
    Trim(b)
  }

  predicate Trimmed(s: string)
  {
    s == [] || (!IsSpace(s[0]) && !IsSpace(s[|s| - 1]))
  }

  lemma PieceOfTrimmed(e: string, c: char)
    requires c !in e && Trimmed(e)
    ensures Piece(e, c) == e
  {
    TrimOfTrimmed(e);
  }

  /** The first address of the field: the three splits, each trimmed. */
  function FirstAddress(s: string): (r: string)
    ensures NoSeparator(r)
  {
    Piece(Piece(Piece(Trim(s), '\n'), ','), ';')
  }

  /** The address `clean_email` keeps, before the '@' test. */
  function Cleaned(s: string): (r: string)
    ensures NoSeparator(r)
  {
    var e := FirstAddress(s);
    var r := LStripColonSpace(e);
    SuffixAvoids(e, |e| - |r|, '\n');
    SuffixAvoids(e, |e| - |r|, ',');
    SuffixAvoids(e, |e| - |r|, ';');
    r
  }

  predicate NoSeparator(s: string)
  {
    '\n' !in s && ',' !in s && ';' !in s
  }

  /** `clean_email`: no e-mail, an empty one, or one without '@' after the
   *  clean-up gives None; otherwise the first address of the field, without
   *  newline, comma or semicolon and without a leading ':' or ' '. */
  function CleanEmail(email: Option<string>): (r: Option<string>)
    ensures email.None? || email == Some("") ==> r.None?
    ensures r.Some? ==> email.Some? && r.value == Cleaned(email.value)
    ensures r.Some? ==> '@' in r.value && NoSeparator(r.value) && !IsColonOrSpace(r.value[0])
  {
    if email.None? || |email.value| == 0 then None
    else
      var e := Cleaned(email.value);
      if '@' in e then Some(e) else None
  }

  /** No whitespace, no separator, an '@' and no leading ':'. */
  predicate IsAddress(a: string)
  {
    '@' in a && NoSeparator(a) && a[0] != ':' && forall i :: 0 <= i < |a| ==> !IsSpace(a[i])
  }

  /** A well-formed address comes back unchanged. */
  lemma CleanAddress(a: string)
    requires IsAddress(a)
    ensures CleanEmail(Some(a)) == Some(a)
  {
    CleanedAddress(a);
  }

  lemma CleanedAddress(a: string)
    requires IsAddress(a)
    ensures Cleaned(a) == a
  {
    FirstAddressOfAddress(a);
    assert a != [] && !IsColonOrSpace(a[0]);
    assert LStripColonSpace(a) == a;
  }

  lemma FirstAddressOfAddress(a: string)
    requires IsAddress(a)
    ensures FirstAddress(a) == a
  {
    assert Trimmed(a);
    TrimOfTrimmed(a);
    PieceOfTrimmed(a, '\n');
    PieceOfTrimmed(a, ',');
    PieceOfTrimmed(a, ';');
  }

  /** What precedes the first comma of `a + "," + b`, for a comma-free `a`. */
  lemma BeforeComma(a: string, b: string)
    requires ',' !in a
    ensures Before(a + "," + b, ',') == a
  {
    var s := a + "," + b;
    assert s == a + [','] + b;
    IndexOfAfterPrefix(a, ',', b);
    assert s[..|a|] == a;
  }

  lemma FirstAddressOfList(a: string, b: string)
    requires IsAddress(a)
    requires '\n' !in b && (b == [] || !IsSpace(b[|b| - 1]))
    ensures FirstAddress(a + "," + b) == a
  {
    var s := a + "," + b;
    assert s[0] == a[0];
    assert s[|s| - 1] == if b == [] then ',' else b[|b| - 1];
    assert Trimmed(s);
    TrimOfTrimmed(s);
    assert '\n' !in s;
    PieceOfTrimmed(s, '\n');
    assert Piece(Trim(s), '\n') == s;
    BeforeComma(a, b);
    TrimOfTrimmed(a);
    assert Piece(s, ',') == a;
    PieceOfTrimmed(a, ';');
  }

  /** Of a comma-separated field the first address is kept. */
  lemma CleanFirstOfList(a: string, b: string)
    requires IsAddress(a)
    requires '\n' !in b && (b == [] || !IsSpace(b[|b| - 1]))
    ensures CleanEmail(Some(a + "," + b)) == Some(a)
  {
    FirstAddressOfList(a, b);
    assert !IsColonOrSpace(a[0]);
    assert LStripColonSpace(a) == a;
    assert Cleaned(a + "," + b) == a;
  }

  // ---------------------------------------------------------------- existing contacts

  /** `email.strip().lower()`. */
  function Normalize(e: string): (r: string)
    ensures ToLower(r) == r
  {
    LowerIdempotent(Trim(e));
    ToLower(Trim(e))
  }

  /** The set of normalised e-mails already on the list; contacts without
   *  an e-mail are ignored. */
  function ExistingEmails(contacts: seq<Option<string>>): (r: set<string>)
    ensures forall e :: e in r ==> ToLower(e) == e
    ensures forall i :: 0 <= i < |contacts| && contacts[i].Some? && contacts[i].value != "" ==>
      Normalize(contacts[i].value) in r
  {
    set i | 0 <= i < |contacts| && contacts[i].Some? && contacts[i].value != "" :: Normalize(contacts[i].value)
  }

  // ---------------------------------------------------------------- admission

  datatype Partner = Partner(name: string, email: Option<string>)

  /** A `mailing.contact` to create, on the list `MailingListId`. */
  datatype Contact = Contact(name: string, email: string, listId: int)

  /** The contacts admitted so far, the e-mails seen (the mutated set) and
   *  the skipped count. */
  datatype Plan = Plan(contacts: seq<Contact>, seen: set<string>, skipped: nat)

  /** The e-mail clean-up the admission applies; the script uses
   *  `CleanEmail`, and the admission facts below hold for any clean-up. */
  type Cleaner = Option<string> -> Option<string>

  /** One partner through the two `continue` tests. */
  function Admit(p: Plan, partner: Partner, clean: Cleaner): Plan
  {
    match clean(partner.email)
    case None => p.(skipped := p.skipped + 1)
    case Some(e) =>
      if ToLower(e) in p.seen then p.(skipped := p.skipped + 1)
      else Plan(p.contacts + [Contact(partner.name, e, MailingListId)], p.seen + {ToLower(e)}, p.skipped)
  }

  function Admitted(partners: seq<Partner>, existing: set<string>, clean: Cleaner): Plan
    decreases |partners|
  {
    if partners == [] then Plan([], existing, 0)
    else Admit(Admitted(partners[..|partners| - 1], existing, clean), partners[|partners| - 1], clean)
  }

  lemma AdmittedSnoc(partners: seq<Partner>, existing: set<string>, clean: Cleaner, i: nat)
    requires i < |partners|
    ensures Admitted(partners[..i + 1], existing, clean) == Admit(Admitted(partners[..i], existing, clean), partners[i], clean)
  {
    assert partners[..i + 1][..i] == partners[..i];
  }

  function LowerEmails(cs: seq<Contact>): set<string>
  {
    set k | 0 <= k < |cs| :: ToLower(cs[k].email)
  }

  lemma LowerEmailsSnoc(cs: seq<Contact>, c: Contact)
    ensures LowerEmails(cs + [c]) == LowerEmails(cs) + {ToLower(c.email)}
  {
    var ext := cs + [c];
    assert forall k :: 0 <= k < |cs| ==> ext[k] == cs[k];
    assert ext[|cs|] == c;
  }

  /** What one partner does to the plan: skip it, or append its contact and
   *  mark its lowered e-mail as seen. */
  lemma AdmitCases(p: Plan, partner: Partner, clean: Cleaner)
    ensures var q := Admit(p, partner, clean);
      (q == p.(skipped := p.skipped + 1)) ||
      (clean(partner.email).Some? &&
       var e := clean(partner.email).value;
       ToLower(e) !in p.seen && q.skipped == p.skipped &&
       q.contacts == p.contacts + [Contact(partner.name, e, MailingListId)] &&
       q.seen == p.seen + {ToLower(e)})
    ensures clean(partner.email).Some? ==> ToLower(clean(partner.email).value) in Admit(p, partner, clean).seen
  {
  }

  /** Every partner is either admitted or skipped. */
  lemma {:induction false} AdmittedCount(partners: seq<Partner>, existing: set<string>, clean: Cleaner)
    ensures var p := Admitted(partners, existing, clean); |p.contacts| + p.skipped == |partners|
    decreases |partners|
  {
    if partners != [] {
      AdmittedCount(partners[..|partners| - 1], existing, clean);
      AdmitCases(Admitted(partners[..|partners| - 1], existing, clean), partners[|partners| - 1], clean);
    }
  }

  /** The seen set is the list's e-mails plus the admitted ones. */
  lemma {:induction false} AdmittedSeen(partners: seq<Partner>, existing: set<string>, clean: Cleaner)
    ensures var p := Admitted(partners, existing, clean); p.seen == existing + LowerEmails(p.contacts)
    decreases |partners|
  {
    if partners != [] {
      var q := Admitted(partners[..|partners| - 1], existing, clean);
      var partner := partners[|partners| - 1];
      AdmittedSeen(partners[..|partners| - 1], existing, clean);
      AdmitCases(q, partner, clean);
      if clean(partner.email).Some? {
        LowerEmailsSnoc(q.contacts, Contact(partner.name, clean(partner.email).value, MailingListId));
      }
    }
  }

  /** No admitted e-mail was already on the list, and no two admitted
   *  e-mails are equal ignoring case. */
  lemma {:induction false} AdmittedFresh(partners: seq<Partner>, existing: set<string>, clean: Cleaner)
    ensures var p := Admitted(partners, existing, clean);
      (forall k :: 0 <= k < |p.contacts| ==> ToLower(p.contacts[k].email) !in existing) &&
      (forall j, k :: 0 <= j < k < |p.contacts| ==> ToLower(p.contacts[j].email) != ToLower(p.contacts[k].email))
    decreases |partners|
  {
    if partners != [] {
      var q := Admitted(partners[..|partners| - 1], existing, clean);
      var partner := partners[|partners| - 1];
      AdmittedFresh(partners[..|partners| - 1], existing, clean);
      AdmittedSeen(partners[..|partners| - 1], existing, clean);
      AdmitCases(q, partner, clean);
      assert forall k :: 0 <= k < |q.contacts| ==> ToLower(q.contacts[k].email) in LowerEmails(q.contacts);
    }
  }

  /** The partner an admitted contact comes from: same name, and its e-mail
   *  field cleans to the contact's address. */
  predicate FromPartner(partners: seq<Partner>, c: Contact, clean: Cleaner)
  {
    exists i :: 0 <= i < |partners| && clean(partners[i].email) == Some(c.email) && c.name == partners[i].name
  }

  lemma {:induction false} AdmittedFrom(partners: seq<Partner>, existing: set<string>, clean: Cleaner)
    ensures forall c :: c in Admitted(partners, existing, clean).contacts ==> FromPartner(partners, c, clean)
    decreases |partners|
  {
    if partners != [] {
      var n := |partners| - 1;
      var init := partners[..n];
      var q := Admitted(init, existing, clean);
      AdmittedFrom(init, existing, clean);
      AdmitCases(q, partners[n], clean);
      forall c | c in q.contacts
        ensures FromPartner(partners, c, clean)
      {
        assert FromPartner(init, c, clean);
        var i :| 0 <= i < |init| && clean(init[i].email) == Some(c.email) && c.name == init[i].name;
        assert init[i] == partners[i];
      }
      var p := Admitted(partners, existing, clean);
      if |p.contacts| > |q.contacts| {
        assert FromPartner(partners, p.contacts[|q.contacts|], clean) by {
          assert clean(partners[n].email) == Some(p.contacts[|q.contacts|].email);
        }
      }
    }
  }

  /** A partner whose address survives the clean-up and was not on the list
   *  is never lost: its e-mail is among the admitted ones. */
  lemma {:induction false} AdmittedComplete(partners: seq<Partner>, existing: set<string>, clean: Cleaner, i: nat)
    requires i < |partners| && clean(partners[i].email).Some?
    requires ToLower(clean(partners[i].email).value) !in existing
    ensures ToLower(clean(partners[i].email).value) in LowerEmails(Admitted(partners, existing, clean).contacts)
    decreases |partners|
  {
    var n := |partners| - 1;
    var init := partners[..n];
    var q := Admitted(init, existing, clean);
    var e := ToLower(clean(partners[i].email).value);
    AdmitCases(q, partners[n], clean);
    AdmittedSeen(partners, existing, clean);
    if i < n {
      assert init[i] == partners[i];
      AdmittedComplete(init, existing, clean, i);
      AdmittedSeen(init, existing, clean);
    }
  }

  // ---------------------------------------------------------------- batched creation

  /** Contacts in the batches whose `create` call succeeded. */
  function Succeeded(batches: seq<seq<Contact>>, create: seq<Contact> -> bool): nat
    decreases |batches|
  {
    if batches == [] then 0
    else Succeeded(batches[..|batches| - 1], create) + (if create(batches[|batches| - 1]) then |batches[|batches| - 1]| else 0)
  }

  /** Contacts in the batches whose `create` call raised. */
  function Failed(batches: seq<seq<Contact>>, create: seq<Contact> -> bool): nat
    decreases |batches|
  {
    if batches == [] then 0
    else Failed(batches[..|batches| - 1], create) + (if create(batches[|batches| - 1]) then 0 else |batches[|batches| - 1]|)
  }

  lemma {:induction false} SucceededPlusFailed(batches: seq<seq<Contact>>, create: seq<Contact> -> bool)
    ensures Succeeded(batches, create) + Failed(batches, create) == |Flatten(batches)|
    decreases |batches|
  {
    if batches != [] {
      SucceededPlusFailed(batches[..|batches| - 1], create);
    }
  }

  lemma SucceededSnoc(batches: seq<seq<Contact>>, b: seq<Contact>, create: seq<Contact> -> bool)
    ensures Succeeded(batches + [b], create) == Succeeded(batches, create) + (if create(b) then |b| else 0)
    ensures Failed(batches + [b], create) == Failed(batches, create) + (if create(b) then 0 else |b|)
  {
    assert (batches + [b])[..|batches|] == batches;
  }

  /** Full batches followed by a short one are exactly the chunks of their
   *  concatenation. */
  lemma {:induction false} ChunksOfFull<T>(full: seq<seq<T>>, tail: seq<T>, size: nat)
    requires size > 0 && |tail| <= size
    requires forall k :: 0 <= k < |full| ==> |full[k]| == size
    ensures Chunks(Flatten(full) + tail, size) == full + (if tail == [] then [] else [tail])
    decreases |full|
  {
    if full != [] {
      var rest := full[1..];
      assert full == [full[0]] + rest;
      FlattenPrepend(full[0], rest);
      ChunksOfFull(rest, tail, size);
      var s := Flatten(full) + tail;
      assert s == full[0] + (Flatten(rest) + tail);
      if |s| <= size {
        assert Flatten(rest) + tail == [];
      } else {
        assert s[..size] == full[0];
        assert s[size..] == Flatten(rest) + tail;
      }
    } else {
      assert Flatten(full) + tail == tail;
    }
  }

  /** Admission does not look at the contacts already admitted. */
  lemma AdmitShift(done: seq<Contact>, p: Plan, partner: Partner, clean: Cleaner)
    ensures var q := Admit(p, partner, clean);
      Admit(p.(contacts := done + p.contacts), partner, clean) == q.(contacts := done + q.contacts)
  {
    match clean(partner.email)
    case None =>
    case Some(e) =>
      assert (done + p.contacts) + [Contact(partner.name, e, MailingListId)] ==
        done + (p.contacts + [Contact(partner.name, e, MailingListId)]);
  }

  /** The two `continue` tests and the append for one partner. */
  method AdmitOne(batch: seq<Contact>, seen: set<string>, skipped: nat, partner: Partner, clean: Cleaner)
    returns (batch': seq<Contact>, seen': set<string>, skipped': nat)
    ensures Plan(batch', seen', skipped') == Admit(Plan(batch, seen, skipped), partner, clean)
    ensures |batch'| <= |batch| + 1
  {
    var email := clean(partner.email);
    ghost var q := Admit(Plan(batch, seen, skipped), partner, clean);
    if email.None? {
      batch', seen', skipped' := batch, seen, skipped + 1;
      assert q == Plan(batch', seen', skipped');
    } else if ToLower(email.value) in seen {
      batch', seen', skipped' := batch, seen, skipped + 1;
      assert q == Plan(batch', seen', skipped');
    } else {
      var e := email.value;
      batch', seen', skipped' := batch + [Contact(partner.name, e, MailingListId)], seen + {ToLower(e)}, skipped;
      assert q == Plan(batch', seen', skipped');
    }
  }

  /** One `create` call for a batch: all of it is created or all of it is
   *  counted as errors. */
  method Flush(flushed: seq<seq<Contact>>, batch: seq<Contact>, created: nat, errors: nat, create: seq<Contact> -> bool)
    returns (flushed': seq<seq<Contact>>, created': nat, errors': nat)
    requires created == Succeeded(flushed, create) && errors == Failed(flushed, create)
    ensures flushed' == flushed + [batch] && Flatten(flushed') == Flatten(flushed) + batch
    ensures created' == Succeeded(flushed', create) && errors' == Failed(flushed', create)
    ensures created' + errors' == created + errors + |batch|
  {
    SucceededSnoc(flushed, batch, create);
    FlattenSnoc(flushed, batch);
    created', errors' := created, errors;
    if create(batch) {
      created' := created + |batch|;
    } else {
      errors' := errors + |batch|;
    }
    flushed' := flushed + [batch];
  }

  /** The outcome of `create_mailing_contacts`. */
  datatype Outcome = Outcome(created: nat, skipped: nat, errors: nat, batches: seq<seq<Contact>>, seen: set<string>)

  /** The loop of `create_mailing_contacts`: every full batch of 50 is
   *  flushed as soon as it fills; the partial batch is what remains. */
  method FlushFullBatches(partners: seq<Partner>, existing: set<string>, create: seq<Contact> -> bool, clean: Cleaner)
    returns (flushed: seq<seq<Contact>>, batch: seq<Contact>, seen: set<string>, skipped: nat, created: nat, errors: nat)
    ensures Admitted(partners, existing, clean) == Plan(Flatten(flushed) + batch, seen, skipped)
    ensures |batch| < BatchSize
    ensures forall k :: 0 <= k < |flushed| ==> |flushed[k]| == BatchSize
    ensures created == Succeeded(flushed, create) && errors == Failed(flushed, create)
  {
    created, skipped, errors := 0, 0, 0;
    flushed := [];
    batch := [];
    seen := existing;
    for i := 0 to |partners|
      invariant Admitted(partners[..i], existing, clean) == Plan(Flatten(flushed) + batch, seen, skipped)
      invariant |batch| < BatchSize
      invariant forall k :: 0 <= k < |flushed| ==> |flushed[k]| == BatchSize
      invariant created == Succeeded(flushed, create) && errors == Failed(flushed, create)
    {
      flushed, batch, seen, skipped, created, errors :=
        AdmitAndFlush(partners, existing, create, clean, i, flushed, batch, seen, skipped, created, errors);
    }
    assert partners[..|partners|] == partners;
  }

  /** One iteration: admit partner `i`, then flush the batch if it is full. */
  method AdmitAndFlush(partners: seq<Partner>, existing: set<string>, create: seq<Contact> -> bool, clean: Cleaner, i: nat,
                       flushed: seq<seq<Contact>>, batch: seq<Contact>, seen: set<string>, skipped: nat,
                       created: nat, errors: nat)
    returns (flushed': seq<seq<Contact>>, batch': seq<Contact>, seen': set<string>, skipped': nat,
             created': nat, errors': nat)
    requires i < |partners|
    requires Admitted(partners[..i], existing, clean) == Plan(Flatten(flushed) + batch, seen, skipped)
    requires |batch| < BatchSize
    requires forall k :: 0 <= k < |flushed| ==> |flushed[k]| == BatchSize
    requires created == Succeeded(flushed, create) && errors == Failed(flushed, create)
    ensures Admitted(partners[..i + 1], existing, clean) == Plan(Flatten(flushed') + batch', seen', skipped')
    ensures |batch'| < BatchSize
    ensures forall k :: 0 <= k < |flushed'| ==> |flushed'[k]| == BatchSize
    ensures created' == Succeeded(flushed', create) && errors' == Failed(flushed', create)
  {
    AdmittedSnoc(partners, existing, clean, i);
    AdmitShift(Flatten(flushed), Plan(batch, seen, skipped), partners[i], clean);
    batch', seen', skipped' := AdmitOne(batch, seen, skipped, partners[i], clean);
    flushed', created', errors' := flushed, created, errors;
    if |batch'| >= BatchSize {
      flushed', created', errors' := Flush(flushed, batch', created, errors, create);
      assert Flatten(flushed') + [] == Flatten(flushed) + batch';
      batch' := [];
    }
  }

  /** `create_mailing_contacts`. `create` says whether the `create` call for
   *  a batch succeeds. The batches flushed are the chunks of 50 of the
   *  admitted contacts, the last one partial; each counts as created or as
   *  errors as a whole. */
  method CreateMailingContacts(partners: seq<Partner>, existing: set<string>, create: seq<Contact> -> bool)
    returns (r: Outcome)
    ensures var plan := Admitted(partners, existing, CleanEmail);
      r.batches == Chunks(plan.contacts, BatchSize) &&
      r.seen == plan.seen && r.skipped == plan.skipped
    ensures forall k :: 0 <= k < |r.batches| ==> 0 < |r.batches[k]| <= BatchSize
    ensures r.created == Succeeded(r.batches, create) && r.errors == Failed(r.batches, create)
    ensures r.created + r.skipped + r.errors == |partners|
  {
    var flushed, batch, seen, skipped, created, errors := FlushFullBatches(partners, existing, create, CleanEmail);
    if batch != [] {
      ChunksOfFull(flushed, batch, BatchSize);
      flushed, created, errors := Flush(flushed, batch, created, errors, create);
    } else {
      ChunksOfFull(flushed, [], BatchSize);
      assert Flatten(flushed) + [] == Flatten(flushed);
    }
    AdmittedCount(partners, existing, CleanEmail);
    SucceededPlusFailed(flushed, create);
    ChunksProperties(Admitted(partners, existing, CleanEmail).contacts, BatchSize);
    r := Outcome(created, skipped, errors, flushed, seen);
  }
}
