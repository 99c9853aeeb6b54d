/**
 * Canonical keys and the two accumulation phases of `rebuildFinanceKnowledge`: e-mail transactions first, imported
 * statement rows second.
 */
module LedgerPhases {
  import opened Common
  import opened JsText
  import opened Ledger

  /** `normalizeKeyPart` and `toUpperCase`, left abstract. */
  datatype TextRules = TextRules(keyPart: string -> string, upper: string -> string)

  datatype Candidate = Candidate(
    institution: Option<string>,
    account: Option<string>,
    externalId: Option<string>,
    amount: Option<string>,
    trusted: bool,
    notLedger: bool,
    draft: Draft,
    origin: nat)

  datatype EmailTransaction = EmailTransaction(
    c: Candidate,
    givenComposite: Option<string>,
    messageId: string,
    evidenceKey: Option<string>)

  /** A finance head; it is skipped unless its result parses and the root label calls the message relevant. */
  datatype EmailRow = EmailRow(usable: bool, transactions: seq<EmailTransaction>)

  datatype ImportRow = ImportRow(c: Candidate, authority: string, artifactSha: string, rowRef: string)

  function NormalizedComposite(t: TextRules, c: Candidate): string {
    var date := OrElse(c.draft.date, "");
    Join([c.draft.book, OrElse(c.account, "unknown-account"), date[..Min(10, |date|)], t.keyPart(OrElse(c.amount, "")),
          t.upper(OrElse(c.draft.currency, "")), t.keyPart(OrElse(c.draft.counterparty, ""))], '|')
  }

  function CompositeKey(composite: string): string { "composite:" + composite }

  predicate IsCompositeKey(key: string) { "composite:" <= key }

  predicate HasSubstance(composite: string) { exists i :: 0 <= i < |composite| && composite[i] != '|' }

  function ExternalKey(t: TextRules, c: Candidate): string {
    "external:" + t.keyPart(OrElse(c.institution, "")) + ":" + t.keyPart(OrElse(c.account, "")) + ":"
      + t.keyPart(OrElse(c.externalId, ""))
  }

  function EmailKey(t: TextRules, e: EmailTransaction): string {
    var composite := OrElse(e.givenComposite, NormalizedComposite(t, e.c));
    if Given(e.c.externalId) then ExternalKey(t, e.c)
    else if HasSubstance(composite) then CompositeKey(composite)
    else "email:" + e.messageId + ":" + OrElse(e.evidenceKey, "unknown")
  }

  /** The key an import row would have were there no e-mail entries. */
  function OwnKey(t: TextRules, r: ImportRow): string {
    if Given(r.c.externalId) then ExternalKey(t, r.c)
    else if r.artifactSha != "" then "import:" + r.artifactSha + ":" + r.rowRef
    else if HasSubstance(NormalizedComposite(t, r.c)) then CompositeKey(NormalizedComposite(t, r.c))
    else "email:unknown:unknown"
  }

  function ImportKey(t: TextRules, r: ImportRow, keys: set<string>): string {
    var compositeKey := CompositeKey(NormalizedComposite(t, r.c));
    if !Given(r.c.externalId) && compositeKey in keys then compositeKey else OwnKey(t, r)
  }

  // ---------- The texts of the keys ----------

  ghost predicate HasText(o: Option<string>) { o.Some? && |o.value| > 0 }

  ghost predicate OnlyBars(s: string) { forall c :: c in s ==> c == '|' }

  ghost function TextOr(o: Option<string>, default: string): string { if o.Some? then o.value else default }

  ghost function ExternalParts(t: TextRules, c: Candidate): seq<string> {
    ["external", t.keyPart(TextOr(c.institution, "")), t.keyPart(TextOr(c.account, "")),
     t.keyPart(TextOr(c.externalId, ""))]
  }

  /** Book, account, day, amount, currency and counterparty. */
  ghost function CompositeParts(t: TextRules, c: Candidate): seq<string> {
    var date := TextOr(c.draft.date, "");
    [c.draft.book, TextOr(c.account, "unknown-account"), if |date| <= 10 then date else date[..10],
     t.keyPart(TextOr(c.amount, "")), t.upper(TextOr(c.draft.currency, "")),
     t.keyPart(TextOr(c.draft.counterparty, ""))]
  }

  lemma CompositeIsJoined(t: TextRules, c: Candidate)
    ensures NormalizedComposite(t, c) == Join(CompositeParts(t, c), '|')
  {
    var date := OrElse(c.draft.date, "");
    assert date[..Min(10, |date|)] == CompositeParts(t, c)[2];
  }

  /** The key of an e-mail transaction: its id with its place, else its composite, else its message. */
  lemma EmailKeyText(t: TextRules, e: EmailTransaction)
    ensures var composite := TextOr(e.givenComposite, Join(CompositeParts(t, e.c), '|'));
            EmailKey(t, e)
              == if HasText(e.c.externalId) then Join(ExternalParts(t, e.c), ':')
                 else if !OnlyBars(composite) then Join(["composite", composite], ':')
                 else Join(["email", e.messageId, TextOr(e.evidenceKey, "unknown")], ':')
  {
    var composite := OrElse(e.givenComposite, NormalizedComposite(t, e.c));
    CompositeIsJoined(t, e.c);
    ExternalIsJoined(t, e.c);
    CompositeKeyIsJoined(composite);
    JoinThree("email", e.messageId, OrElse(e.evidenceKey, "unknown"), ':');
  }

  /** The key of an import row: its id, else an entry that already has its composite, else its place in the artifact. */
  lemma ImportKeyText(t: TextRules, r: ImportRow, keys: set<string>)
    ensures var composite := Join(CompositeParts(t, r.c), '|');
            ImportKey(t, r, keys)
              == if HasText(r.c.externalId) then Join(ExternalParts(t, r.c), ':')
                 else if Join(["composite", composite], ':') in keys then Join(["composite", composite], ':')
                 else if |r.artifactSha| > 0 then Join(["import", r.artifactSha, r.rowRef], ':')
                 else if !OnlyBars(composite) then Join(["composite", composite], ':')
                 else "email:unknown:unknown"
  {
    CompositeIsJoined(t, r.c);
    ExternalIsJoined(t, r.c);
    CompositeKeyIsJoined(NormalizedComposite(t, r.c));
    JoinThree("import", r.artifactSha, r.rowRef, ':');
  }

  lemma CompositeKeyIsJoined(composite: string)
    ensures CompositeKey(composite) == Join(["composite", composite], ':')
    ensures HasSubstance(composite) <==> !OnlyBars(composite)
  {
    if HasSubstance(composite) {
      var i :| 0 <= i < |composite| && composite[i] != '|';
      assert composite[i] in composite;
    }
    JoinTwo("composite", composite, ':');
    assert "composite:" == "composite" + ":";
  }

  lemma ExternalIsJoined(t: TextRules, c: Candidate)
    ensures ExternalKey(t, c) == Join(ExternalParts(t, c), ':')
  {
    var p := ExternalParts(t, c);
    JoinFour(p[0], p[1], p[2], p[3], ':');
    assert p == [p[0], p[1], p[2], p[3]];
    assert "external:" == p[0] + ":";
  }

  /** Rows with the same composite agree in all six of its parts, unless a part contains a bar. */
  lemma CompositesAgree(t: TextRules, a: Candidate, b: Candidate)
    requires forall x :: x in CompositeParts(t, a) + CompositeParts(t, b) ==> '|' !in x
    ensures NormalizedComposite(t, a) == NormalizedComposite(t, b) <==> CompositeParts(t, a) == CompositeParts(t, b)
  {
    CompositeIsJoined(t, a);
    CompositeIsJoined(t, b);
    JoinTellsParts(CompositeParts(t, a), CompositeParts(t, b), '|');
  }

  function EmailTransactions(rows: seq<EmailRow>): seq<EmailTransaction> {
    if rows == [] then []
    else
      var n := |rows| - 1;
      EmailTransactions(rows[..n]) + if rows[n].usable then rows[n].transactions else []
  }

  ghost predicate FromEmail(t: TextRules, e: Entry, x: EmailTransaction) {
    e.key == EmailKey(t, x) && e.status == StatusForDraft(x.c.trusted, x.c.notLedger, x.c.draft)
      && e.authority == "email" && e.draft == x.c.draft
  }

  ghost predicate FromImport(t: TextRules, e: Entry, r: ImportRow, keys: set<string>) {
    e.key == ImportKey(t, r, keys) && e.status == StatusForDraft(r.c.trusted, false, r.c.draft)
      && e.authority == r.authority && e.draft == r.c.draft
  }

  /** The candidates in fold order: first the e-mail transactions, then the import rows. */
  ghost predicate CandidateStream(t: TextRules, emails: seq<EmailTransaction>, imports: seq<ImportRow>,
                                  seen: seq<Entry>) {
    && |seen| == |emails| + |imports|
    && (forall i :: 0 <= i < |emails| ==> FromEmail(t, seen[i], emails[i]))
    && (forall j :: 0 <= j < |imports| ==> FromImport(t, seen[|emails| + j], imports[j], KeysOf(seen[..|emails| + j])))
  }

  ghost predicate OriginsKept(emails: seq<EmailTransaction>, imports: seq<ImportRow>, sources: seq<SourceRow>) {
    && |sources| == |emails| + |imports|
    && (forall i :: 0 <= i < |emails| ==> sources[i].kind == "email" && sources[i].origin == emails[i].c.origin)
    && (forall j :: 0 <= j < |imports| ==>
        sources[|emails| + j].kind == imports[j].authority && sources[|emails| + j].origin == imports[j].c.origin)
  }

  lemma StreamWithEmail(t: TextRules, emails: seq<EmailTransaction>, seen: seq<Entry>, x: EmailTransaction, e: Entry)
    requires CandidateStream(t, emails, [], seen) && FromEmail(t, e, x)
    ensures CandidateStream(t, emails + [x], [], seen + [e])
  {
  }

  lemma StreamWithImport(t: TextRules, emails: seq<EmailTransaction>, imports: seq<ImportRow>, seen: seq<Entry>,
                         r: ImportRow, e: Entry)
    requires CandidateStream(t, emails, imports, seen) && FromImport(t, e, r, KeysOf(seen))
    ensures CandidateStream(t, emails, imports + [r], seen + [e])
  {
    var longer, n := seen + [e], |emails|;
    assert longer[..|seen|] == seen;
    forall j | 0 <= j < |imports| ensures FromImport(t, longer[n + j], imports[j], KeysOf(longer[..n + j])) {
      assert longer[..n + j] == seen[..n + j];
    }
  }

  lemma OriginsWithEmail(emails: seq<EmailTransaction>, before: seq<SourceRow>, after: seq<SourceRow>,
                         x: EmailTransaction)
    requires OriginsKept(emails, [], before) && SameEvidence(before, after, "email", x.c.origin)
    ensures OriginsKept(emails + [x], [], after)
  {
  }

  lemma OriginsWithImport(emails: seq<EmailTransaction>, imports: seq<ImportRow>, before: seq<SourceRow>,
                          after: seq<SourceRow>, r: ImportRow)
    requires OriginsKept(emails, imports, before) && SameEvidence(before, after, r.authority, r.c.origin)
    ensures OriginsKept(emails, imports + [r], after)
  {
  }

  method AddEmail(ledger: Rebuild, t: TextRules, x: EmailTransaction, ghost emails: seq<EmailTransaction>)
    requires ledger.Valid() && CandidateStream(t, emails, [], ledger.seen) && OriginsKept(emails, [], ledger.sources)
    modifies ledger
    ensures ledger.Valid() && CandidateStream(t, emails + [x], [], ledger.seen)
    ensures OriginsKept(emails + [x], [], ledger.sources)
  {
    ghost var before := ledger.seen;
    var status := StatusForDraft(x.c.trusted, x.c.notLedger, x.c.draft);
    ledger.AddOrMerge(EmailKey(t, x), status, "email", x.c.draft, "email", x.c.origin);
    StreamWithEmail(t, emails, before, x, ledger.seen[|before|]);
    OriginsWithEmail(emails, old(ledger.sources), ledger.sources, x);
  }

  method AddImport(ledger: Rebuild, t: TextRules, r: ImportRow, ghost emails: seq<EmailTransaction>,
                   ghost imports: seq<ImportRow>)
    requires ledger.Valid() && CandidateStream(t, emails, imports, ledger.seen)
    requires OriginsKept(emails, imports, ledger.sources)
    modifies ledger
    ensures ledger.Valid() && CandidateStream(t, emails, imports + [r], ledger.seen)
    ensures OriginsKept(emails, imports + [r], ledger.sources)
  {
    ghost var before := ledger.seen;
    ledger.EntryKeys();
    var key := ImportKey(t, r, ledger.entries.Keys);
    var status := StatusForDraft(r.c.trusted, false, r.c.draft);
    ledger.AddOrMerge(key, status, r.authority, r.c.draft, r.authority, r.c.origin);
    StreamWithImport(t, emails, imports, before, r, ledger.seen[|before|]);
    OriginsWithImport(emails, imports, old(ledger.sources), ledger.sources, r);
  }

  method EmailPhase(ledger: Rebuild, t: TextRules, rows: seq<EmailRow>)
    requires ledger.Valid() && ledger.seen == []
    modifies ledger
    ensures ledger.Valid()
    ensures CandidateStream(t, EmailTransactions(rows), [], ledger.seen)
    ensures OriginsKept(EmailTransactions(rows), [], ledger.sources)
  {
    for i := 0 to |rows|
      invariant ledger.Valid()
      invariant CandidateStream(t, EmailTransactions(rows[..i]), [], ledger.seen)
      invariant OriginsKept(EmailTransactions(rows[..i]), [], ledger.sources)
    {
      assert rows[..i + 1][..i] == rows[..i];
      if rows[i].usable {
        EmailTransactionsOf(ledger, t, rows[i], EmailTransactions(rows[..i]));
      } else {
        assert EmailTransactions(rows[..i]) + [] == EmailTransactions(rows[..i]);
      }
    }
    assert rows[..|rows|] == rows;
  }

  lemma OneMoreTransaction(emails: seq<EmailTransaction>, xs: seq<EmailTransaction>, i: nat)
    requires i < |xs|
    ensures emails + xs[..i] + [xs[i]] == emails + xs[..i + 1]
  {
  }

  method EmailTransactionsOf(ledger: Rebuild, t: TextRules, row: EmailRow, ghost emails: seq<EmailTransaction>)
    requires ledger.Valid() && CandidateStream(t, emails, [], ledger.seen) && OriginsKept(emails, [], ledger.sources)
    modifies ledger
    ensures ledger.Valid()
    ensures CandidateStream(t, emails + row.transactions, [], ledger.seen)
    ensures OriginsKept(emails + row.transactions, [], ledger.sources)
  {
    assert emails + row.transactions[..0] == emails;
    for i := 0 to |row.transactions|
      invariant ledger.Valid()
      invariant CandidateStream(t, emails + row.transactions[..i], [], ledger.seen)
      invariant OriginsKept(emails + row.transactions[..i], [], ledger.sources)
    {
      AddEmail(ledger, t, row.transactions[i], emails + row.transactions[..i]);
      OneMoreTransaction(emails, row.transactions, i);
    }
    assert row.transactions[..|row.transactions|] == row.transactions;
  }

  method ImportPhase(ledger: Rebuild, t: TextRules, importRows: seq<ImportRow>, ghost emails: seq<EmailTransaction>)
    requires ledger.Valid() && CandidateStream(t, emails, [], ledger.seen) && OriginsKept(emails, [], ledger.sources)
    modifies ledger
    ensures ledger.Valid()
    ensures CandidateStream(t, emails, importRows, ledger.seen) && OriginsKept(emails, importRows, ledger.sources)
  {
    for i := 0 to |importRows|
      invariant ledger.Valid()
      invariant CandidateStream(t, emails, importRows[..i], ledger.seen)
      invariant OriginsKept(emails, importRows[..i], ledger.sources)
    {
      AddImport(ledger, t, importRows[i], emails, importRows[..i]);
      assert importRows[..i] + [importRows[i]] == importRows[..i + 1];
    }
    assert importRows[..|importRows|] == importRows;
  }

  method RebuildFinanceKnowledge(t: TextRules, emailRows: seq<EmailRow>, importRows: seq<ImportRow>)
    returns (entries: map<string, Entry>, sources: seq<SourceRow>, ghost seen: seq<Entry>)
    ensures Folded(seen, entries, sources) && ChosenByName(seen, entries)
    ensures CandidateStream(t, EmailTransactions(emailRows), importRows, seen)
    ensures OriginsKept(EmailTransactions(emailRows), importRows, sources)
  {
    var ledger := new Rebuild();
    EmailPhase(ledger, t, emailRows);
    ImportPhase(ledger, t, importRows, EmailTransactions(emailRows));
    KeptByName(ledger.seen, ledger.entries);
    return ledger.entries, ledger.sources, ledger.seen;
  }

  // ---------- Cross-source suppression ----------

  /** A row that names no transaction and no artifact would make a composite key of its own. */
  predicate MakesComposite(t: TextRules, r: ImportRow) {
    !Given(r.c.externalId) && r.artifactSha == "" && HasSubstance(NormalizedComposite(t, r.c))
  }

  lemma OwnKeyIsComposite(t: TextRules, r: ImportRow)
    ensures IsCompositeKey(OwnKey(t, r)) <==> MakesComposite(t, r)
  {
    var key := OwnKey(t, r);
    assert "composite:"[0] == 'c';
    var bare := r.artifactSha == "" && !HasSubstance(NormalizedComposite(t, r.c));
    assert key[0] == if Given(r.c.externalId) || bare then 'e' else if r.artifactSha != "" then 'i' else 'c';
  }

  predicate IsExternalKey(key: string) { "external:" <= key }

  predicate IsImportKey(key: string) { "import:" <= key }

  /** A transaction id decides the key of an e-mail transaction; only without one does its composite. */
  lemma EmailKeyKind(t: TextRules, e: EmailTransaction)
    ensures IsExternalKey(EmailKey(t, e)) <==> Given(e.c.externalId)
    ensures IsCompositeKey(EmailKey(t, e))
       <==> !Given(e.c.externalId) && HasSubstance(OrElse(e.givenComposite, NormalizedComposite(t, e.c)))
    ensures !IsImportKey(EmailKey(t, e))
  {
    var key := EmailKey(t, e);
    var composite := OrElse(e.givenComposite, NormalizedComposite(t, e.c));
    assert key[0] == if !Given(e.c.externalId) && HasSubstance(composite) then 'c' else 'e';
    assert key[1] == if Given(e.c.externalId) then 'x' else if HasSubstance(composite) then 'o' else 'm';
  }

  /** An import row is keyed by its transaction id, else by its place in the artifact, else as without an artifact. */
  lemma OwnKeyKind(t: TextRules, r: ImportRow)
    ensures IsExternalKey(OwnKey(t, r)) <==> Given(r.c.externalId)
    ensures IsImportKey(OwnKey(t, r)) <==> !Given(r.c.externalId) && r.artifactSha != ""
  {
    var key := OwnKey(t, r);
    var substance := HasSubstance(NormalizedComposite(t, r.c));
    assert key[0] == if !Given(r.c.externalId) && r.artifactSha != "" then 'i'
                     else if !Given(r.c.externalId) && substance then 'c' else 'e';
    assert key[1]
      == if Given(r.c.externalId) then 'x' else if r.artifactSha != "" then 'm' else if substance then 'o' else 'm';
  }

  /** Rows without transaction ids are the same entry exactly when they are the same row of the same artifact. */
  lemma ImportRowsKeptApart(t: TextRules, a: ImportRow, b: ImportRow)
    requires !Given(a.c.externalId) && !Given(b.c.externalId)
    requires a.artifactSha != "" && Colonless(a.artifactSha) && b.artifactSha != "" && Colonless(b.artifactSha)
    ensures OwnKey(t, a) == OwnKey(t, b) <==> a.artifactSha == b.artifactSha && a.rowRef == b.rowRef
  {
    var (x, y) := (a.artifactSha + ":" + a.rowRef, b.artifactSha + ":" + b.rowRef);
    assert OwnKey(t, a) == "import:" + x && OwnKey(t, b) == "import:" + y;
    assert ("import:" + x)[7..] == x && ("import:" + y)[7..] == y;
    if x == y {
      FirstColon(a.artifactSha, a.rowRef, b.artifactSha, b.rowRef);
    }
  }

  ghost function CompositeKeys(seen: seq<Entry>): set<string> {
    set k | k in KeysOf(seen) && IsCompositeKey(k)
  }

  /**
   * The composite keys are fixed once the e-mail phase ends, exactly when each import row without transaction id and
   * artifact digest finds its composite among them.
   */
  lemma CompositeKeysFixed(t: TextRules, emails: seq<EmailTransaction>, imports: seq<ImportRow>, seen: seq<Entry>)
    requires CandidateStream(t, emails, imports, seen)
    ensures CompositeKeys(seen) == CompositeKeys(seen[..|emails|])
       <==> OnlyKnownComposites(t, imports, CompositeKeys(seen[..|emails|]))
  {
    var n := |emails|;
    if OnlyKnownComposites(t, imports, CompositeKeys(seen[..n])) {
      ImportsAddNoComposite(t, emails, imports, seen, |imports|);
      assert seen[..n + |imports|] == seen;
    } else {
      var r :| r in imports && MakesComposite(t, r)
        && CompositeKey(NormalizedComposite(t, r.c)) !in CompositeKeys(seen[..n]);
      var j :| 0 <= j < |imports| && imports[j] == r;
      NewCompositeAppears(t, emails, imports, seen, j);
    }
  }

  lemma NewCompositeAppears(t: TextRules, emails: seq<EmailTransaction>, imports: seq<ImportRow>, seen: seq<Entry>,
                            j: nat)
    requires CandidateStream(t, emails, imports, seen) && j < |imports| && MakesComposite(t, imports[j])
    ensures CompositeKey(NormalizedComposite(t, imports[j].c)) in CompositeKeys(seen)
  {
    assert seen[|emails| + j] in seen;
  }

  /** Each row that makes a composite key makes one of the known ones. */
  ghost predicate OnlyKnownComposites(t: TextRules, imports: seq<ImportRow>, known: set<string>) {
    forall r :: r in imports && MakesComposite(t, r) ==> CompositeKey(NormalizedComposite(t, r.c)) in known
  }

  lemma {:induction false} ImportsAddNoComposite(t: TextRules, emails: seq<EmailTransaction>, imports: seq<ImportRow>,
                                                 seen: seq<Entry>, j: nat)
    requires CandidateStream(t, emails, imports, seen) && j <= |imports|
    requires OnlyKnownComposites(t, imports, CompositeKeys(seen[..|emails|]))
    ensures CompositeKeys(seen[..|emails| + j]) == CompositeKeys(seen[..|emails|])
  {
    var n := |emails|;
    if j > 0 {
      ImportsAddNoComposite(t, emails, imports, seen, j - 1);
      NextImportAddsNoComposite(t, emails, imports, seen, j - 1, CompositeKeys(seen[..n]));
    }
  }

  lemma NextImportAddsNoComposite(t: TextRules, emails: seq<EmailTransaction>, imports: seq<ImportRow>,
                                  seen: seq<Entry>, j: nat, known: set<string>)
    requires CandidateStream(t, emails, imports, seen) && j < |imports|
    requires OnlyKnownComposites(t, imports, known) && CompositeKeys(seen[..|emails| + j]) == known
    ensures CompositeKeys(seen[..|emails| + j + 1]) == known
  {
    ImportAddsNoComposite(t, imports[j], seen[..|emails| + j], seen[|emails| + j], known);
  }

  lemma ImportAddsNoComposite(t: TextRules, r: ImportRow, before: seq<Entry>, e: Entry, known: set<string>)
    requires FromImport(t, e, r, KeysOf(before)) && CompositeKeys(before) == known
    requires MakesComposite(t, r) ==> CompositeKey(NormalizedComposite(t, r.c)) in known
    ensures CompositeKeys(before + [e]) == known
  {
    OwnKeyIsComposite(t, r);
  }

  /** Another import row would be keyed by the same place in the same artifact. */
  ghost predicate SharesOwnKey(t: TextRules, imports: seq<ImportRow>, j: nat, k: nat) {
    j < |imports| && k < |imports| && k != j && OwnKey(t, imports[k]) == OwnKey(t, imports[j])
  }

  /**
   * Cross-source suppression: an import row without a transaction id whose composite an e-mail entry already has
   * lands in that entry: its source points there, and no entry under its own import key is kept on its account.
   */
  lemma ImportLandsInEmailEntry(t: TextRules, emails: seq<EmailTransaction>, imports: seq<ImportRow>, seen: seq<Entry>,
                                entries: map<string, Entry>, sources: seq<SourceRow>, j: nat)
    requires CandidateStream(t, emails, imports, seen) && KeptEntries(seen, entries) && Pointing(seen, entries, sources)
    requires j < |imports|
    requires !Given(imports[j].c.externalId)
    requires CompositeKey(NormalizedComposite(t, imports[j].c)) in KeysOf(seen[..|emails|])
    ensures var key := CompositeKey(NormalizedComposite(t, imports[j].c));
            key in entries && sources[|emails| + j].entry == entries[key].id
    ensures IsImportKey(OwnKey(t, imports[j])) && OwnKey(t, imports[j]) in entries ==>
              exists k :: SharesOwnKey(t, imports, j, k)
  {
    NoDoubleKept(t, emails, imports, seen, entries, j);
  }

  lemma NoDoubleKept(t: TextRules, emails: seq<EmailTransaction>, imports: seq<ImportRow>, seen: seq<Entry>,
                     entries: map<string, Entry>, j: nat)
    requires CandidateStream(t, emails, imports, seen) && KeptEntries(seen, entries) && j < |imports|
    requires seen[|emails| + j].key == CompositeKey(NormalizedComposite(t, imports[j].c))
    ensures IsImportKey(OwnKey(t, imports[j])) && OwnKey(t, imports[j]) in entries ==>
              exists k :: SharesOwnKey(t, imports, j, k)
  {
    var own := OwnKey(t, imports[j]);
    if IsImportKey(own) && own in entries {
      var i := KeptKeyWasSeen(seen, entries, own);
      DoubleIsAnotherRow(t, emails, imports, seen, i, j);
    }
  }

  lemma DoubleIsAnotherRow(t: TextRules, emails: seq<EmailTransaction>, imports: seq<ImportRow>, seen: seq<Entry>,
                           i: nat, j: nat)
    requires CandidateStream(t, emails, imports, seen) && i < |seen| && j < |imports|
    requires IsImportKey(seen[i].key) && seen[i].key == OwnKey(t, imports[j]) && IsCompositeKey(seen[|emails| + j].key)
    ensures i >= |emails| && SharesOwnKey(t, imports, j, i - |emails|)
  {
    assert seen[i].key[0] == 'i';
  }

  lemma KeptKeyWasSeen(seen: seq<Entry>, entries: map<string, Entry>, key: string) returns (i: nat)
    requires KeptEntries(seen, entries) && key in entries
    ensures i < |seen| && seen[i].key == key
  {
    i :| 0 <= i < |seen| && seen[i] == entries[key] && FirstBest(seen, i);
  }
}
