/** Exactly-once effect: one row and at most one entry per operation, and stable replays. */
module ExactlyOnce {
  import opened Base
  import opened Domain
  import opened Commands
  import opened Tables
  import opened Steps
  import opened Decisions
  import opened Serial

  /** Two commands that are the same operation under the same key. */
  predicate SameSubmission(a: SubmitCommand, b: SubmitCommand) {
    SameFields(a, b) && SameAmount(a, b) && a.idempotencyKey == b.idempotencyKey
  }

  lemma FoundIsUnique(rows: Rows, id: string)
    requires Unique(rows) && id in rows && rows[id].origin.External?
    ensures FindByBusinessId(rows, rows[id].providerId, rows[id].externalId) == Some(rows[id])
  {
    var t := rows[id];
    var found := FindByBusinessId(rows, t.providerId, t.externalId);
    assert IsBusiness(rows[id], t.providerId, t.externalId);
    var other :| other in rows && rows[other] == found.value && IsBusiness(rows[other], t.providerId, t.externalId);
    assert SameBusiness(rows[other], rows[id]) && Clash(rows[other], rows[id]);
  }

  /** A business pair names at most one stored row. */
  lemma OneRowPerOperation(db: Db, a: string, b: string)
    requires Inv(db) && a in db.transactions && b in db.transactions
    requires db.transactions[a].origin.External? && SameBusiness(db.transactions[b], db.transactions[a])
    ensures a == b
  {
    hide LogComplete, BooksBalance, LedgerExplained, ReversalsResolve, RowFits;
    assert Clash(db.transactions[b], db.transactions[a]);
  }

  /** An operation has exactly one entry when it is processed and moves money, and none otherwise. */
  lemma OneEntryPerOperation(db: Db, id: string)
    requires Inv(db) && id in db.transactions
    ensures HasEntry(db.ledger, id) <==>
              db.transactions[id].status.Processed? && db.transactions[id].kind.MovesMoney()
    ensures forall i, j | 0 <= i < |db.ledger| && 0 <= j < |db.ledger| ::
              db.ledger[i].transactionId == id && db.ledger[j].transactionId == id ==> i == j
  {
    hide LogComplete, BooksBalance, ReversalsResolve, RowFits, Unique;
    if HasEntry(db.ledger, id) {
      var i :| 0 <= i < |db.ledger| && db.ledger[i].transactionId == id;
      assert Explains(db.transactions, db.ledger[i]);
    }
  }

  /** The row a settled submission leaves is found under the command's own pair. */
  lemma SettledRowIsTheCommands(policy: Policy, db: Db, command: SubmitCommand, stamp: Stamp, jitter: nat)
    requires Normalised(policy) && Inv(db)
    requires Submit(policy, db, Parse(command), stamp, jitter).Settled?
    ensures var row := Submit(policy, db, Parse(command), stamp, jitter).eff.row;
            && IsBusiness(row, command.providerId, command.externalId) && row.id == stamp.transactionId
            && row.payloadHash == PayloadHash(command) && row.idempotencyKey == command.idempotencyKey
            && command.providerId != ""
  {
    hide Inv, EventsOf, Resolve, PayloadHash, Fresh, SettleSubmit;
    var p := Parse(command).value;
    var row := NewRow(db, p, stamp).value;
    NewRowShape(stamp.transactionId, p, stamp.now);
    SubmitKeepsIdentity(policy, row, db.wallets[p.walletId], Resolve(db.transactions, row), stamp, jitter);
  }

  /** Whatever is decided, the columns that identify the operation stay as submitted. */
  lemma SubmitKeepsIdentity(policy: Policy, row: Transaction, from: Wallet, v: Verdict, stamp: Stamp, jitter: nat)
    requires Normalised(policy)
    ensures var r := SettleSubmit(policy, row, from, v, stamp, jitter);
            r.Ok? ==> r.value.row.Identity() == row.Identity()
  {
    hide EventsOf, Window, NextAttemptAt, Undo, SettleDirect, RejectWith, Park;
    if row.kind.IsReversal() {
      ParkKeepsIdentity(policy, row, from, stamp.now, jitter);
      match v
      case Wait =>
      case Refuse(code) => RejectKeepsIdentity(row, false, from, code, stamp.now);
      case Apply(_, _) =>
        UndoKeepsIdentity(row, from, v, stamp.entryId, stamp.now);
        var u := Undo(row, from, v, stamp.entryId, stamp.now);
        if u.Err? && u.error.Domain? { RejectKeepsIdentity(row, false, from, u.error.code, stamp.now); }
    } else {
      DirectKeepsIdentity(row, from, stamp.entryId, stamp.now);
    }
  }

  lemma RejectKeepsIdentity(row: Transaction, known: bool, from: Wallet, code: Code, at: Instant)
    ensures var r := RejectWith(row, known, from, code, at); r.Ok? ==> r.value.row.Identity() == row.Identity()
  {
    hide EventsOf;
  }

  lemma ParkKeepsIdentity(policy: Policy, row: Transaction, from: Wallet, at: Instant, jitter: nat)
    requires Normalised(policy)
    ensures var r := Park(policy, row, from, at, jitter); r.Ok? ==> r.value.row.Identity() == row.Identity()
  {
    hide EventsOf, Window, NextAttemptAt;
  }

  lemma UndoKeepsIdentity(row: Transaction, from: Wallet, v: Verdict, entryId: string, at: Instant)
    requires v.Apply?
    ensures var u := Undo(row, from, v, entryId, at); u.Ok? ==> u.value.0.Identity() == row.Identity()
  {
    hide Move;
  }

  lemma DirectKeepsIdentity(row: Transaction, from: Wallet, entryId: string, at: Instant)
    ensures var r := SettleDirect(row, from, entryId, at); r.Ok? ==> r.value.row.Identity() == row.Identity()
  {
    hide Move, EventsOf, RejectWith;
    if row.kind.MovesMoney() {
      var m := Move(from, if row.kind.Bet? then Debit else Credit, entryId, row.id, row.money, at);
      if m.Err? && m.error.Domain? { RejectKeepsIdentity(row, false, from, m.error.code, at); }
    }
  }

  /** The answer to any command that names a stored operation, whoever sends it and whenever. */
  lemma StoredOperationAnswers(policy: Policy, db: Db, id: string, original: SubmitCommand, again: SubmitCommand,
                               stamp: Stamp, jitter: nat)
    requires Normalised(policy) && Inv(db) && id in db.transactions
    requires IsBusiness(db.transactions[id], again.providerId, again.externalId)
    requires db.transactions[id].payloadHash == PayloadHash(original)
    requires db.transactions[id].idempotencyKey == original.idempotencyKey
    ensures var a := Submit(policy, db, Parse(again), stamp, jitter);
            && After(db, a, stamp) == db
            && (Parse(again).Ok? ==>
                  if SameSubmission(original, again) then a == Replayed(db.transactions[id])
                  else a.Refused? && a.error.Conflict?)
  {
    hide LogComplete, BooksBalance, LedgerExplained, ReversalsResolve, RowFits, PayloadHash;
    FoundIsUnique(db.transactions, id);
    HashIdentifiesContent(original, again);
  }

  lemma IdentityKeeps(a: Transaction, b: Transaction)
    requires a.Identity() == b.Identity()
    ensures a.origin == b.origin && a.providerId == b.providerId && a.externalId == b.externalId
            && a.payloadHash == b.payloadHash && a.idempotencyKey == b.idempotencyKey && a.id == b.id
            && a.walletId == b.walletId && a.kind == b.kind && a.money == b.money
  {
    assert a.Identity().origin == a.origin && b.Identity().origin == b.origin;
    assert a.Identity().providerId == a.providerId && b.Identity().providerId == b.providerId;
    assert a.Identity().externalId == a.externalId && b.Identity().externalId == b.externalId;
    assert a.Identity().payloadHash == a.payloadHash && b.Identity().payloadHash == b.payloadHash;
    assert a.Identity().idempotencyKey == a.idempotencyKey && b.Identity().idempotencyKey == b.idempotencyKey;
    assert a.Identity().id == a.id && b.Identity().id == b.id;
    assert a.Identity().walletId == a.walletId && b.Identity().walletId == b.walletId;
    assert a.Identity().kind == a.kind && b.Identity().kind == b.kind;
    assert a.Identity().money == a.money && b.Identity().money == b.money;
  }
}
