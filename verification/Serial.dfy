/** The one-at-a-time model: every action is a step on the committed database. */
module Serial {
  import opened Base
  import opened Money
  import opened Domain
  import opened Tables
  import opened Steps
  import opened Decisions

  /* ---- submissions and visits ---- */

  datatype Answer =
    | Replayed(stored: Transaction)
    | Refused(error: Error)
    | Settled(eff: Effect)

  /** The first rule that refuses, in the order the statements run. */
  ghost function Refusal(db: Db, eff: Effect, stamp: Stamp): Error {
    var rows, t := db.transactions, eff.row;
    if !eff.known && t.id in rows then Conflict(TransactionKey)
    else if !eff.known && exists id :: id in rows && SameBusiness(rows[id], t) then Conflict(BusinessIdentity)
    else if !eff.known && exists id :: id in rows && SameKey(rows[id], t) then Conflict(IdempotencyKeyRule)
    else if eff.move.Some? && eff.from.version == MAX_INT64 then InvariantViolated
    else if eff.move.Some? && !FreshEntry(db.ledger, eff.move.value.entry.id) then Conflict(LedgerKey)
    else Conflict(OutboxKey)
  }

  ghost function Guarded(db: Db, decided: Result<Effect>, stamp: Stamp): Answer {
    match decided
    case Err(e) => Refused(e)
    case Ok(eff) => if Fresh(db, eff, stamp) then Settled(eff) else Refused(Refusal(db, eff, stamp))
  }

  /** Answers from a stored operation, after checking that it is the same one. */
  function Replay(stored: Transaction, p: Request): Answer {
    if stored.payloadHash != p.payloadHash then Refused(Conflict(DifferentContent))
    else if stored.idempotencyKey != p.idempotencyKey then Refused(Conflict(DifferentKey))
    else Replayed(stored)
  }

  /** The new operation's row, or why it cannot be made, up to the wallet being read. */
  function NewRow(db: Db, p: Request, stamp: Stamp): Result<Transaction> {
    var row :- NewExternal(stamp.transactionId, p, stamp.now);
    if p.walletId !in db.wallets then Err(NotFound)
    else if db.wallets[p.walletId].playerId != p.playerId then Err(InvalidInput)
    else Ok(row)
  }

  ghost function Submit(policy: Policy, db: Db, parsed: Result<Request>, stamp: Stamp, jitter: nat): Answer
    requires Normalised(policy)
  {
    match parsed
    case Err(e) => Refused(e)
    case Ok(p) =>
      match FindByBusinessId(db.transactions, p.providerId, p.externalId)
      case Some(stored) => Replay(stored, p)
      case None =>
        match NewRow(db, p, stamp)
        case Err(e) => Refused(e)
        case Ok(row) =>
          Guarded(db, SettleSubmit(policy, row, db.wallets[p.walletId], Resolve(db.transactions, row), stamp, jitter),
                  stamp)
  }

  /** One visit to a claimed, parked row. */
  ghost function Visit(policy: Policy, db: Db, id: string, stamp: Stamp, jitter: nat): Answer
    requires Normalised(policy) && Claimable(db, id)
  {
    var row := db.transactions[id];
    Guarded(db, SettleVisit(policy, row, db.wallets[row.walletId], Resolve(db.transactions, row), stamp, jitter), stamp)
  }

  predicate Claimable(db: Db, id: string) {
    id in db.transactions && db.transactions[id].status.PendingReference? && db.transactions[id].walletId in db.wallets
  }

  ghost predicate Due(db: Db, id: string, now: Instant) {
    Claimable(db, id) && db.transactions[id].nextAttemptAt <= now
  }

  ghost function After(db: Db, a: Answer, stamp: Stamp): Db {
    if a.Settled? && |a.eff.events| <= 2 then Commit(db, a.eff, stamp) else db
  }

  /** An effect about the same operation and the same wallet as the row it started from. */
  predicate Follows(eff: Effect, row: Transaction, known: bool, from: Wallet) {
    eff.from == from && eff.known == known && eff.row.id == row.id && eff.row.walletId == row.walletId
    && eff.row.kind == row.kind
  }

  lemma RejectionFollows(row: Transaction, known: bool, from: Wallet, code: Code, at: Instant)
    ensures var r := RejectWith(row, known, from, code, at);
            r.Ok? ==> Follows(r.value, row, known, from) && r.value.move.None?
  {
    hide EventsOf;
  }

  lemma WaitingFollows(policy: Policy, row: Transaction, from: Wallet, at: Instant, jitter: nat)
    requires Normalised(policy)
    ensures var r := Park(policy, row, from, at, jitter);
            r.Ok? ==> Follows(r.value, row, false, from) && r.value.move.None?
    ensures var r := KeepWaiting(policy, row, from, at, jitter);
            r.Ok? ==> Follows(r.value, row, true, from) && r.value.move.None?
  {
    hide EventsOf, Window, NextAttemptAt;
    RejectionFollows(row, true, from, ReferenceNotFound, at);
  }

  lemma UndoFollows(row: Transaction, known: bool, from: Wallet, v: Verdict, entryId: string, at: Instant)
    requires v.Apply? && Undo(row, from, v, entryId, at).Ok?
    ensures var (t, m) := Undo(row, from, v, entryId, at).value;
            Follows(Finish(t, known, from, Some(m)), row, known, from) && t.resolvedReferenceId == v.reference.id
  {
    hide EventsOf, Move;
  }

  /** A verdict to apply means nobody has undone the reference. */
  lemma ReversalFollows(rows: Rows, row: Transaction, known: bool, from: Wallet, waiting: Result<Effect>,
                        entryId: string, at: Instant)
    requires waiting.Ok? ==> Follows(waiting.value, row, known, from) && waiting.value.move.None?
    ensures var r := SettleReversal(row, known, from, Resolve(rows, row), waiting, entryId, at);
            r.Ok? ==> Follows(r.value, row, known, from)
                      && (r.value.move.Some? ==> Unreversed(rows, r.value.row.resolvedReferenceId))
  {
    hide FindByBusinessId, Judge, Undo, RejectWith, Follows, Finish, Unreversed;
    match Resolve(rows, row)
    case Wait =>
    case Refuse(code) => RejectionFollows(row, known, from, code, at);
    case Apply(reference, direction) =>
      var v := Resolve(rows, row);
      var undone := Undo(row, from, v, entryId, at);
      if undone.Ok? {
        UndoFollows(row, known, from, v, entryId, at);
        FinishKeeps(undone.value.0, known, from, Some(undone.value.1));
      } else {
        UndoFailsByRule(row, from, v, entryId, at);
        RejectionFollows(row, known, from, undone.error.code, at);
      }
  }

  lemma FinishKeeps(t: Transaction, known: bool, from: Wallet, m: Option<Movement>)
    ensures Finish(t, known, from, m).row == t && Finish(t, known, from, m).move == m
  {
  }

  lemma SubmitFollows(policy: Policy, rows: Rows, row: Transaction, from: Wallet, stamp: Stamp, jitter: nat)
    requires Normalised(policy)
    ensures var r := SettleSubmit(policy, row, from, Resolve(rows, row), stamp, jitter);
            r.Ok? ==> Follows(r.value, row, false, from)
                      && (row.kind.IsReversal() && r.value.move.Some? ==>
                            Unreversed(rows, r.value.row.resolvedReferenceId))
  {
    hide Resolve, SettleReversal, Park, Unreversed;
    if row.kind.IsReversal() {
      WaitingFollows(policy, row, from, stamp.now, jitter);
      ReversalFollows(rows, row, false, from, Park(policy, row, from, stamp.now, jitter), stamp.entryId, stamp.now);
    } else {
      DirectFollows(row, from, stamp.entryId, stamp.now);
    }
  }

  lemma VisitFollows(policy: Policy, rows: Rows, row: Transaction, from: Wallet, stamp: Stamp, jitter: nat)
    requires Normalised(policy)
    ensures var r := SettleVisit(policy, row, from, Resolve(rows, row), stamp, jitter);
            r.Ok? ==> Follows(r.value, row, true, from)
                      && (r.value.move.Some? ==> Unreversed(rows, r.value.row.resolvedReferenceId))
  {
    hide Resolve, SettleReversal, KeepWaiting, Unreversed;
    WaitingFollows(policy, row, from, stamp.now, jitter);
    ReversalFollows(rows, row, true, from, KeepWaiting(policy, row, from, stamp.now, jitter), stamp.entryId, stamp.now);
  }

  lemma DirectFollows(row: Transaction, from: Wallet, entryId: string, at: Instant)
    ensures var r := SettleDirect(row, from, entryId, at);
            r.Ok? ==> Follows(r.value, row, false, from)
  {
    hide EventsOf, Move;
  }

  /** What a submission settles is sound where it was decided. */
  lemma SubmitIsSound(policy: Policy, db: Db, parsed: Result<Request>, stamp: Stamp, jitter: nat)
    requires Normalised(policy) && Inv(db)
    ensures var a := Submit(policy, db, parsed, stamp, jitter);
            a.Settled? ==> Sound(db, a.eff, stamp) && !a.eff.known && a.eff.row.walletId == parsed.value.walletId
                           && a.eff.row.id == stamp.transactionId
  {
    hide EventsOf, Proper, Resolve, SettleSubmit, SchemaAccepts, FindByBusinessId, LogComplete, BooksBalance, Fresh,
      ReversalsResolve, Unique, AllExplained, AllRecorded, PendingRow;
    var a := Submit(policy, db, parsed, stamp, jitter);
    if a.Settled? {
      var p := parsed.value;
      var row := NewRow(db, p, stamp).value;
      var from, v := db.wallets[p.walletId], Resolve(db.transactions, row);
      NewRowIsPending(stamp.transactionId, p, stamp.now, db.wallets);
      ResolveIsGrounded(db, row);
      ResolveHasCode(db.transactions, row);
      SubmitIsProper(policy, db, row, from, v, stamp, jitter);
      NewRowShape(stamp.transactionId, p, stamp.now);
      SubmitFollows(policy, db.transactions, row, from, stamp, jitter);
    }
  }

  lemma NewRowShape(id: string, p: Request, at: Instant)
    requires NewExternal(id, p, at).Ok?
    ensures var row := NewExternal(id, p, at).value;
            row.id == id && row.walletId == p.walletId && row.resolvedReferenceId == "" && row.kind == p.kind
            && IsBusiness(row, p.providerId, p.externalId) && row.payloadHash == p.payloadHash
            && row.idempotencyKey == p.idempotencyKey
  {
  }

  /** A request that makes no operation breaks a domain rule. */
  lemma NewRowFails(id: string, p: Request, at: Instant)
    ensures NewExternal(id, p, at).Err? ==> NewExternal(id, p, at).error.Domain?
  {
  }

  lemma ResolveHasCode(rows: Rows, row: Transaction)
    ensures NonZero(Resolve(rows, row))
  {
    VerdictHasCode(row, FindByBusinessId(rows, row.providerId, row.referenceExternalId));
  }

  lemma VisitIsSound(policy: Policy, db: Db, id: string, stamp: Stamp, jitter: nat)
    requires Normalised(policy) && Inv(db) && Claimable(db, id)
    ensures var a := Visit(policy, db, id, stamp, jitter);
            a.Settled? ==> Sound(db, a.eff, stamp) && a.eff.known && a.eff.row.id == id
                           && a.eff.row.walletId == db.transactions[id].walletId
  {
    hide EventsOf, Proper, Resolve, SettleVisit, SchemaAccepts, LogComplete, BooksBalance, Fresh, ReversalsResolve,
      Unique, AllExplained, AllRecorded;
    var a := Visit(policy, db, id, stamp, jitter);
    if a.Settled? {
      var row := db.transactions[id];
      var from, v := db.wallets[row.walletId], Resolve(db.transactions, row);
      assert RowFits(row, db.wallets) && row.kind.IsReversal();
      ResolveIsGrounded(db, row);
      ResolveHasCode(db.transactions, row);
      VisitIsProper(policy, db, row, from, v, stamp, jitter);
      VisitFollows(policy, db.transactions, row, from, stamp, jitter);
    }
  }
}
