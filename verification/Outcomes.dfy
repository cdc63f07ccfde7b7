/**
 * What an operation comes to, case by case: which are processed and for how much, which
 * are refused and under what code, which wait and until when. Written out in full here,
 * and proved of what the decisions settle.
 */
module Outcomes {
  import opened Base
  import opened Money
  import opened Domain
  import opened Tables
  import opened Steps
  import opened Decisions
  import opened Serial
  import opened ExactlyOnce
  import opened Waits

  /* ---- the table ---- */

  /** An operation waits, is refused under a code, or is done and leaves this balance. */
  datatype Ending = OnHold | RefusedUnder(code: Code) | Leaving(balance: int)

  const LARGEST := 9_223_372_036_854_775_807

  /** A bet takes what the wallet holds, a win adds what fits, a loss changes nothing. */
  function DirectEnding(kind: Kind, amount: Money, balance: Money): Ending {
    if amount.currency != balance.currency then RefusedUnder(CurrencyMismatch)
    else
      match kind
      case Bet =>
        if amount.minor <= balance.minor then Leaving(balance.minor - amount.minor) else RefusedUnder(InsufficientFunds)
      case Win =>
        if balance.minor + amount.minor <= LARGEST then Leaving(balance.minor + amount.minor)
        else RefusedUnder(AmountOverflow)
      case _ => Leaving(balance.minor)
  }

  /** A refund undoes a bet; a rollback undoes a bet, a win or a refund. */
  predicate MayUndo(kind: Kind, target: Kind) {
    match kind
    case Refund => target.Bet?
    case Rollback => target.Bet? || target.Win? || target.Refund?
    case _ => false
  }

  /**
   * A reversal of this reference, if one is stored, from this balance. Undoing a bet pays
   * back; undoing a win or a refund takes back.
   */
  function ReversalEnding(t: Transaction, reference: Option<Transaction>, undone: bool, balance: Money): Ending {
    match reference
    case None => OnHold
    case Some(f) =>
      match f.status
      case Pending | PendingReference => OnHold
      case Rejected | Failed => RefusedUnder(ReferenceNotReversible)
      case Processed =>
        if !MayUndo(t.kind, f.kind) then RefusedUnder(ReferenceNotReversible)
        else if t.playerId != f.playerId || t.walletId != f.walletId || t.roundId != f.roundId
                || t.money.currency != f.money.currency
        then RefusedUnder(ReferenceMismatch)
        else if t.money.minor != f.money.minor then RefusedUnder(ReferenceAmountMismatch)
        else if undone then RefusedUnder(AlreadyReversed)
        else if f.kind.Bet? then
          if balance.minor + t.money.minor <= LARGEST then Leaving(balance.minor + t.money.minor)
          else RefusedUnder(AmountOverflow)
        else if t.money.minor <= balance.minor then Leaving(balance.minor - t.money.minor)
        else RefusedUnder(ReversalExceedsBalance)
  }

  /** The stored operation with this pair, if there is one. */
  ghost predicate IsTheReference(rows: Rows, provider: string, external: string, reference: Option<Transaction>) {
    match reference
    case None =>
      forall id :: id in rows ==>
        !(rows[id].origin.External? && rows[id].providerId == provider && rows[id].externalId == external)
    case Some(f) =>
      f.id in rows && rows[f.id] == f && f.origin.External? && f.providerId == provider && f.externalId == external
  }

  /** A processed operation has undone it. */
  ghost predicate IsUndone(rows: Rows, reference: Option<Transaction>) {
    reference.Some? &&
    exists id :: id in rows && rows[id].status.Processed? && rows[id].resolvedReferenceId == reference.value.id
  }

  /* ---- what an ending writes ---- */

  /** The operation is processed from this wallet, and its entry says by how much the balance changed. */
  ghost predicate Pays(eff: Effect, t: Transaction, from: Wallet, resolved: string, balance: int64, entryId: string,
                       at: Instant) {
    var left := Money(balance, from.balance.currency);
    && eff.row == t.(status := Processed, resolvedReferenceId := resolved, balanceAfter := left, updatedAt := at)
    && eff.move
       == Some(Movement(from.(balance := left, version := Wrap64(from.version + 1), updatedAt := at),
                        Entry(entryId, from.id, t.id, if balance < from.balance.minor then Debit else Credit, t.money,
                              from.balance, left, at)))
    && eff.Balance() == left
  }

  /** The row alone is written, and the balance told is the one read. */
  predicate WritesRow(eff: Effect, row: Transaction, from: Wallet) {
    eff.row == row && eff.move.None? && eff.from == from && eff.Balance() == from.balance
  }

  ghost predicate EndsAs(eff: Effect, t: Transaction, from: Wallet, e: Ending, resolved: string, entryId: string,
                         at: Instant) {
    match e
    case OnHold => false
    case RefusedUnder(code) => WritesRow(eff, t.(status := Rejected, failureCode := code, updatedAt := at), from)
    case Leaving(balance) =>
      if t.kind.Loss? then
        balance == from.balance.minor
        && WritesRow(eff, t.(status := Processed, balanceAfter := from.balance, updatedAt := at), from)
      else
        InInt64(balance) && balance != from.balance.minor && Pays(eff, t, from, resolved, balance, entryId, at)
  }

  /* ---- direct operations ---- */

  lemma DirectComesTo(t: Transaction, from: Wallet, entryId: string, at: Instant)
    requires t.kind.Bet? || t.kind.Win? || t.kind.Loss?
    requires t.id != "" && t.status.Pending? && at != 0 && entryId != "" && SoundWallet(from)
    requires t.money.IsInitialised() && (if t.kind.Loss? then t.money.minor == 0 else 0 < t.money.minor)
    requires t.resolvedReferenceId == ""
    requires SettleDirect(t, from, entryId, at).Ok?
    ensures EndsAs(SettleDirect(t, from, entryId, at).value, t, from, DirectEnding(t.kind, t.money, from.balance), "",
                   entryId, at)
  {
    hide EventsOf;
  }

  /* ---- reversals ---- */

  lemma JudgedByTable(t: Transaction, reference: Option<Transaction>, balance: Money)
    requires t.kind.Refund? || t.kind.Rollback?
    ensures var v := Judge(t, reference);
            var e := ReversalEnding(t, reference, false, balance);
            && (v.Wait? <==> e.OnHold?) && (v.Wait? ==> ReversalEnding(t, reference, true, balance).OnHold?)
            && (v.Refuse? ==> e == RefusedUnder(v.code) && ReversalEnding(t, reference, true, balance) == e)
            && (v.Apply? ==>
                  && reference == Some(v.reference) && t.money == v.reference.money
                  && ReversalEnding(t, reference, true, balance) == RefusedUnder(AlreadyReversed)
                  && v.direction == (if v.reference.kind.Bet? then Credit else Debit)
                  && e == (if v.reference.kind.Bet? then
                             if balance.minor + t.money.minor <= LARGEST then Leaving(balance.minor + t.money.minor)
                             else RefusedUnder(AmountOverflow)
                           else if t.money.minor <= balance.minor then Leaving(balance.minor - t.money.minor)
                           else RefusedUnder(ReversalExceedsBalance)))
  {
  }

  /** Moving the money back and marking the row, or the code it is refused under. */
  lemma UndoneByTable(t: Transaction, from: Wallet, v: Verdict, entryId: string, at: Instant, known: bool)
    requires v.Apply? && v.reference.id != "" && SoundWallet(from) && (t.kind.Refund? || t.kind.Rollback?)
    requires t.id != "" && !t.status.IsTerminal() && at != 0 && entryId != ""
    requires t.money.currency == from.balance.currency && 0 < t.money.minor
    ensures var left := from.balance.minor + if v.direction.Credit? then t.money.minor else -t.money.minor;
            var u := Undo(t, from, v, entryId, at);
            if 0 <= left <= LARGEST
            then u.Ok? && Pays(Finish(u.value.0, known, from, Some(u.value.1)), t, from, v.reference.id, left, entryId,
                               at)
            else u == Err(Domain(if v.direction.Credit? then AmountOverflow else ReversalExceedsBalance))
  {
    hide EventsOf;
  }

  lemma AppliedComesTo(t: Transaction, known: bool, from: Wallet, v: Verdict, waiting: Result<Effect>, entryId: string,
                       at: Instant, e: Ending)
    requires v.Apply? && v.reference.id != "" && SoundWallet(from) && (t.kind.Refund? || t.kind.Rollback?)
    requires t.id != "" && !t.status.IsTerminal() && at != 0 && entryId != ""
    requires t.money.currency == from.balance.currency && 0 < t.money.minor
    requires e == (if v.direction.Credit? then
                     if from.balance.minor + t.money.minor <= LARGEST then Leaving(from.balance.minor + t.money.minor)
                     else RefusedUnder(AmountOverflow)
                   else if t.money.minor <= from.balance.minor then Leaving(from.balance.minor - t.money.minor)
                   else RefusedUnder(ReversalExceedsBalance))
    ensures var r := SettleReversal(t, known, from, v, waiting, entryId, at);
            r.Ok? && EndsAs(r.value, t, from, e, if e.Leaving? then v.reference.id else "", entryId, at)
  {
    hide EventsOf, Undo, Pays;
    UndoneByTable(t, from, v, entryId, at, known);
  }

  lemma RefusedComesTo(t: Transaction, known: bool, from: Wallet, code: Code, waiting: Result<Effect>, entryId: string,
                       at: Instant)
    requires t.id != "" && !t.status.IsTerminal() && at != 0 && code != NoCode
    ensures var r := SettleReversal(t, known, from, Refuse(code), waiting, entryId, at);
            r.Ok? && EndsAs(r.value, t, from, RefusedUnder(code), "", entryId, at)
  {
    hide EventsOf;
  }

  /** What looking the reference up comes to. */
  lemma ResolvedByTable(rows: Rows, t: Transaction, reference: Option<Transaction>)
    requires Unique(rows) && IsTheReference(rows, t.providerId, t.referenceExternalId, reference)
    requires forall id :: id in rows ==> rows[id].id == id && id != ""
    ensures FindByBusinessId(rows, t.providerId, t.referenceExternalId) == reference
    ensures var v := Judge(t, reference);
            Resolve(rows, t) == if v.Apply? && IsUndone(rows, reference) then Refuse(AlreadyReversed) else v
  {
    hide Judge;
    if reference.Some? {
      FoundIsUnique(rows, reference.value.id);
    }
    UndoneIsReversed(rows, reference);
    JudgeApplies(t, reference);
  }

  lemma UndoneIsReversed(rows: Rows, reference: Option<Transaction>)
    requires reference.Some? ==> reference.value.id != ""
    ensures reference.Some? ==> (IsUndone(rows, reference) <==> !Unreversed(rows, reference.value.id))
  {
  }

  lemma JudgeApplies(t: Transaction, reference: Option<Transaction>)
    ensures Judge(t, reference).Apply? ==> reference == Some(Judge(t, reference).reference)
  {
  }

  ghost function Expected(rows: Rows, t: Transaction, reference: Option<Transaction>, balance: Money): Ending {
    ReversalEnding(t, reference, IsUndone(rows, reference), balance)
  }

  function Resolved(e: Ending, reference: Option<Transaction>): string {
    if e.Leaving? && reference.Some? then reference.value.id else ""
  }

  lemma ReversalComesTo(rows: Rows, t: Transaction, known: bool, from: Wallet, waiting: Result<Effect>,
                        reference: Option<Transaction>, entryId: string, at: Instant)
    requires Unique(rows) && IsTheReference(rows, t.providerId, t.referenceExternalId, reference)
    requires forall id :: id in rows ==> rows[id].id == id && id != ""
    requires (t.kind.Refund? || t.kind.Rollback?) && t.id != "" && !t.status.IsTerminal() && at != 0 && entryId != ""
    requires SoundWallet(from) && 0 < t.money.minor
    requires Judge(t, reference).Apply? ==> t.money.currency == from.balance.currency
    ensures var e, r := Expected(rows, t, reference, from.balance),
                        SettleReversal(t, known, from, Resolve(rows, t), waiting, entryId, at);
            if e.OnHold? then r == waiting
            else r.Ok? && EndsAs(r.value, t, from, e, Resolved(e, reference), entryId, at)
  {
    hide Judge, Resolve, EndsAs, IsUndone, IsTheReference, Undo, RejectWith, ReversalEnding;
    ResolvedByTable(rows, t, reference);
    JudgedByTable(t, reference, from.balance);
    JudgeHasCode(t, reference);
    NameGiven(rows, t, reference);
    var e, v := Expected(rows, t, reference, from.balance), Resolve(rows, t);
    match v
    case Wait =>
    case Refuse(code) => RefusedComesTo(t, known, from, code, waiting, entryId, at);
    case Apply(f, d) => AppliedComesTo(t, known, from, v, waiting, entryId, at, e);
  }

  lemma JudgeHasCode(t: Transaction, reference: Option<Transaction>)
    ensures Judge(t, reference).Refuse? ==> Judge(t, reference).code != NoCode
  {
  }

  lemma NameGiven(rows: Rows, t: Transaction, reference: Option<Transaction>)
    requires IsTheReference(rows, t.providerId, t.referenceExternalId, reference)
    requires forall id :: id in rows ==> rows[id].id == id && id != ""
    ensures reference.Some? ==> reference.value.id != ""
    ensures Judge(t, reference).Apply? ==> Judge(t, reference).reference.id != ""
  {
  }

  /* ---- on a sound database ---- */

  lemma RowsAreNamed(db: Db)
    requires Inv(db)
    ensures Unique(db.transactions) && forall id :: id in db.transactions ==> db.transactions[id].id == id && id != ""
  {
    hide BooksBalance, LogComplete, LedgerExplained, ReversalsResolve, SchemaAccepts, StatusFits;
    forall id | id in db.transactions
      ensures db.transactions[id].id == id && id != ""
    {
      assert RowFits(db.transactions[id], db.wallets);
    }
  }

  /** What a processed bet, win or refund moved, it moved in its wallet's currency. */
  lemma MovedInCurrency(db: Db, id: string)
    requires Inv(db) && id in db.transactions && db.transactions[id].status.Processed?
    requires db.transactions[id].kind.MovesMoney()
    ensures db.transactions[id].walletId in db.wallets
    ensures db.transactions[id].money.currency == db.wallets[db.transactions[id].walletId].balance.currency
  {
    hide LogComplete, ReversalsResolve, Unique, SchemaAccepts, StatusFits, DirectionOf;
    var t := db.transactions[id];
    assert RowFits(t, db.wallets);
    var k :| 0 <= k < |db.ledger| && db.ledger[k].transactionId == id;
    assert Explains(db.transactions, db.ledger[k]);
    EntryInCurrency(db, k);
  }

  lemma EntryInCurrency(db: Db, k: nat)
    requires Inv(db) && k < |db.ledger| && db.ledger[k].walletId in db.wallets
    ensures db.ledger[k].amount.currency == db.wallets[db.ledger[k].walletId].balance.currency
  {
    hide LogComplete, ReversalsResolve, Unique, RowFits, LedgerExplained, OpeningOnlyFirst;
    var w := db.wallets[db.ledger[k].walletId];
    var es := EntriesOf(db.ledger, w.id);
    LedgerEntriesAreListed(db.ledger, k);
    assert BooksBalance(db, w) && w.id == db.ledger[k].walletId;
    var i: nat :| i < |es| && es[i] == db.ledger[k];
    assert Linked(es, i, w.balance.currency);
  }

  /** A reference that can be applied is on the reversal's wallet, in its currency. */
  lemma AppliedCurrency(db: Db, t: Transaction, reference: Option<Transaction>)
    requires Inv(db) && IsTheReference(db.transactions, t.providerId, t.referenceExternalId, reference)
    requires t.kind.Refund? || t.kind.Rollback?
    ensures Judge(t, reference).Apply? ==>
              t.walletId in db.wallets && t.money.currency == db.wallets[t.walletId].balance.currency
  {
    hide Inv;
    if Judge(t, reference).Apply? { MovedInCurrency(db, reference.value.id); }
  }

  /* ---- what a submission comes to ---- */

  /** The operation as the request describes it, before anything is decided. */
  function Submitted(p: Request, stamp: Stamp): Transaction {
    Transaction(stamp.transactionId, External, p.kind, Status.Pending, p.walletId, p.playerId, p.money, p.providerId,
                p.externalId, p.idempotencyKey, p.payloadHash, p.roundId, p.gameId, p.referenceExternalId, "", NoCode,
                0, 0, 0, UNSET, stamp.now, stamp.now)
  }

  /** One whose reference cannot be used yet waits until now plus the policy's time to live, at its first attempt. */
  predicate Parked(policy: Policy, eff: Effect, t: Transaction, from: Wallet, at: Instant) {
    && WritesRow(eff, t.(status := PendingReference, attempts := 1, nextAttemptAt := eff.row.nextAttemptAt,
                         deadlineAt := at + policy.ttl, updatedAt := at), from)
    && at + policy.baseBackoff / 2 <= eff.row.nextAttemptAt <= at + policy.baseBackoff
  }

  lemma ParkedByTable(policy: Policy, t: Transaction, from: Wallet, at: Instant, jitter: nat)
    requires Normalised(policy) && t.attempts == 0 && Park(policy, t, from, at, jitter).Ok?
    ensures Parked(policy, Park(policy, t, from, at, jitter).value, t, from, at)
  {
    hide EventsOf;
    FirstWindow(policy);
  }

  lemma FirstWindow(policy: Policy)
    requires Normalised(policy)
    ensures Window(policy, 1) == policy.baseBackoff
  {
    assert Doubled(0) == 1;
  }

  lemma NewRowIs(db: Db, p: Request, stamp: Stamp)
    requires NewRow(db, p, stamp).Ok?
    ensures NewRow(db, p, stamp) == Ok(Submitted(p, stamp)) && p.walletId in db.wallets
    ensures stamp.transactionId != "" && stamp.now != 0 && !p.kind.OpeningCredit? && p.money.IsInitialised()
    ensures if p.kind.Loss? then p.money.minor == 0 else 0 < p.money.minor
  {
  }

  /** What is read before a decision, on a sound database. */
  lemma WalletIs(db: Db, wallet: string)
    requires Inv(db) && wallet in db.wallets
    ensures SoundWallet(db.wallets[wallet]) && db.wallets[wallet].id == wallet
  {
  }

  /**
   * A bet, a win or a loss that is settled ends as the table says: processed, leaving
   * the balance less or plus its amount or as it was, or refused under its one code.
   */
  lemma DirectSubmission(policy: Policy, db: Db, p: Request, stamp: Stamp, jitter: nat)
    requires Normalised(policy) && Inv(db) && stamp.entryId != "" && (p.kind.Bet? || p.kind.Win? || p.kind.Loss?)
    requires Submit(policy, db, Ok(p), stamp, jitter).Settled?
    ensures p.walletId in db.wallets
    ensures var from := db.wallets[p.walletId];
            EndsAs(Submit(policy, db, Ok(p), stamp, jitter).eff, Submitted(p, stamp), from,
                   DirectEnding(p.kind, p.money, from.balance), "", stamp.entryId, stamp.now)
  {
    hide Inv, FindByBusinessId, NewRow, Resolve, SettleDirect, SettleReversal, EndsAs, Fresh, Refusal;
    NewRowIs(db, p, stamp);
    WalletIs(db, p.walletId);
    DirectComesTo(Submitted(p, stamp), db.wallets[p.walletId], stamp.entryId, stamp.now);
  }

  /**
   * A refund or a rollback that is settled ends as the table says of the operation stored
   * under the pair it names, or waits for it.
   */
  lemma ReversalSubmission(policy: Policy, db: Db, p: Request, stamp: Stamp, jitter: nat,
                           reference: Option<Transaction>)
    requires Normalised(policy) && Inv(db) && stamp.entryId != "" && (p.kind.Refund? || p.kind.Rollback?)
    requires Submit(policy, db, Ok(p), stamp, jitter).Settled?
    requires IsTheReference(db.transactions, p.providerId, p.referenceExternalId, reference)
    ensures p.walletId in db.wallets
    ensures var from, t := db.wallets[p.walletId], Submitted(p, stamp);
            var eff := Submit(policy, db, Ok(p), stamp, jitter).eff;
            var e := ReversalEnding(t, reference, IsUndone(db.transactions, reference), from.balance);
            if e.OnHold? then Parked(policy, eff, t, from, stamp.now)
            else EndsAs(eff, t, from, e, Resolved(e, reference), stamp.entryId, stamp.now)
  {
    hide Inv, FindByBusinessId, NewRow, Resolve, SettleDirect, SettleReversal, EndsAs, Fresh, Refusal, Park,
      IsTheReference, Judge, ReversalEnding, Parked;
    NewRowIs(db, p, stamp);
    var t, from := Submitted(p, stamp), db.wallets[p.walletId];
    WalletIs(db, p.walletId);
    RowsAreNamed(db);
    AppliedCurrency(db, t, reference);
    var waiting := Park(policy, t, from, stamp.now, jitter);
    ReversalComesTo(db.transactions, t, false, from, waiting, reference, stamp.entryId, stamp.now);
    if waiting.Ok? { ParkedByTable(policy, t, from, stamp.now, jitter); }
  }

  /* ---- what a visit comes to ---- */

  /** The longest a reversal waits after its n-th visit: the base doubled n times, at most sixteen, and capped. */
  function Backoff(policy: Policy, n: nat): int {
    var doubled := policy.baseBackoff * Doubled(if n < 16 then n else 16);
    if doubled > policy.maxBackoff then policy.maxBackoff else doubled
  }

  /** Sixteen doublings of the base still fit 64 bits, as they do for any base under a day and a half. */
  predicate Unwrapped(policy: Policy) { policy.baseBackoff * 65_536 <= LARGEST }

  lemma SixteenDoublings()
    ensures Doubled(16) == 65_536
  {
    assert Doubled(4) == 16;
    assert Doubled(8) == 256;
    assert Doubled(12) == 4_096;
  }

  lemma BackoffIsTheWindow(policy: Policy, n: nat)
    requires Normalised(policy) && Unwrapped(policy)
    ensures Window(policy, n + 1) == Backoff(policy, n)
  {
    SixteenDoublings();
    hide Doubled;
    var k := if n < 16 then n else 16;
    ShiftedBounds(policy.baseBackoff, k, 16);
    WindowIs(policy, n + 1);
  }

  /** It waits on: one attempt more, the same deadline, and a wait between half the backoff and all of it. */
  predicate WaitsOn(policy: Policy, eff: Effect, t: Transaction, from: Wallet, at: Instant) {
    && WritesRow(eff, t.(attempts := t.attempts + 1, nextAttemptAt := eff.row.nextAttemptAt, updatedAt := at), from)
    && at <= eff.row.nextAttemptAt <= at + policy.maxBackoff
    && (Unwrapped(policy) ==>
          at + Backoff(policy, t.attempts) / 2 <= eff.row.nextAttemptAt <= at + Backoff(policy, t.attempts))
  }

  /** It has waited as long, or as often, as it may. */
  predicate IsOver(policy: Policy, t: Transaction, at: Instant) {
    t.deadlineAt <= at || policy.maxAttempts <= t.attempts
  }

  lemma WaitingByTable(policy: Policy, t: Transaction, from: Wallet, at: Instant, jitter: nat)
    requires Normalised(policy) && t.id != "" && t.status.PendingReference? && t.deadlineAt != 0 && at != 0
    requires KeepWaiting(policy, t, from, at, jitter).Ok?
    ensures var eff := KeepWaiting(policy, t, from, at, jitter).value;
            if IsOver(policy, t, at)
            then WritesRow(eff, t.(status := Rejected, failureCode := ReferenceNotFound, updatedAt := at), from)
            else WaitsOn(policy, eff, t, from, at)
  {
    hide EventsOf, Window, Backoff;
    WindowIsPositive(policy, t.attempts + 1);
    if Unwrapped(policy) { BackoffIsTheWindow(policy, t.attempts); }
  }

  /** What is stored of a claimed reversal. */
  lemma ClaimedIs(db: Db, id: string)
    requires Inv(db) && Claimable(db, id)
    ensures var t := db.transactions[id];
            && t.id == id && id != "" && (t.kind.Refund? || t.kind.Rollback?) && 0 < t.money.minor
            && t.status.PendingReference? && t.deadlineAt != 0 && t.resolvedReferenceId == "" && t.failureCode == NoCode
            && t.balanceAfter == UNSET
  {
    hide BooksBalance, LogComplete, LedgerExplained, ReversalsResolve, Unique;
    assert RowFits(db.transactions[id], db.wallets);
  }

  /**
   * A visit ends the reversal as the table says of the operation stored by then under the
   * pair it names. While that cannot be used it gives the reversal up, as not found, iff
   * the deadline has passed or the attempts are used up, and otherwise waits on.
   */
  lemma VisitComesTo(policy: Policy, db: Db, id: string, stamp: Stamp, jitter: nat, reference: Option<Transaction>)
    requires Normalised(policy) && Inv(db) && Claimable(db, id) && stamp.now != 0 && stamp.entryId != ""
    requires Visit(policy, db, id, stamp, jitter).Settled?
    requires IsTheReference(db.transactions, db.transactions[id].providerId, db.transactions[id].referenceExternalId,
                            reference)
    ensures var t, eff := db.transactions[id], Visit(policy, db, id, stamp, jitter).eff;
            var from := db.wallets[t.walletId];
            var e := ReversalEnding(t, reference, IsUndone(db.transactions, reference), from.balance);
            if !e.OnHold? then EndsAs(eff, t, from, e, Resolved(e, reference), stamp.entryId, stamp.now)
            else if IsOver(policy, t, stamp.now)
            then WritesRow(eff, t.(status := Rejected, failureCode := ReferenceNotFound, updatedAt := stamp.now), from)
            else WaitsOn(policy, eff, t, from, stamp.now)
  {
    hide Inv, FindByBusinessId, Resolve, SettleReversal, EndsAs, Fresh, Refusal, KeepWaiting, IsTheReference, Judge,
      ReversalEnding, WaitsOn;
    var t := db.transactions[id];
    var from := db.wallets[t.walletId];
    ClaimedIs(db, id);
    WalletIs(db, t.walletId);
    RowsAreNamed(db);
    AppliedCurrency(db, t, reference);
    var waiting := KeepWaiting(policy, t, from, stamp.now, jitter);
    ReversalComesTo(db.transactions, t, true, from, waiting, reference, stamp.entryId, stamp.now);
    if waiting.Ok? { WaitingByTable(policy, t, from, stamp.now, jitter); }
  }

  /* ---- opposite entries ---- */

  /** What a processed reversal adds to the balance is what its reference took from it, and the other way round. */
  lemma ReversalIsOpposite(db: Db, eff: Effect, t: Transaction, f: Transaction, balance: int64, entryId: string,
                           at: Instant, k: nat)
    requires Inv(db) && t.walletId in db.wallets && Pays(eff, t, db.wallets[t.walletId], f.id, balance, entryId, at)
    requires ReversalEnding(t, Some(f), false, db.wallets[t.walletId].balance) == Leaving(balance)
    requires 0 < t.money.minor && k < |db.ledger| && db.ledger[k].transactionId == f.id
    requires f.id in db.transactions && db.transactions[f.id] == f
    ensures eff.move.value.entry.Signed() == -db.ledger[k].Signed()
    ensures balance as int == db.wallets[t.walletId].balance.minor - db.ledger[k].Signed()
  {
    hide LogComplete, BooksBalance, ReversalsResolve, Unique, RowFits;
    assert Explains(db.transactions, db.ledger[k]);
  }

  /* ---- what is stored of it ---- */

  predicate Tells(f: TransactionFact, t: Transaction) {
    && f.transactionId == t.id && f.kind == t.kind && f.status == t.status && f.walletId == t.walletId
    && f.playerId == t.playerId && f.money == t.money && f.providerId == t.providerId && f.externalId == t.externalId
    && f.roundId == t.roundId && f.gameId == t.gameId && f.failureCode == t.failureCode
    && f.balanceAfter == (if t.balanceAfter == UNSET then None else Some(t.balanceAfter))
  }

  /** To be published from now on, for the first time. */
  predicate IsNew(row: OutboxRow, id: string, now: Instant) {
    row.eventId == id && row.attempts == 0 && row.publishedAt == 0 && row.nextAttemptAt == now
  }

  predicate TellsMove(e: Event, m: Movement) {
    && e.BalanceChanged? && e.walletId == m.wallet.id && e.transactionId == m.entry.transactionId
    && e.direction == m.entry.direction && e.amount == m.entry.amount && e.before == m.entry.before
    && e.after == m.entry.after && e.walletVersion == m.wallet.version && e.occurredAt == m.entry.createdAt
  }

  /** The events of an ending, in their order; a wait that goes on has none. */
  predicate Announces(news: seq<OutboxRow>, eff: Effect, stamp: Stamp) {
    var t := eff.row;
    match t.status
    case Processed =>
      && |news| == (if eff.move.Some? then 2 else 1) && IsNew(news[0], stamp.firstEvent, stamp.now)
      && news[0].event.TransactionProcessed? && Tells(news[0].event.fact, t) && news[0].event.occurredAt == t.updatedAt
      && (eff.move.Some? ==> IsNew(news[1], stamp.secondEvent, stamp.now) && TellsMove(news[1].event, eff.move.value))
    case Rejected =>
      && |news| == 1 && IsNew(news[0], stamp.firstEvent, stamp.now)
      && news[0].event.TransactionRejected? && Tells(news[0].event.fact, t) && news[0].event.occurredAt == t.updatedAt
    case PendingReference =>
      if eff.known then news == []
      else
        && |news| == 1 && IsNew(news[0], stamp.firstEvent, stamp.now)
        && news[0].event.TransactionPendingReference? && Tells(news[0].event.fact, t)
        && news[0].event.referenceExternalId == t.referenceExternalId && news[0].event.attempts == t.attempts
        && news[0].event.deadlineAt == t.deadlineAt && news[0].event.occurredAt == t.updatedAt
    case _ => false
  }

  /** The row, the balance and the entry if money moved, the events, and nothing else. */
  ghost predicate IsStored(db: Db, after: Db, eff: Effect, stamp: Stamp) {
    && after.transactions == db.transactions[eff.row.id := eff.row] && after.inbox == db.inbox
    && (match eff.move
        case None => after.wallets == db.wallets && after.ledger == db.ledger
        case Some(m) =>
          after.wallets == db.wallets[eff.row.walletId := m.wallet] && after.ledger == db.ledger + [m.entry])
    && db.outbox <= after.outbox && Announces(after.outbox[|db.outbox|..], eff, stamp)
  }

  lemma SoundIsStored(db: Db, eff: Effect, stamp: Stamp)
    requires Sound(db, eff, stamp)
    ensures |eff.events| <= 2 && IsStored(db, Commit(db, eff, stamp), eff, stamp)
  {
    hide SchemaAccepts, Current, Fresh, DirectionOf, RowAdvances;
  }

  lemma SubmissionIsStored(policy: Policy, db: Db, p: Request, stamp: Stamp, jitter: nat)
    requires Normalised(policy) && Inv(db) && Submit(policy, db, Ok(p), stamp, jitter).Settled?
    ensures var a := Submit(policy, db, Ok(p), stamp, jitter);
            IsStored(db, After(db, a, stamp), a.eff, stamp) && !a.eff.known
  {
    hide Inv, Submit, Sound, IsStored;
    SubmitIsSound(policy, db, Ok(p), stamp, jitter);
    SoundIsStored(db, Submit(policy, db, Ok(p), stamp, jitter).eff, stamp);
  }

  lemma VisitIsStored(policy: Policy, db: Db, id: string, stamp: Stamp, jitter: nat)
    requires Normalised(policy) && Inv(db) && Claimable(db, id) && Visit(policy, db, id, stamp, jitter).Settled?
    ensures var a := Visit(policy, db, id, stamp, jitter);
            IsStored(db, After(db, a, stamp), a.eff, stamp) && a.eff.known
  {
    hide Inv, Visit, Sound, IsStored;
    VisitIsSound(policy, db, id, stamp, jitter);
    SoundIsStored(db, Visit(policy, db, id, stamp, jitter).eff, stamp);
  }

  /* ---- what keeps a new operation from being recorded at all ---- */

  /** The first thing wrong with a request. */
  function Malformed(p: Request, stamp: Stamp): Option<Code> {
    if p.kind.OpeningCredit? then Some(InvalidKind)
    else if stamp.transactionId == "" || p.providerId == "" || p.externalId == "" || p.idempotencyKey == ""
            || p.payloadHash == "" || p.walletId == "" || p.playerId == "" || p.roundId == "" || p.gameId == ""
    then Some(InvalidIdentifier)
    else if stamp.now == 0 then Some(InvalidTimestamp)
    else if p.money.currency == "" then Some(InvalidCurrency)
    else if (if p.kind.Loss? then p.money.minor != 0 else p.money.minor <= 0) then Some(InvalidAmountForKind)
    else
      var reverses := p.kind.Refund? || p.kind.Rollback?;
      if reverses && p.referenceExternalId == "" then Some(MissingReference)
      else if !reverses && p.referenceExternalId != "" then Some(UnexpectedReference)
      else None
  }

  lemma MadeUnlessMalformed(p: Request, stamp: Stamp)
    ensures NewExternal(stamp.transactionId, p, stamp.now)
            == match Malformed(p, stamp)
               case Some(code) => Err(Domain(code))
               case None => Ok(Submitted(p, stamp))
  {
  }

  /** How a new operation ends, if it is recorded. */
  ghost function EndingOf(db: Db, p: Request, reference: Option<Transaction>, stamp: Stamp): Ending
    requires p.walletId in db.wallets
  {
    var balance := db.wallets[p.walletId].balance;
    if p.kind.Refund? || p.kind.Rollback?
    then ReversalEnding(Submitted(p, stamp), reference, IsUndone(db.transactions, reference), balance)
    else DirectEnding(p.kind, p.money, balance)
  }

  predicate Moves(e: Ending, kind: Kind) { e.Leaving? && !kind.Loss? }

  ghost predicate EventTaken(db: Db, id: string) { exists i :: 0 <= i < |db.outbox| && db.outbox[i].eventId == id }

  /** The id or key that is taken, in the order they are tried. */
  ghost function Taken(db: Db, p: Request, stamp: Stamp, moves: bool): Option<Error>
    requires p.walletId in db.wallets
  {
    if stamp.transactionId in db.transactions then Some(Conflict(TransactionKey))
    else if exists id :: id in db.transactions && db.transactions[id].origin.External?
                         && db.transactions[id].providerId == p.providerId
                         && db.transactions[id].idempotencyKey == p.idempotencyKey
    then Some(Conflict(IdempotencyKeyRule))
    else if moves && db.wallets[p.walletId].version == LARGEST then Some(InvariantViolated)
    else if moves && exists i :: 0 <= i < |db.ledger| && db.ledger[i].id == stamp.entryId then Some(Conflict(LedgerKey))
    else if EventTaken(db, stamp.firstEvent)
            || (moves && (EventTaken(db, stamp.secondEvent) || stamp.firstEvent == stamp.secondEvent))
    then Some(Conflict(OutboxKey))
    else None
  }

  /** Why a new operation is not recorded, if it is not. */
  ghost function Obstacle(db: Db, p: Request, reference: Option<Transaction>, stamp: Stamp): Option<Error> {
    if Malformed(p, stamp).Some? then Some(Domain(Malformed(p, stamp).value))
    else if p.walletId !in db.wallets then Some(NotFound)
    else if db.wallets[p.walletId].playerId != p.playerId then Some(InvalidInput)
    else if p.kind.Loss? && p.money.currency != db.wallets[p.walletId].balance.currency
    then Some(Domain(CurrencyMismatch))
    else Taken(db, p, stamp, Moves(EndingOf(db, p, reference, stamp), p.kind))
  }

  /** What a decision needs of the keys: its row's, its entry's if money moves, and its events'. */
  predicate Shaped(eff: Effect, p: Request, stamp: Stamp, from: Wallet, moves: bool) {
    && !eff.known && eff.from == from && eff.row.id == stamp.transactionId && eff.row.origin.External?
    && eff.row.providerId == p.providerId && eff.row.externalId == p.externalId
    && eff.row.idempotencyKey == p.idempotencyKey
    && (eff.move.Some? <==> moves) && (moves ==> eff.move.value.entry.id == stamp.entryId)
    && |eff.events| == if moves then 2 else 1
  }

  lemma EndingIsShaped(eff: Effect, p: Request, from: Wallet, e: Ending, resolved: string, stamp: Stamp)
    requires EndsAs(eff, Submitted(p, stamp), from, e, resolved, stamp.entryId, stamp.now)
    requires !eff.known && eff.from == from && eff.events == EventsOf(eff.row, false, eff.move)
    ensures Shaped(eff, p, stamp, from, Moves(e, p.kind))
  {
  }

  lemma ParkedIsShaped(policy: Policy, eff: Effect, p: Request, from: Wallet, stamp: Stamp)
    requires Parked(policy, eff, Submitted(p, stamp), from, stamp.now)
    requires !eff.known && eff.from == from && eff.events == EventsOf(eff.row, false, eff.move)
    ensures Shaped(eff, p, stamp, from, false)
  {
  }

  lemma DecisionIsFinished(policy: Policy, row: Transaction, from: Wallet, v: Verdict, stamp: Stamp, jitter: nat)
    requires Normalised(policy)
    ensures var r := SettleSubmit(policy, row, from, v, stamp, jitter);
            r.Ok? ==> && !r.value.known && r.value.from == from
                      && r.value.events == EventsOf(r.value.row, false, r.value.move)
  {
    hide EventsOf, Undo, Move, NextAttemptAt;
  }

  lemma DecisionIsShaped(policy: Policy, db: Db, p: Request, stamp: Stamp, jitter: nat, reference: Option<Transaction>)
    requires Normalised(policy) && Inv(db) && stamp.entryId != "" && NewRow(db, p, stamp).Ok?
    requires IsTheReference(db.transactions, p.providerId, p.referenceExternalId, reference)
    ensures var t, from := Submitted(p, stamp), db.wallets[p.walletId];
            var r := SettleSubmit(policy, t, from, Resolve(db.transactions, t), stamp, jitter);
            r.Ok? ==> Shaped(r.value, p, stamp, from, Moves(EndingOf(db, p, reference, stamp), p.kind))
  {
    hide Inv, NewRow, Resolve, SettleDirect, SettleReversal, EndsAs, Park, IsTheReference, Judge, ReversalEnding,
      DirectEnding, Parked, Shaped, EventsOf;
    NewRowIs(db, p, stamp);
    var t, from := Submitted(p, stamp), db.wallets[p.walletId];
    WalletIs(db, p.walletId);
    var r := SettleSubmit(policy, t, from, Resolve(db.transactions, t), stamp, jitter);
    DecisionIsFinished(policy, t, from, Resolve(db.transactions, t), stamp, jitter);
    var e := EndingOf(db, p, reference, stamp);
    if r.Ok? {
      if p.kind.Refund? || p.kind.Rollback? {
        RowsAreNamed(db);
        AppliedCurrency(db, t, reference);
        var waiting := Park(policy, t, from, stamp.now, jitter);
        ReversalComesTo(db.transactions, t, false, from, waiting, reference, stamp.entryId, stamp.now);
        if e.OnHold? {
          ParkedByTable(policy, t, from, stamp.now, jitter);
          ParkedIsShaped(policy, r.value, p, from, stamp);
        } else {
          EndingIsShaped(r.value, p, from, e, Resolved(e, reference), stamp);
        }
      } else {
        DirectComesTo(t, from, stamp.entryId, stamp.now);
        EndingIsShaped(r.value, p, from, e, "", stamp);
      }
    }
  }

  /** The unique rules, in the order the statements meet them. */
  lemma GuardedByTable(db: Db, eff: Effect, p: Request, stamp: Stamp, from: Wallet, moves: bool)
    requires p.walletId in db.wallets && db.wallets[p.walletId] == from && Shaped(eff, p, stamp, from, moves)
    requires FindByBusinessId(db.transactions, p.providerId, p.externalId).None?
    ensures Guarded(db, Ok(eff), stamp)
            == match Taken(db, p, stamp, moves)
               case Some(e) => Refused(e)
               case None => Settled(eff)
  {
    forall id | id in db.transactions
      ensures !SameBusiness(db.transactions[id], eff.row)
    {
      assert !IsBusiness(db.transactions[id], p.providerId, p.externalId);
    }
  }

  /**
   * A new operation is refused without a record iff something is in its way, and under
   * exactly that; otherwise it is settled, and ends as the table says.
   */
  lemma RecordedUnlessObstructed(policy: Policy, db: Db, p: Request, stamp: Stamp, jitter: nat,
                                 reference: Option<Transaction>)
    requires Normalised(policy) && Inv(db) && 0 < stamp.now && stamp.entryId != ""
    requires FindByBusinessId(db.transactions, p.providerId, p.externalId).None?
    requires IsTheReference(db.transactions, p.providerId, p.referenceExternalId, reference)
    ensures match Obstacle(db, p, reference, stamp)
            case Some(e) => Submit(policy, db, Ok(p), stamp, jitter) == Refused(e)
            case None => Submit(policy, db, Ok(p), stamp, jitter).Settled?
  {
    hide Inv, FindByBusinessId, Resolve, SettleSubmit, Guarded, IsTheReference, NewExternal, Taken, EndingOf, Moves,
      Malformed;
    MadeUnlessMalformed(p, stamp);
    if NewRow(db, p, stamp).Ok? {
      NewRowIs(db, p, stamp);
      WalletIs(db, p.walletId);
      var t, from, v := Submitted(p, stamp), db.wallets[p.walletId], Resolve(db.transactions, Submitted(p, stamp));
      ResolveHasCode(db.transactions, t);
      OnlyStrayLossIsUnrecorded(policy, t, from, v, stamp, jitter);
      var r := SettleSubmit(policy, t, from, v, stamp, jitter);
      if r.Ok? {
        DecisionIsShaped(policy, db, p, stamp, jitter, reference);
        GuardedByTable(db, r.value, p, stamp, from, Moves(EndingOf(db, p, reference, stamp), p.kind));
      } else {
        StrayLossOnly(policy, db, t, from, v, stamp, jitter);
      }
    }
  }

  lemma StrayLossOnly(policy: Policy, db: Db, t: Transaction, from: Wallet, v: Verdict, stamp: Stamp, jitter: nat)
    requires Normalised(policy) && t.kind.Loss? && t.money.IsInitialised() && from.balance.IsInitialised()
    requires t.money.currency != from.balance.currency
    ensures SettleSubmit(policy, t, from, v, stamp, jitter) == Err(Domain(CurrencyMismatch))
    ensures Guarded(db, Err(Domain(CurrencyMismatch)), stamp) == Refused(Domain(CurrencyMismatch))
  {
  }

  /**
   * A request whose pair is stored is answered from that row: refused for other content, then for
   * another key, else replayed.
   */
  lemma StoredIsAnswered(policy: Policy, db: Db, p: Request, stamp: Stamp, jitter: nat, id: string)
    requires Normalised(policy) && Inv(db) && id in db.transactions && db.transactions[id].origin.External?
    requires db.transactions[id].providerId == p.providerId && db.transactions[id].externalId == p.externalId
    ensures var f := db.transactions[id];
            Submit(policy, db, Ok(p), stamp, jitter)
            == if f.payloadHash != p.payloadHash then Refused(Conflict(DifferentContent))
               else if f.idempotencyKey != p.idempotencyKey then Refused(Conflict(DifferentKey))
               else Replayed(f)
  {
    hide Inv, FindByBusinessId;
    RowsAreNamed(db);
    FoundIsUnique(db.transactions, id);
  }

  /**
   * The id that keeps a visit from being recorded, in the order they are tried; one that waits on
   * announces nothing.
   */
  ghost function VisitObstacle(db: Db, from: Wallet, stamp: Stamp, moves: bool, announces: bool): Option<Error> {
    if moves && from.version == LARGEST then Some(InvariantViolated)
    else if moves && exists i :: 0 <= i < |db.ledger| && db.ledger[i].id == stamp.entryId then Some(Conflict(LedgerKey))
    else if (announces && EventTaken(db, stamp.firstEvent))
            || (moves && (EventTaken(db, stamp.secondEvent) || stamp.firstEvent == stamp.secondEvent))
    then Some(Conflict(OutboxKey))
    else None
  }

  lemma VisitIsFinished(policy: Policy, row: Transaction, from: Wallet, v: Verdict, stamp: Stamp, jitter: nat)
    requires Normalised(policy)
    ensures var r := SettleVisit(policy, row, from, v, stamp, jitter);
            r.Ok? ==> && r.value.known && r.value.from == from
                      && r.value.events == EventsOf(r.value.row, true, r.value.move)
  {
    hide EventsOf, Undo, Move, NextAttemptAt;
  }

  lemma VisitGuarded(db: Db, eff: Effect, stamp: Stamp, from: Wallet, moves: bool, announces: bool)
    requires eff.known && eff.from == from && (eff.move.Some? <==> moves) && (moves ==> announces)
    requires moves ==> eff.move.value.entry.id == stamp.entryId
    requires |eff.events| == if moves then 2 else if announces then 1 else 0
    ensures Guarded(db, Ok(eff), stamp)
            == match VisitObstacle(db, from, stamp, moves, announces)
               case Some(e) => Refused(e)
               case None => Settled(eff)
  {
  }

  lemma VisitEvents(eff: Effect, t: Transaction, from: Wallet, e: Ending, resolved: string, stamp: Stamp)
    requires EndsAs(eff, t, from, e, resolved, stamp.entryId, stamp.now) && !t.kind.Loss?
    requires eff.events == EventsOf(eff.row, true, eff.move)
    ensures (eff.move.Some? <==> e.Leaving?) && (e.Leaving? ==> eff.move.value.entry.id == stamp.entryId)
    ensures |eff.events| == if e.Leaving? then 2 else 1
  {
  }

  lemma WaitingEvents(policy: Policy, eff: Effect, t: Transaction, from: Wallet, at: Instant)
    requires t.status.PendingReference? && eff.known && eff.events == EventsOf(eff.row, true, eff.move)
    requires if IsOver(policy, t, at)
             then WritesRow(eff, t.(status := Rejected, failureCode := ReferenceNotFound, updatedAt := at), from)
             else WaitsOn(policy, eff, t, from, at)
    ensures eff.move.None? && |eff.events| == if IsOver(policy, t, at) then 1 else 0
  {
  }

  /** A visit to a claimed reversal is recorded unless an id it was handed is taken. */
  lemma VisitedUnlessObstructed(policy: Policy, db: Db, id: string, stamp: Stamp, jitter: nat,
                                reference: Option<Transaction>)
    requires Normalised(policy) && Inv(db) && Claimable(db, id) && 0 < stamp.now && stamp.entryId != ""
    requires IsTheReference(db.transactions, db.transactions[id].providerId, db.transactions[id].referenceExternalId,
                            reference)
    ensures var t, from := db.transactions[id], db.wallets[db.transactions[id].walletId];
            var e := ReversalEnding(t, reference, IsUndone(db.transactions, reference), from.balance);
            match VisitObstacle(db, from, stamp, e.Leaving?, !e.OnHold? || IsOver(policy, t, stamp.now))
            case Some(error) => Visit(policy, db, id, stamp, jitter) == Refused(error)
            case None => Visit(policy, db, id, stamp, jitter).Settled?
  {
    hide Inv, FindByBusinessId, Resolve, SettleReversal, EndsAs, Guarded, KeepWaiting, IsTheReference, Judge,
      ReversalEnding, WaitsOn, IsOver, VisitObstacle, EventsOf, SettleVisit, WritesRow;
    var t := db.transactions[id];
    var from, v := db.wallets[t.walletId], Resolve(db.transactions, t);
    ClaimedIs(db, id);
    WalletIs(db, t.walletId);
    RowsAreNamed(db);
    AppliedCurrency(db, t, reference);
    VisitDecides(policy, db, id, stamp, jitter);
    var e := ReversalEnding(t, reference, IsUndone(db.transactions, reference), from.balance);
    VisitIsFinished(policy, t, from, v, stamp, jitter);
    var eff := SettleVisit(policy, t, from, v, stamp, jitter).value;
    var waiting := KeepWaiting(policy, t, from, stamp.now, jitter);
    VisitIsReversal(policy, t, from, v, stamp, jitter);
    ReversalComesTo(db.transactions, t, true, from, waiting, reference, stamp.entryId, stamp.now);
    if e.OnHold? {
      WaitingByTable(policy, t, from, stamp.now, jitter);
      WaitingEvents(policy, eff, t, from, stamp.now);
    } else {
      VisitEvents(eff, t, from, e, Resolved(e, reference), stamp);
    }
    VisitGuarded(db, eff, stamp, from, e.Leaving?, !e.OnHold? || IsOver(policy, t, stamp.now));
  }

  lemma VisitIsReversal(policy: Policy, row: Transaction, from: Wallet, v: Verdict, stamp: Stamp, jitter: nat)
    requires Normalised(policy)
    ensures SettleVisit(policy, row, from, v, stamp, jitter)
            == SettleReversal(row, true, from, v, KeepWaiting(policy, row, from, stamp.now, jitter), stamp.entryId,
                              stamp.now)
  {
  }
}
