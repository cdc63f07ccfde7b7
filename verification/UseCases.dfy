/** The use cases as they run: reads and writes in sequence, proved to do what the serial model decides. */
module UseCases {
  import opened Base
  import opened Money
  import opened Domain
  import opened Commands
  import opened Tables
  import opened Steps
  import opened Decisions
  import opened Serial
  import opened Storage

  datatype SubmitResult = SubmitResult(transaction: Transaction, balance: Money, replay: bool)

  /** The invariant inside a unit of work, where the inbox may hold a claim not yet completed. */
  ghost predicate Sane(db: Db) {
    Inv(db.(inbox := map[]))
  }

  /**
   * A transaction did what the serial model answers: all of the effect or, when a
   * domain rule refused, nothing at all. After any other error it is rolled back.
   */
  ghost predicate Does(before: Db, after: Db, a: Answer, stamp: Stamp, r: Result<SubmitResult>) {
    match a
    case Replayed(t) => after == before && r == Ok(SubmitResult(t, t.balanceAfter, true))
    case Refused(e) => r == Err(e) && (e.Domain? ==> after == before)
    case Settled(eff) =>
      |eff.events| <= 2 && after == Commit(before, eff, stamp) && r == Ok(SubmitResult(eff.row, eff.Balance(), false))
  }

  /* ---- what a decided effect guarantees to the statements that write it ---- */

  ghost predicate Postable(db: Db, eff: Effect) {
    var t := eff.row;
    && SchemaAccepts(t) && t.walletId in db.wallets && !t.kind.OpeningCredit?
    && |eff.events| <= 2 && eff.events == EventsOf(t, eff.known, eff.move)
    && (!(eff.known && t.status.PendingReference?) ==> EventsForOutcome(t, eff.move) == Ok(eff.events))
    && (t.status.Processed? && t.resolvedReferenceId != "" ==> Unreversed(db.transactions, t.resolvedReferenceId))
    && (eff.known ==>
          && t.id in db.transactions && db.transactions[t.id].status.PendingReference?
          && Patched(db.transactions[t.id], t) == t)
    && (t.status.Processed? ==> (eff.known <==> 0 < t.attempts))
    && (eff.move.Some? ==> MovePostable(db, eff, eff.move.value))
  }

  ghost predicate MovePostable(db: Db, eff: Effect, m: Movement) {
    && eff.row.walletId in db.wallets && db.wallets[eff.row.walletId] == eff.from
    && eff.from.id == eff.row.walletId == m.wallet.id
    && 1 <= eff.from.version && m.wallet.version == Wrap64(eff.from.version + 1)
    && Rebalanced(eff.from, m.wallet) == m.wallet && 0 <= m.wallet.balance.minor
    && m.entry.transactionId == eff.row.id
    && (eff.known || eff.row.id !in db.transactions ==> !HasEntry(db.ledger, eff.row.id))
  }

  lemma EventsAgree(db: Db, eff: Effect)
    requires Proper(db, eff)
    ensures |eff.events| <= 2
    ensures !(eff.known && eff.row.status.PendingReference?) ==> EventsForOutcome(eff.row, eff.move) == Ok(eff.events)
  {
    hide DirectionOf, Undoes, RowAdvances;
    var t, m := eff.row, eff.move;
    if t.status.Processed? {
      var processed := TransactionProcessed(Fact(t), t.updatedAt);
      assert NewProcessed(t) == Ok(processed);
      if m.Some? {
        assert NewBalanceChanged(m.value.wallet, m.value.entry) == Ok(Change(m.value.wallet, m.value.entry));
        assert EventsOf(t, eff.known, m) == [processed, Change(m.value.wallet, m.value.entry)];
      } else {
        assert EventsOf(t, eff.known, m) == [processed];
      }
    }
  }

  lemma NotYetInLedger(db: Db, id: string)
    requires Sane(db) && Unsettled(db.transactions, id)
    ensures !HasEntry(db.ledger, id)
  {
    hide BooksBalance, LogComplete, Unique, ReversalsResolve, RowFits;
    forall i | 0 <= i < |db.ledger|
      ensures db.ledger[i].transactionId != id
    {
      assert Explains(db.transactions, db.ledger[i]);
    }
  }

  lemma MoveIsPostable(db: Db, eff: Effect)
    requires Sane(db) && Proper(db, eff) && Current(db, eff) && eff.move.Some?
    ensures MovePostable(db, eff, eff.move.value)
  {
    hide Inv, EventsOf, DirectionOf, Undoes, RowFits, SchemaAccepts, HasEntry;
    if eff.known || eff.row.id !in db.transactions { NotYetInLedger(db, eff.row.id); }
  }

  lemma RowIsPostable(db: Db, eff: Effect)
    requires Proper(db, eff)
    ensures var t := eff.row;
            && SchemaAccepts(t) && t.walletId in db.wallets && !t.kind.OpeningCredit?
            && (t.status.Processed? && t.resolvedReferenceId != "" ==> t.kind.IsReversal() && eff.move.Some?)
            && (eff.known ==> t.id in db.transactions && db.transactions[t.id].status.PendingReference?
                              && db.transactions[t.id].Identity() == t.Identity()
                                && 0 <= db.transactions[t.id].attempts <= t.attempts)
            && (|| t.balanceAfter == UNSET
                || (t.balanceAfter.IsInitialised() && t.balanceAfter.currency == t.money.currency))
            && (t.status.Processed? && !eff.known ==> t.attempts == 0)
  {
    hide EventsOf, DirectionOf, Undoes, Moved;
  }

  lemma ProperIsPostable(db: Db, eff: Effect)
    requires Sane(db) && Proper(db, eff) && Current(db, eff)
    ensures Postable(db, eff)
  {
    hide Inv, EventsOf, EventsForOutcome, SchemaAccepts, Patched, MovePostable, Proper;
    EventsAgree(db, eff);
    RowIsPostable(db, eff);
    EventsAreOf(db, eff);
    if eff.known {
      PatchIsWhole(db.transactions[eff.row.id], eff.row);
      KnownHasWaited(db, eff.row.id);
    }
    if eff.move.Some? { MoveIsPostable(db, eff); }
  }

  lemma EventsAreOf(db: Db, eff: Effect)
    requires Proper(db, eff)
    ensures eff.events == EventsOf(eff.row, eff.known, eff.move)
  {
  }

  lemma KnownHasWaited(db: Db, id: string)
    requires Sane(db) && id in db.transactions && db.transactions[id].status.PendingReference?
    ensures 0 < db.transactions[id].attempts && db.transactions[id].kind.IsReversal() && Claimable(db, id)
  {
    assert RowFits(db.transactions[id], db.wallets);
  }

  lemma SaneFacts(db: Db)
    requires Sane(db)
    ensures Unique(db.transactions) && TransactionsFit(db)
    ensures forall id :: id in db.wallets ==> SoundWallet(db.wallets[id]) && db.wallets[id].id == id
  {
    hide BooksBalance, LogComplete, LedgerExplained, ReversalsResolve, RowFits;
    forall id | id in db.transactions
      ensures db.transactions[id].id == id && RowFits(db.transactions[id], db.wallets)
    {
    }
  }

  lemma SubmitIsPostable(policy: Policy, db: Db, row: Transaction, stamp: Stamp, jitter: nat)
    requires Normalised(policy) && Sane(db) && PendingRow(row, db.wallets)
    ensures var r := SettleSubmit(policy, row, db.wallets[row.walletId], Resolve(db.transactions, row), stamp, jitter);
            r.Ok? ==> Postable(db, r.value) && !r.value.known && r.value.row.id == row.id
  {
    hide Inv, TransactionsFit, Unique, Proper, Postable, SettleSubmit, SchemaAccepts, Resolve;
    SaneFacts(db);
    var from, v := db.wallets[row.walletId], Resolve(db.transactions, row);
    var r := SettleSubmit(policy, row, from, v, stamp, jitter);
    ResolveIsGrounded(db, row);
    ResolveHasCode(db.transactions, row);
    SubmitIsProper(policy, db, row, from, v, stamp, jitter);
    SubmitFollows(policy, db.transactions, row, from, stamp, jitter);
    if r.Ok? { ProperIsPostable(db, r.value); }
  }

  lemma VisitIsPostable(policy: Policy, db: Db, id: string, stamp: Stamp, jitter: nat)
    requires Normalised(policy) && Sane(db) && Claimable(db, id)
    ensures var row := db.transactions[id];
            var r := SettleVisit(policy, row, db.wallets[row.walletId], Resolve(db.transactions, row), stamp, jitter);
            r.Ok? ==> Postable(db, r.value) && r.value.known && r.value.row.id == id == row.id
  {
    hide Inv, Unique, Proper, Postable, SettleVisit, SchemaAccepts, StatusFits, Resolve;
    SaneFacts(db);
    var row := db.transactions[id];
    var from, v := db.wallets[row.walletId], Resolve(db.transactions, row);
    var r := SettleVisit(policy, row, from, v, stamp, jitter);
    ResolveIsGrounded(db, row);
    ResolveHasCode(db.transactions, row);
    assert RowFits(row, db.wallets);
    VisitIsProper(policy, db, row, from, v, stamp, jitter);
    VisitFollows(policy, db.transactions, row, from, stamp, jitter);
    if r.Ok? { ProperIsPostable(db, r.value); }
  }

  /* ---- the writes ---- */

  /** The effect without its events. */
  ghost function Posted(db: Db, eff: Effect): Db {
    db.(
      transactions := db.transactions[eff.row.id := eff.row],
      wallets := if eff.move.Some? then db.wallets[eff.row.walletId := eff.move.value.wallet] else db.wallets,
      ledger := if eff.move.Some? then db.ledger + [eff.move.value.entry] else db.ledger)
  }

  ghost predicate RowFresh(db: Db, eff: Effect) { eff.known || FreshIdentity(db.transactions, eff.row) }

  predicate MoveFresh(db: Db, eff: Effect) {
    eff.move.Some? ==> eff.from.version < MAX_INT64 && FreshEntry(db.ledger, eff.move.value.entry.id)
  }

  /** Either everything but the events is written, or a rule of the schema refused and says which. */
  ghost predicate Posts(before: Db, after: Db, eff: Effect, stamp: Stamp, failed: Option<Error>) {
    match failed
    case None => RowFresh(before, eff) && MoveFresh(before, eff) && after == Posted(before, eff)
    case Some(e) => Guarded(before, Ok(eff), stamp) == Refused(e) && !e.Domain?
  }

  /** An insert that fails says what the serial model says; otherwise the row is new. */
  lemma InsertAnswers(db: Db, eff: Effect, stamp: Stamp, r: Result<()>)
    requires Postable(db, eff) && !eff.known && Inserts(db.transactions, db.wallets, eff.row, r)
    ensures r.Ok? ==> FreshIdentity(db.transactions, eff.row)
    ensures r.Err? ==> Guarded(db, Ok(eff), stamp) == Refused(r.error) && !r.error.Domain?
  {
    hide SchemaAccepts, EventsOf, EventsForOutcome, MovePostable, FreshEvents, FreshEntry;
    forall id | id in db.transactions
      ensures !SameOpening(db.transactions[id], eff.row) && !SameReference(db.transactions[id], eff.row)
    {
      assert eff.row.status.Processed? && eff.row.resolvedReferenceId != "" ==>
        !IsProcessedReversalOf(db.transactions[id], eff.row.resolvedReferenceId);
    }
  }

  /** An update of a postable effect is refused by nothing. */
  lemma UpdateSucceeds(db: Db, eff: Effect, r: Result<()>)
    requires Postable(db, eff) && eff.known && Updates(db.transactions, eff.row, r)
    ensures r.Ok? && Patched(db.transactions[eff.row.id], eff.row) == eff.row
  {
    hide SchemaAccepts, EventsOf, EventsForOutcome, MovePostable, Patched;
    forall id | id in db.transactions
      ensures !SameReference(db.transactions[id], eff.row)
    {
      assert eff.row.status.Processed? && eff.row.resolvedReferenceId != "" ==>
        !IsProcessedReversalOf(db.transactions[id], eff.row.resolvedReferenceId);
    }
  }

  method PostMovement(store: Store, m: Movement, expectedVersion: int64, ghost before: Db, ghost eff: Effect,
                      ghost stamp: Stamp)
    returns (failed: Option<Error>)
    requires Postable(before, eff) && eff.move == Some(m) && expectedVersion == eff.from.version
    requires RowFresh(before, eff)
    requires store.View() == before.(transactions := before.transactions[eff.row.id := eff.row])
    modifies store
    ensures Posts(before, store.View(), eff, stamp, failed)
  {
    hide SchemaAccepts, EventsOf, EventsForOutcome, Patched, Unreversed, FreshEvents, SameBusiness, SameKey;
    var r := store.UpdateBalance(m.wallet, expectedVersion);
    if r.Err? { return Some(r.error); }
    r := store.AppendEntry(m.entry);
    if r.Err? { return Some(r.error); }
    failed := None;
  }

  /** Writes an applied reversal: its row, which exists already when it waited, then the money. */
  method WriteReversal(store: Store, applied: Transaction, m: Movement, expectedVersion: int64, ghost eff: Effect,
                       ghost stamp: Stamp)
    returns (failed: Option<Error>)
    requires Postable(store.View(), eff) && eff.row == applied && applied.status.Processed?
    requires eff.move == Some(m) && expectedVersion == eff.from.version
    modifies store
    ensures Posts(old(store.View()), store.View(), eff, stamp, failed)
  {
    hide SchemaAccepts, EventsOf, EventsForOutcome, Patched, MovePostable, Unreversed, FreshEvents, Inserts, Refusal;
    ghost var before := store.View();
    if applied.attempts > 0 {
      var r := store.UpdateTransaction(applied);
      UpdateSucceeds(before, eff, r);
    } else {
      var r := store.InsertTransaction(applied);
      InsertAnswers(before, eff, stamp, r);
      if r.Err? { return Some(r.error); }
    }
    failed := PostMovement(store, m, expectedVersion, before, eff, stamp);
  }

  /** Appends the events one by one, each under its own id. */
  method Record(store: Store, events: seq<Event>, stamp: Stamp) returns (r: Result<()>)
    requires |events| <= 2
    modifies store`outbox
    ensures if FreshEvents(old(store.outbox), events, stamp)
            then r == Ok(()) && store.outbox == Recorded(old(store.outbox), events, stamp)
            else r == Err(Conflict(OutboxKey))
  {
    var i := 0;
    ghost var before := store.outbox;
    while i < |events|
      invariant 0 <= i <= |events|
      invariant store.outbox == Recorded(before, events[..i], stamp) && FreshEvents(before, events[..i], stamp)
    {
      var id := if i == 0 then stamp.firstEvent else stamp.secondEvent;
      if i == 1 { FreshAfter(before, Unsent(stamp, events[0], stamp.firstEvent), id); }
      assert events[..i + 1] == events[..i] + [events[i]];
      var appended := store.AppendEvent(Unsent(stamp, events[i], id));
      if appended.Err? { return appended; }
      i := i + 1;
    }
    assert events[..i] == events;
    r := Ok(());
  }

  lemma FreshAfter(outbox: seq<OutboxRow>, row: OutboxRow, id: string)
    ensures FreshEvent(outbox + [row], id) <==> FreshEvent(outbox, id) && row.eventId != id
  {
    if FreshEvent(outbox + [row], id) {
      assert (outbox + [row])[|outbox|] == row;
      assert forall i :: 0 <= i < |outbox| ==> (outbox + [row])[i] == outbox[i];
    }
  }

  lemma AllWritten(db: Db, eff: Effect, stamp: Stamp)
    requires Postable(db, eff) && RowFresh(db, eff) && MoveFresh(db, eff)
    ensures if FreshEvents(db.outbox, eff.events, stamp)
            then Guarded(db, Ok(eff), stamp) == Settled(eff)
                 && Posted(db, eff).(outbox := Recorded(db.outbox, eff.events, stamp)) == Commit(db, eff, stamp)
            else Guarded(db, Ok(eff), stamp) == Refused(Conflict(OutboxKey))
  {
    hide SchemaAccepts, EventsOf, EventsForOutcome, Patched, MovePostable, Unreversed, FreshEvents, Recorded,
      FreshEntry;
  }

  /** Records what the finished step reports, and answers. */
  method Emit(store: Store, t: Transaction, m: Option<Movement>, balance: Money, stamp: Stamp, ghost before: Db,
              ghost eff: Effect)
    returns (r: Result<SubmitResult>)
    requires Postable(before, eff) && eff.row == t && eff.move == m && balance == eff.Balance()
    requires RowFresh(before, eff) && MoveFresh(before, eff) && store.View() == Posted(before, eff)
    requires !(eff.known && t.status.PendingReference?)
    modifies store
    ensures Does(before, store.View(), Guarded(before, Ok(eff), stamp), stamp, r)
  {
    hide SchemaAccepts, EventsOf, EventsForOutcome, Patched, MovePostable, Unreversed, FreshEvents, Recorded, Guarded,
      FreshEntry;
    AllWritten(before, eff, stamp);
    var events := EventsForOutcome(t, m);
    assert events.Ok?;
    var recorded := Record(store, events.value, stamp);
    if recorded.Err? { return Err(recorded.error); }
    r := Ok(SubmitResult(t, balance, false));
  }

  /* ---- submitting ---- */

  /** Inserts a new row that moves nothing: a rejection, a wait or a loss. */
  method InsertAndEmit(store: Store, t: Transaction, wallet: Wallet, stamp: Stamp, ghost eff: Effect)
    returns (r: Result<SubmitResult>)
    requires Postable(store.View(), eff) && eff.row == t && !eff.known && eff.move.None? && eff.from == wallet
    modifies store
    ensures Does(old(store.View()), store.View(), Guarded(old(store.View()), Ok(eff), stamp), stamp, r)
  {
    hide Postable, Inserts, Guarded;
    ghost var before := store.View();
    var inserted := store.InsertTransaction(t);
    InsertAnswers(before, eff, stamp, inserted);
    if inserted.Err? { return Err(inserted.error); }
    r := Emit(store, t, None, wallet.balance, stamp, before, eff);
  }

  method ResolveReference(store: Store, reversal: Transaction) returns (v: Verdict)
    requires Unique(store.transactions) && TransactionsFit(store.View())
    ensures v == Resolve(store.transactions, reversal)
  {
    hide Unique, TransactionsFit, SchemaAccepts;
    var found := store.FindByBusinessID(reversal.providerId, reversal.referenceExternalId);
    if found.Err? { return Wait; }
    var reference := found.value;
    match reference.status
    case Pending => return Wait;
    case PendingReference => return Wait;
    case Rejected => return Refuse(ReferenceNotReversible);
    case Failed => return Refuse(ReferenceNotReversible);
    case Processed =>
    if !reversal.kind.CanReverse(reference.kind) { return Refuse(ReferenceNotReversible); }
    if Disagree(reversal, reference) { return Refuse(ReferenceMismatch); }
    if reversal.money != reference.money { return Refuse(ReferenceAmountMismatch); }
    var existing := store.FindProcessedReversalOf(reference.id);
    if existing.Ok? { return Refuse(AlreadyReversed); }
    v := Apply(reference, ReversalDirection(reference.kind).Extract());
  }

  /** Moves the money back and writes everything; a domain refusal writes nothing. */
  method ApplyReversal(store: Store, row: Transaction, known: bool, v: Verdict, wallet: Wallet, stamp: Stamp)
    returns (r: Result<(Transaction, Movement)>)
    requires v.Apply?
    requires var u := Undo(row, wallet, v, stamp.entryId, stamp.now);
             u.Ok? ==> && Postable(store.View(), Finish(u.value.0, known, wallet, Some(u.value.1)))
                       && u.value.0.status.Processed?
    modifies store
    ensures var u := Undo(row, wallet, v, stamp.entryId, stamp.now);
            match u
            case Err(e) => r == Err(e) && store.View() == old(store.View())
            case Ok(w) =>
              && (r.Ok? ==> r.value == w)
              && Posts(old(store.View()), store.View(), Finish(w.0, known, wallet, Some(w.1)), stamp,
                       if r.Ok? then None else Some(r.error))
  {
    hide Postable, Posts;
    var moved := Move(wallet, v.direction, stamp.entryId, row.id, row.money, stamp.now);
    if moved.Err? {
      var short := v.direction.Debit? && moved.error == Domain(InsufficientFunds);
      return Err(if short then Domain(ReversalExceedsBalance) else moved.error);
    }
    var resolved := row.ResolveReference(v.reference.id, stamp.now);
    if resolved.Err? { return Err(resolved.error); }
    var applied := resolved.value.MarkProcessed(moved.value.wallet.balance, stamp.now);
    if applied.Err? { return Err(applied.error); }
    var failed := WriteReversal(store, applied.value, moved.value, wallet.version,
                                Finish(applied.value, known, wallet, Some(moved.value)), stamp);
    if failed.Some? { return Err(failed.value); }
    r := Ok((applied.value, moved.value));
  }

  method RecordRejection(store: Store, row: Transaction, code: Code, wallet: Wallet, stamp: Stamp)
    returns (r: Result<SubmitResult>)
    requires var d := RejectWith(row, false, wallet, code, stamp.now); d.Ok? ==> Postable(store.View(), d.value)
    modifies store
    ensures Does(old(store.View()), store.View(),
                 Guarded(old(store.View()), RejectWith(row, false, wallet, code, stamp.now), stamp), stamp, r)
  {
    hide Postable;
    var rejected := row.Reject(code, stamp.now);
    if rejected.Err? { return Err(rejected.error); }
    r := InsertAndEmit(store, rejected.value, wallet, stamp, Finish(rejected.value, false, wallet, None));
  }

  /** Applies a new reversal, parks it, or records its rejection. */
  method ResolveNow(store: Store, policy: Policy, row: Transaction, wallet: Wallet, stamp: Stamp, jitter: nat)
    returns (r: Result<SubmitResult>)
    requires Normalised(policy) && Sane(store.View()) && PendingRow(row, store.wallets) && row.kind.IsReversal()
    requires store.wallets[row.walletId] == wallet
    modifies store
    ensures Does(old(store.View()), store.View(),
                 Guarded(old(store.View()),
                         SettleSubmit(policy, row, wallet, Resolve(old(store.transactions), row), stamp, jitter),
                             stamp), stamp, r)
  {
    hide Sane, PendingRow, Postable, Guarded, Resolve, Undo, RejectWith, EventsOf, Posts, NextAttemptAt;
    SaneFacts(store.View());
    SubmitIsPostable(policy, store.View(), row, stamp, jitter);
    ghost var before := store.View();
    var v := ResolveReference(store, row);
    match v {
      case Wait =>
        var parked := row.MarkPendingReference(stamp.now, NextAttemptAt(policy, stamp.now, 1, jitter),
                                               stamp.now + policy.ttl);
        if parked.Err? {
          MarkFailsByRule(row, stamp.now, NextAttemptAt(policy, stamp.now, 1, jitter), stamp.now + policy.ttl);
          ErrorsAreRefused(before, parked.error, stamp);
          return Err(parked.error);
        }
        r := InsertAndEmit(store, parked.value, wallet, stamp, Finish(parked.value, false, wallet, None));
      case Refuse(code) =>
        r := RecordRejection(store, row, code, wallet, stamp);
      case Apply(_, _) =>
        AppliedIsFinished(row, false, wallet, v, stamp);
        var applied := ApplyReversal(store, row, false, v, wallet, stamp);
        if applied.Err? && applied.error.Domain? {
          DomainMeansUndone(before, store.View(), row, false, wallet, v, stamp, applied);
          r := RecordRejection(store, row, applied.error.code, wallet, stamp);
        } else if applied.Err? {
          PostFailed(before, store.View(), row, false, wallet, v, stamp, applied);
          r := Err(applied.error);
        } else {
          var (t, m) := applied.value;
          PostSucceeded(before, store.View(), row, false, wallet, v, stamp, applied);
          r := Emit(store, t, Some(m), m.wallet.balance, stamp, before, Finish(t, false, wallet, Some(m)));
        }
    }
  }

  lemma ErrorsAreRefused(db: Db, e: Error, stamp: Stamp)
    ensures Guarded(db, Err(e), stamp) == Refused(e)
  {
  }

  lemma MarkFailsByRule(row: Transaction, at: Instant, nextAt: Instant, deadline: Instant)
    ensures var m := row.MarkPendingReference(at, nextAt, deadline); m.Err? ==> m.error.Domain?
  {
  }

  lemma AppliedIsFinished(row: Transaction, known: bool, wallet: Wallet, v: Verdict, stamp: Stamp)
    requires v.Apply?
    ensures var u := Undo(row, wallet, v, stamp.entryId, stamp.now);
            && (u.Err? ==> u.error.Domain?)
            && (u.Ok? ==> u.value.0.status.Processed?)
  {
  }

  /** What an applied reversal reports tells which way it ended. */
  lemma DomainMeansUndone(before: Db, after: Db, row: Transaction, known: bool, wallet: Wallet, v: Verdict,
                          stamp: Stamp, r: Result<(Transaction, Movement)>)
    requires v.Apply? && ReversalDone(before, after, row, known, wallet, v, stamp, r) && r.Err? && r.error.Domain?
    ensures Undo(row, wallet, v, stamp.entryId, stamp.now) == Err(r.error) && after == before
  {
    hide Undo, Guarded, Finish;
  }

  lemma PostFailed(before: Db, after: Db, row: Transaction, known: bool, wallet: Wallet, v: Verdict, stamp: Stamp,
                   r: Result<(Transaction, Movement)>)
    requires v.Apply? && ReversalDone(before, after, row, known, wallet, v, stamp, r) && r.Err? && !r.error.Domain?
    ensures var u := Undo(row, wallet, v, stamp.entryId, stamp.now);
            u.Ok? && Guarded(before, Ok(Finish(u.value.0, known, wallet, Some(u.value.1))), stamp) == Refused(r.error)
  {
    hide Undo, Guarded, Finish;
    AppliedIsFinished(row, known, wallet, v, stamp);
  }

  lemma PostSucceeded(before: Db, after: Db, row: Transaction, known: bool, wallet: Wallet, v: Verdict, stamp: Stamp,
                      r: Result<(Transaction, Movement)>)
    requires v.Apply? && ReversalDone(before, after, row, known, wallet, v, stamp, r) && r.Ok?
    ensures Undo(row, wallet, v, stamp.entryId, stamp.now) == r
    ensures var eff := Finish(r.value.0, known, wallet, Some(r.value.1));
            RowFresh(before, eff) && MoveFresh(before, eff) && after == Posted(before, eff)
  {
    hide Undo, Guarded, Finish, RowFresh, MoveFresh;
  }

  ghost predicate ReversalDone(before: Db, after: Db, row: Transaction, known: bool, wallet: Wallet, v: Verdict,
                               stamp: Stamp, r: Result<(Transaction, Movement)>)
    requires v.Apply?
  {
    match Undo(row, wallet, v, stamp.entryId, stamp.now)
    case Err(e) => r == Err(e) && after == before
    case Ok(w) =>
      && (r.Ok? ==> r.value == w)
      && Posts(before, after, Finish(w.0, known, wallet, Some(w.1)), stamp, if r.Ok? then None else Some(r.error))
  }

  /** A bet or a win on the balance, or a loss that moves nothing. */
  method SettleNow(store: Store, row: Transaction, wallet: Wallet, stamp: Stamp) returns (r: Result<SubmitResult>)
    requires var d := SettleDirect(row, wallet, stamp.entryId, stamp.now);
             d.Ok? ==> Postable(store.View(), d.value) && !d.value.known
    modifies store
    ensures Does(old(store.View()), store.View(),
                 Guarded(old(store.View()), SettleDirect(row, wallet, stamp.entryId, stamp.now), stamp), stamp, r)
  {
    hide Postable, EventsOf, Move, Inserts, RejectWith;
    ghost var before := store.View();
    if !row.kind.MovesMoney() {
      var applied := row.MarkProcessed(wallet.balance, stamp.now);
      if applied.Err? { return Err(applied.error); }
      r := InsertAndEmit(store, applied.value, wallet, stamp, Finish(applied.value, false, wallet, None));
      return;
    }
    var moved := Move(wallet, if row.kind.Bet? then Debit else Credit, stamp.entryId, row.id, row.money, stamp.now);
    if moved.Err? {
      r := RecordRejection(store, row, moved.error.code, wallet, stamp);
      return;
    }
    var m := moved.value;
    var applied := row.MarkProcessed(m.wallet.balance, stamp.now);
    if applied.Err? { return Err(applied.error); }
    ghost var eff := Finish(applied.value, false, wallet, Some(m));
    var inserted := store.InsertTransaction(applied.value);
    InsertAnswers(before, eff, stamp, inserted);
    if inserted.Err? { return Err(inserted.error); }
    var failed := PostMovement(store, m, wallet.version, before, eff, stamp);
    if failed.Some? { return Err(failed.value); }
    r := Emit(store, applied.value, Some(m), m.wallet.balance, stamp, before, eff);
  }

  /** Writes a new operation and its effect, inside the caller's transaction. */
  method ApplyNew(store: Store, policy: Policy, p: Request, stamp: Stamp, jitter: nat) returns (r: Result<SubmitResult>)
    requires Normalised(policy) && Sane(store.View())
    requires FindByBusinessId(store.transactions, p.providerId, p.externalId).None?
    modifies store
    ensures Does(old(store.View()), store.View(), Submit(policy, old(store.View()), Ok(p), stamp, jitter), stamp, r)
  {
    hide Sane, PendingRow, Postable, Guarded, Resolve, SettleReversal, SettleDirect, FindByBusinessId, NewExternal,
      Park;
    ghost var before := store.View();
    NewRowFails(stamp.transactionId, p, stamp.now);
    var row := NewExternal(stamp.transactionId, p, stamp.now);
    if row.Err? { return Err(row.error); }
    var wallet := store.FindWalletForUpdate(p.walletId);
    if wallet.Err? { return Err(wallet.error); }
    if wallet.value.playerId != p.playerId { return Err(InvalidInput); }
    NewRowIsPending(stamp.transactionId, p, stamp.now, store.wallets);
    NewRowShape(stamp.transactionId, p, stamp.now);
    if row.value.kind.IsReversal() {
      r := ResolveNow(store, policy, row.value, wallet.value, stamp, jitter);
    } else {
      SubmitIsPostable(policy, before, row.value, stamp, jitter);
      r := SettleNow(store, row.value, wallet.value, stamp);
    }
  }

  /** Answers from a stored operation, after proving it is the same one. */
  method ReplayStored(stored: Transaction, p: Request) returns (r: Result<SubmitResult>)
    ensures r == match Replay(stored, p)
                 case Replayed(t) => Ok(SubmitResult(t, t.balanceAfter, true))
                 case Refused(e) => Err(e)
                 case Settled(_) => r
  {
    if stored.payloadHash != p.payloadHash { return Err(Conflict(DifferentContent)); }
    if stored.idempotencyKey != p.idempotencyKey { return Err(Conflict(DifferentKey)); }
    r := Ok(SubmitResult(stored, stored.balanceAfter, true));
  }

  /** Applies the operation inside a transaction the caller owns; both ports come through here. */
  method ExecuteIn(store: Store, policy: Policy, command: SubmitCommand, stamp: Stamp, jitter: nat)
    returns (r: Result<SubmitResult>)
    requires Normalised(policy) && Sane(store.View())
    modifies store
    ensures Does(old(store.View()), store.View(), Submit(policy, old(store.View()), Parse(command), stamp, jitter),
                 stamp, r)
  {
    hide Sane, Unique, Parse, NewRow, Guarded, FindByBusinessId;
    SaneFacts(store.View());
    var parsed := ParseCommand(command);
    if parsed.Err? { return Err(parsed.error); }
    var p := parsed.value;
    var existing := store.FindByBusinessID(p.providerId, p.externalId);
    if existing.Ok? {
      r := ReplayStored(existing.value, p);
      return;
    }
    r := ApplyNew(store, policy, p, stamp, jitter);
  }

  /* ---- visiting ---- */

  /** Writes a rejection over a parked row, and reports it. */
  method RejectParked(store: Store, row: Transaction, code: Code, wallet: Wallet, stamp: Stamp)
    returns (r: Result<SubmitResult>)
    requires var d := RejectWith(row, true, wallet, code, stamp.now); d.Ok? ==> Postable(store.View(), d.value)
    modifies store
    ensures Does(old(store.View()), store.View(),
                 Guarded(old(store.View()), RejectWith(row, true, wallet, code, stamp.now), stamp), stamp, r)
  {
    hide SchemaAccepts, EventsOf, EventsForOutcome, Patched, Unreversed, Guarded;
    ghost var before := store.View();
    var rejected := row.Reject(code, stamp.now);
    if rejected.Err? {
      ErrorsAreRefused(before, rejected.error, stamp);
      return Err(rejected.error);
    }
    ghost var eff := Finish(rejected.value, true, wallet, None);
    var updated := store.UpdateTransaction(rejected.value);
    UpdateSucceeds(before, eff, updated);
    r := Emit(store, rejected.value, None, wallet.balance, stamp, before, eff);
  }

  /** Another wait: the row alone is written, and nothing is reported. */
  method RescheduleParked(store: Store, later: Transaction, wallet: Wallet, stamp: Stamp, ghost eff: Effect)
    returns (r: Result<SubmitResult>)
    requires Postable(store.View(), eff) && eff == Finish(later, true, wallet, None) && later.status.PendingReference?
    modifies store
    ensures Does(old(store.View()), store.View(), Guarded(old(store.View()), Ok(eff), stamp), stamp, r)
  {
    hide SchemaAccepts, EventsForOutcome, Patched, Unreversed;
    ghost var before := store.View();
    var updated := store.UpdateTransaction(later);
    UpdateSucceeds(before, eff, updated);
    AllWritten(before, eff, stamp);
    r := Ok(SubmitResult(later, wallet.balance, false));
  }

  /** Still not usable: give up when the wait is over, otherwise come back later. */
  method KeepParked(store: Store, policy: Policy, row: Transaction, wallet: Wallet, stamp: Stamp, jitter: nat)
    returns (r: Result<SubmitResult>)
    requires Normalised(policy)
    requires var d := KeepWaiting(policy, row, wallet, stamp.now, jitter); d.Ok? ==> Postable(store.View(), d.value)
    modifies store
    ensures Does(old(store.View()), store.View(),
                 Guarded(old(store.View()), KeepWaiting(policy, row, wallet, stamp.now, jitter), stamp), stamp, r)
  {
    hide Postable, Guarded, RejectWith, EventsOf, NextAttemptAt;
    if row.DeadlinePassed(stamp.now) || row.attempts >= policy.maxAttempts {
      r := RejectParked(store, row, ReferenceNotFound, wallet, stamp);
    } else {
      var later := row.RescheduleReference(stamp.now, NextAttemptAt(policy, stamp.now, row.attempts + 1, jitter));
      if later.Err? {
        ErrorsAreRefused(store.View(), later.error, stamp);
        return Err(later.error);
      }
      r := RescheduleParked(store, later.value, wallet, stamp, Finish(later.value, true, wallet, None));
    }
  }

  /** The reference is there: undo it, or record why it could not be undone. */
  method ApplyParked(store: Store, row: Transaction, v: Verdict, wallet: Wallet, stamp: Stamp,
                     ghost waiting: Result<Effect>)
    returns (r: Result<SubmitResult>)
    requires v.Apply?
    requires var d := SettleReversal(row, true, wallet, v, waiting, stamp.entryId, stamp.now);
             d.Ok? ==> Postable(store.View(), d.value)
    modifies store
    ensures Does(old(store.View()), store.View(),
                 Guarded(old(store.View()), SettleReversal(row, true, wallet, v, waiting, stamp.entryId, stamp.now),
                         stamp), stamp, r)
  {
    hide Postable, Guarded, Undo, RejectWith, EventsOf, Posts;
    ghost var before := store.View();
    AppliedIsFinished(row, true, wallet, v, stamp);
    var applied := ApplyReversal(store, row, true, v, wallet, stamp);
    if applied.Err? && applied.error.Domain? {
      DomainMeansUndone(before, store.View(), row, true, wallet, v, stamp, applied);
      r := RejectParked(store, row, applied.error.code, wallet, stamp);
    } else if applied.Err? {
      PostFailed(before, store.View(), row, true, wallet, v, stamp, applied);
      r := Err(applied.error);
    } else {
      var (t, m) := applied.value;
      PostSucceeded(before, store.View(), row, true, wallet, v, stamp, applied);
      r := Emit(store, t, Some(m), m.wallet.balance, stamp, before, Finish(t, true, wallet, Some(m)));
    }
  }

  /** One visit to a claimed reversal. */
  method VisitOne(store: Store, policy: Policy, row: Transaction, stamp: Stamp, jitter: nat)
    returns (r: Result<SubmitResult>)
    requires Normalised(policy) && Sane(store.View()) && Claimable(store.View(), row.id)
    requires store.transactions[row.id] == row
    modifies store
    ensures Does(old(store.View()), store.View(), Visit(policy, old(store.View()), row.id, stamp, jitter), stamp, r)
  {
    hide Sane, Postable, Guarded, Resolve, Undo, RejectWith, Does, KeepWaiting, Unique, TransactionsFit;
    SaneFacts(store.View());
    VisitIsPostable(policy, store.View(), row.id, stamp, jitter);
    var found := store.FindWalletForUpdate(row.walletId);
    var wallet := found.value;
    var v := ResolveReference(store, row);
    match v {
      case Apply(_, _) =>
        r := ApplyParked(store, row, v, wallet, stamp, KeepWaiting(policy, row, wallet, stamp.now, jitter));
      case Refuse(code) =>
        r := RejectParked(store, row, code, wallet, stamp);
      case Wait =>
        r := KeepParked(store, policy, row, wallet, stamp, jitter);
    }
  }
}
