/** What a repeated submission reports, against what the first one did. */
module Replays {
  import opened Base
  import opened Money
  import opened Domain
  import opened Commands
  import opened Tables
  import opened Steps
  import opened Decisions
  import opened Serial
  import opened ExactlyOnce
  import opened Waits
  import opened Interleaving
  import opened Guards
  import opened Races
  import opened Outcomes

  /** The command's operation has just been stored, and its submitter was told eff.Balance(). */
  ghost predicate JustAnswered(db: Db, eff: Effect, command: SubmitCommand) {
    && eff.row.id in db.transactions && db.transactions[eff.row.id] == eff.row
    && IsBusiness(eff.row, command.providerId, command.externalId)
    && eff.row.payloadHash == PayloadHash(command) && eff.row.idempotencyKey == command.idempotencyKey
    && eff.Balance() != UNSET
    && (eff.row.balanceAfter == eff.Balance() <==> eff.row.status.Processed?)
  }

  /**
   * The stored row as a later replay tells it. One that ended at once tells the balance
   * first told iff it was processed. One that parked tells none until it is processed,
   * and from then on the balance its own entry left, written after the first answer.
   */
  ghost predicate Retold(first: Db, later: Db, eff: Effect, t: Transaction) {
    if eff.row.status.IsTerminal() then t == eff.row && (t.balanceAfter == eff.Balance() <==> eff.row.status.Processed?)
    else if t.status.Processed? then
      exists k :: |first.ledger| <= k < |later.ledger| && later.ledger[k].transactionId == t.id
                  && later.ledger[k].walletId == t.walletId && later.ledger[k].after == t.balanceAfter
    else t.balanceAfter == UNSET
  }

  /** After any interleaving the same submission is replayed from the row as it is by then. */
  lemma ReplayTells(policy: Policy, locking: bool, s: System, es: seq<Turn>, eff: Effect, command: SubmitCommand,
                    again: SubmitCommand, stamp: Stamp, jitter: nat)
    requires Normalised(policy) && SystemOk(policy, locking, s) && JustAnswered(s.db, eff, command)
    requires SameSubmission(command, again) && Parse(again).Ok?
    ensures var later := History(policy, locking, s, es).db;
            && eff.row.id in later.transactions
            && Submit(policy, later, Parse(again), stamp, jitter) == Replayed(later.transactions[eff.row.id])
            && Retold(s.db, later, eff, later.transactions[eff.row.id])
  {
    hide SystemOk, History, Submit, Parse, PayloadHash, Extends, Inv, Retold, IsBusiness;
    SubmittedOnceForEver(policy, locking, s, es, eff.row.id, command, again, stamp, jitter, None);
    EveryInterleavingIsSound(policy, locking, s, es);
    SystemIsSound(policy, locking, s);
    SystemIsSound(policy, locking, History(policy, locking, s, es));
    LaterRow(s.db, History(policy, locking, s, es).db, eff, command);
  }

  lemma SystemIsSound(policy: Policy, locking: bool, s: System)
    requires Normalised(policy) && SystemOk(policy, locking, s)
    ensures Inv(s.db)
  {
  }

  lemma LaterRow(first: Db, later: Db, eff: Effect, command: SubmitCommand)
    requires Inv(first) && Inv(later) && Extends(first, later) && JustAnswered(first, eff, command)
    ensures eff.row.id in later.transactions && Retold(first, later, eff, later.transactions[eff.row.id])
  {
    hide Inv, Extends, PayloadHash, IsBusiness;
    var id := eff.row.id;
    RowsAdvance(first, later, id);
    var t := later.transactions[id];
    if eff.row.status.IsTerminal() {
      TerminalStays(first, later, id);
    } else if t.status.Processed? {
      ProcessedLater(first, later, id);
    } else {
      StoredBalance(later, id);
    }
  }

  lemma StoredBalance(db: Db, id: string)
    requires Inv(db) && id in db.transactions
    ensures !db.transactions[id].status.Processed? ==> db.transactions[id].balanceAfter == UNSET
    ensures db.transactions[id].id == id
    ensures db.transactions[id].status.Processed? && db.transactions[id].kind.IsReversal() ==>
              db.transactions[id].kind.MovesMoney()
    ensures db.transactions[id].status.PendingReference? ==> db.transactions[id].kind.IsReversal()
  {
    hide BooksBalance, LogComplete, LedgerExplained, ReversalsResolve, Unique, SchemaAccepts;
    assert RowFits(db.transactions[id], db.wallets);
  }

  /** A row that was parked and is processed by now has one entry, and it is a later one. */
  lemma ProcessedLater(first: Db, later: Db, id: string)
    requires Inv(first) && Inv(later) && Extends(first, later) && id in first.transactions && id in later.transactions
    requires !first.transactions[id].status.IsTerminal() && later.transactions[id].status.Processed?
    ensures exists k :: |first.ledger| <= k < |later.ledger| && later.ledger[k].transactionId == id
                        && later.ledger[k].walletId == later.transactions[id].walletId
                        && later.ledger[k].after == later.transactions[id].balanceAfter
  {
    hide BooksBalance, LogComplete, ReversalsResolve, Unique, RowFits, SchemaAccepts, DirectionOf;
    ParkedKind(first, later, id);
    OneEntryPerOperation(first, id);
    OneEntryPerOperation(later, id);
    var k :| 0 <= k < |later.ledger| && later.ledger[k].transactionId == id;
    assert Explains(later.transactions, later.ledger[k]);
    EntryIsLater(first.ledger, later.ledger, id, k);
  }

  lemma EntryIsLater(first: seq<Entry>, later: seq<Entry>, id: string, k: nat)
    requires !HasEntry(first, id) && first <= later && k < |later| && later[k].transactionId == id
    ensures |first| <= k
  {
    assert forall j :: 0 <= j < |first| ==> later[j] == first[j] && first[j].transactionId != id;
  }

  lemma ParkedKind(first: Db, later: Db, id: string)
    requires Inv(first) && Inv(later) && Extends(first, later) && id in first.transactions && id in later.transactions
    requires !first.transactions[id].status.IsTerminal() && later.transactions[id].status.Processed?
    ensures later.transactions[id].kind.MovesMoney() && later.transactions[id].id == id
  {
    hide Inv, Extends;
    StoredBalance(first, id);
    StoredBalance(later, id);
    NotTerminalIsParked(first, id);
    RowsAdvance(first, later, id);
    IdentityKeeps(first.transactions[id], later.transactions[id]);
  }

  lemma NotTerminalIsParked(db: Db, id: string)
    requires Inv(db) && id in db.transactions && !db.transactions[id].status.IsTerminal()
    ensures db.transactions[id].status.PendingReference?
  {
    hide BooksBalance, LogComplete, LedgerExplained, ReversalsResolve, Unique, SchemaAccepts;
    assert RowFits(db.transactions[id], db.wallets);
  }

  /** After these turns a replay tells the balance first told. */
  ghost predicate ToldAgain(policy: Policy, locking: bool, s: System, es: seq<Turn>, eff: Effect)
    requires Normalised(policy)
  {
    var rows := History(policy, locking, s, es).db.transactions;
    eff.row.id in rows && rows[eff.row.id].balanceAfter == eff.Balance()
  }

  /** A replay tells the balance first told, for ever, iff the operation was processed by its own submission. */
  lemma ToldForEver(policy: Policy, locking: bool, s: System, eff: Effect, command: SubmitCommand)
    requires Normalised(policy) && SystemOk(policy, locking, s) && JustAnswered(s.db, eff, command)
    ensures (forall es: seq<Turn> :: ToldAgain(policy, locking, s, es, eff)) <==> eff.row.status.Processed?
  {
    hide SystemOk, PayloadHash, IsBusiness, Step;
    if eff.row.status.Processed? {
      forall es: seq<Turn>
        ensures ToldAgain(policy, locking, s, es, eff)
      {
        FinishedForEver(policy, locking, s, es, eff.row.id);
      }
    } else {
      assert !ToldAgain(policy, locking, s, [], eff);
    }
  }

  /* ---- where the first answer comes from ---- */

  lemma ToldAtFirst(policy: Policy, row: Transaction, from: Wallet, v: Verdict, stamp: Stamp, jitter: nat)
    requires Normalised(policy) && SoundWallet(from) && row.balanceAfter == UNSET && row.money.IsInitialised()
    ensures var r := SettleSubmit(policy, row, from, v, stamp, jitter);
            r.Ok? ==> && (r.value.row.balanceAfter == r.value.Balance() <==> r.value.row.status.Processed?)
                      && r.value.Balance() != UNSET
  {
    hide EventsOf, Undo, Window;
    if row.kind.IsReversal() && v.Apply? { UndoObserves(row, from, v, stamp.entryId, stamp.now); }
  }

  lemma UndoObserves(row: Transaction, from: Wallet, v: Verdict, entryId: string, at: Instant)
    requires v.Apply? && SoundWallet(from)
    ensures var u := Undo(row, from, v, entryId, at);
            u.Ok? ==> u.value.0.balanceAfter == u.value.1.wallet.balance != UNSET && u.value.0.status.Processed?
  {
  }

  /** A submission that settles on the state it finds, whoever else is under way then. */
  lemma SettledIsAnswered(policy: Policy, db: Db, command: SubmitCommand, stamp: Stamp, jitter: nat)
    requires Normalised(policy) && Inv(db) && Submit(policy, db, Parse(command), stamp, jitter).Settled?
    ensures var a := Submit(policy, db, Parse(command), stamp, jitter);
            JustAnswered(After(db, a, stamp), a.eff, command)
  {
    hide Inv, Resolve, SettleSubmit, Parse, PayloadHash, Fresh, Refusal, FindByBusinessId, Recorded, Sound, IsBusiness;
    var a, p := Submit(policy, db, Parse(command), stamp, jitter), Parse(command).value;
    SettledRowIsTheCommands(policy, db, command, stamp, jitter);
    SubmitIsSound(policy, db, Parse(command), stamp, jitter);
    SoundIsShort(db, a.eff, stamp);
    var row := NewRow(db, p, stamp).value;
    RequestAccepted(stamp.transactionId, p, stamp.now);
    WalletIs(db, p.walletId);
    ToldAtFirst(policy, row, db.wallets[p.walletId], Resolve(db.transactions, row), stamp, jitter);
  }

  /** A submission, delivered or not, that commits among others. */
  lemma CommitIsAnswered(policy: Policy, locking: bool, s: System, tid: string, command: SubmitCommand)
    requires Normalised(policy) && SystemOk(policy, locking, s) && tid in s.live
    requires s.live[tid].job.SubmitJob? && s.live[tid].phase.Writing? && Statement(policy, s.db, s.live[tid]).CommitNow?
    requires Parse(command) == Ok(s.live[tid].job.request)
    ensures JustAnswered(Step(policy, locking, s, Advance(tid)).db, s.live[tid].phase.eff, command)
  {
    hide Inv, Compatible, AllCompatible, Parse, PayloadHash, Statement, Sound, Recorded, IsBusiness, SettleSubmit;
    var t := s.live[tid];
    OnlyTheFinishedCommit(policy, s.db, t);
    EffectKeeps(policy, locking, s, tid);
    DecidedIsAnswered(policy, s.db, t, command);
  }

  lemma NewRowIsUntold(id: string, p: Request, at: Instant)
    ensures NewExternal(id, p, at).Ok? ==> NewExternal(id, p, at).value.balanceAfter == UNSET
  {
  }

  lemma DecidedIsAnswered(policy: Policy, db: Db, t: Txn, command: SubmitCommand)
    requires Normalised(policy) && LiveOk(policy, db, t) && t.job.SubmitJob? && t.phase.Writing?
    requires Parse(command) == Ok(t.job.request)
    ensures var eff := t.phase.eff;
            && IsBusiness(eff.row, command.providerId, command.externalId)
            && eff.row.payloadHash == PayloadHash(command) && eff.row.idempotencyKey == command.idempotencyKey
            && eff.Balance() != UNSET && (eff.row.balanceAfter == eff.Balance() <==> eff.row.status.Processed?)
  {
    hide SettleSubmit, PayloadHash, Grounded, Written, StillUndone, NewExternal, WalletAdvances;
    var row, p := t.phase.row, t.job.request;
    NewRowShape(t.stamp.transactionId, p, t.stamp.now);
    RequestAccepted(t.stamp.transactionId, p, t.stamp.now);
    NewRowIsUntold(t.stamp.transactionId, p, t.stamp.now);
    SubmitKeepsIdentity(policy, row, t.phase.from, t.phase.v, t.stamp, t.jitter);
    IdentityKeeps(t.phase.eff.row, row);
    ToldAtFirst(policy, row, t.phase.from, t.phase.v, t.stamp, t.jitter);
  }
}
