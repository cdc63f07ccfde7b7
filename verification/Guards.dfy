/** The version guard alone keeps every interleaving sound, with or without the wallet lock. */
module Guards {
  import opened Base
  import opened Domain
  import opened Tables
  import opened Steps
  import opened Decisions
  import opened Serial
  import opened Openings
  import opened Queue
  import opened Commands
  import opened Runs
  import opened Interleaving

  /* ---- one unit of work on its own ---- */

  /** What a decision tells about the job it came from. */
  lemma DecisionFollows(policy: Policy, t: Txn, row: Transaction, from: Wallet, v: Verdict)
    requires Normalised(policy)
    ensures var r := Decide(policy, t, row, from, v);
            r.Ok? ==>
              && Follows(r.value, row, t.job.VisitJob?, from)
              && (row.kind.IsReversal() && r.value.move.Some? ==>
                    v.Apply? && r.value.row.resolvedReferenceId == v.reference.id)
              && (t.job.VisitJob? && r.value.move.Some? ==>
                    v.Apply? && r.value.row.resolvedReferenceId == v.reference.id)
  {
    hide SettleReversal, Park, KeepWaiting, SettleDirect;
    WaitingFollows(policy, row, from, t.stamp.now, t.jitter);
    match t.job
    case SubmitJob(_) =>
      if row.kind.IsReversal() {
        AppliesVerdict(row, false, from, v, Park(policy, row, from, t.stamp.now, t.jitter), t.stamp.entryId,
                       t.stamp.now);
      } else {
        DirectFollows(row, from, t.stamp.entryId, t.stamp.now);
      }
    case VisitJob(_) =>
      AppliesVerdict(row, true, from, v, KeepWaiting(policy, row, from, t.stamp.now, t.jitter), t.stamp.entryId,
                     t.stamp.now);
  }

  lemma AppliesVerdict(row: Transaction, known: bool, from: Wallet, v: Verdict, waiting: Result<Effect>,
                       entryId: string, at: Instant)
    requires waiting.Ok? ==> Follows(waiting.value, row, known, from) && waiting.value.move.None?
    ensures var r := SettleReversal(row, known, from, v, waiting, entryId, at);
            r.Ok? ==> Follows(r.value, row, known, from)
                      && (r.value.move.Some? ==> v.Apply? && r.value.row.resolvedReferenceId == v.reference.id)
  {
    hide Undo, RejectWith, Follows, Finish;
    match v
    case Wait =>
    case Refuse(code) => RejectionFollows(row, known, from, code, at);
    case Apply(_, _) =>
      var undone := Undo(row, from, v, entryId, at);
      if undone.Ok? {
        UndoFollows(row, known, from, v, entryId, at);
        FinishKeeps(undone.value.0, known, from, Some(undone.value.1));
      } else {
        UndoFailsByRule(row, from, v, entryId, at);
        RejectionFollows(row, known, from, undone.error.code, at);
      }
  }

  /** The decision is proper wherever its reads still stand. */
  lemma DecisionIsProper(policy: Policy, db: Db, t: Txn, row: Transaction, from: Wallet, v: Verdict)
    requires Normalised(policy) && Inv(db) && ClaimStands(db, t) && Starts(t, row) && WalletRead(db, row, from)
    requires Grounded(db.transactions, row, v) && NonZero(v)
    ensures var r := Decide(policy, t, row, from, v);
            r.Ok? ==> Proper(db, r.value)
  {
    hide Proper, SettleSubmit, SettleVisit, Grounded, BooksBalance, LogComplete, LedgerExplained, Unique,
      ReversalsResolve, SchemaAccepts, StatusFits, PendingRow, WalletAdvances;
    match t.job
    case SubmitJob(p) =>
      NewRowShape(t.stamp.transactionId, p, t.stamp.now);
      NewRowPlayer(t.stamp.transactionId, p, t.stamp.now);
      NewRowIsPending(t.stamp.transactionId, p, t.stamp.now, db.wallets);
      SubmitIsProper(policy, db, row, from, v, t.stamp, t.jitter);
    case VisitJob(claimed) =>
      assert RowFits(db.transactions[claimed.id], db.wallets);
      VisitIsProper(policy, db, row, from, v, t.stamp, t.jitter);
  }

  lemma NewRowPlayer(id: string, p: Request, at: Instant)
    requires NewExternal(id, p, at).Ok?
    ensures NewExternal(id, p, at).value.playerId == p.playerId
  {
  }

  /** A unit of work that is about to commit is sound, whatever the others committed meanwhile. */
  lemma ReadyToCommitIsSound(policy: Policy, db: Db, t: Txn)
    requires Normalised(policy) && Inv(db) && LiveOk(policy, db, t)
    requires t.phase.Writing? && t.phase.done >= 4
    ensures Sound(db, t.phase.eff, t.stamp)
  {
    hide Inv, Proper, Decide, Grounded, NonZero, WalletRead, Starts, ClaimStands, FreshIdentity, FreshEntry, FreshEvent,
      Unreversed;
    var row, from, v := t.phase.row, t.phase.from, t.phase.v;
    DecisionFollows(policy, t, row, from, v);
    DecisionIsProper(policy, db, t, row, from, v);
  }

  /* ---- its own statements ---- */

  lemma LookupIsTrue(policy: Policy, db: Db, t: Txn)
    requires Normalised(policy) && Inv(db) && LiveOk(policy, db, t) && (t.phase.Arriving? || t.phase.Begun?)
    requires Statement(policy, db, t).Go?
    ensures LiveOk(policy, db, Statement(policy, db, t).next)
  {
    hide Inv, NewExternal, FindByBusinessId;
    if t.phase.Begun? {
      var p := t.job.request;
      NewRowFails(t.stamp.transactionId, p, t.stamp.now);
      var found := FindByBusinessId(db.transactions, p.providerId, p.externalId);
      if found.Some? { FoundHasItsId(db, p.providerId, p.externalId); }
    }
  }

  lemma FoundHasItsId(db: Db, provider: string, external: string)
    requires Inv(db)
    ensures var found := FindByBusinessId(db.transactions, provider, external);
            found.Some? ==> found.value.id in db.transactions && db.transactions[found.value.id] == found.value
                            && IsBusiness(found.value, provider, external)
  {
    hide BooksBalance, LogComplete, LedgerExplained, Unique, ReversalsResolve, RowFits;
  }

  lemma WalletReadIsTrue(policy: Policy, db: Db, t: Txn)
    requires Normalised(policy) && Inv(db) && LiveOk(policy, db, t) && t.phase.Ready?
    requires Statement(policy, db, t).Go?
    ensures LiveOk(policy, db, Statement(policy, db, t).next)
  {
    hide BooksBalance, LogComplete, LedgerExplained, Unique, ReversalsResolve, SchemaAccepts, StatusFits, NewExternal;
    if t.job.VisitJob? { assert RowFits(db.transactions[t.phase.row.id], db.wallets); }
  }

  /** What a delivery's row was when it was built. */
  lemma DeliveredRow(policy: Policy, db: Db, t: Txn, row: Transaction)
    requires Normalised(policy) && Starts(t, row) && t.job.SubmitJob?
    ensures row.id != "" && row.status.Pending? && row.money.IsInitialised() && row.money == t.job.request.money
    ensures row.kind == t.job.request.kind && row.walletId == t.job.request.walletId
    ensures row.playerId == t.job.request.playerId
  {
    RequestAccepted(t.stamp.transactionId, t.job.request, t.stamp.now);
  }

  /** The only decision that fails is on a stray loss, and it will go on failing. */
  lemma FailureLasts(policy: Policy, db: Db, t: Txn, row: Transaction, from: Wallet, v: Verdict)
    requires Normalised(policy) && Starts(t, row) && WalletRead(db, row, from) && NonZero(v)
    requires t.job.SubmitJob? && 0 < t.stamp.now && Decide(policy, t, row, from, v).Err?
    ensures LastingRefusal(db, t, Decide(policy, t, row, from, v).error)
  {
    hide NewExternal, SettleSubmit, Starts;
    DeliveredRow(policy, db, t, row);
    OnlyStrayLossIsUnrecorded(policy, row, from, v, t.stamp, t.jitter);
    StrayLossIsMismatch(policy, row, from, v, t.stamp, t.jitter);
    assert NewExternal(t.stamp.transactionId, t.job.request, t.stamp.now) == Ok(row) by { StartsWith(t, row); }
  }

  lemma StartsWith(t: Txn, row: Transaction)
    requires Starts(t, row) && t.job.SubmitJob?
    ensures NewExternal(t.stamp.transactionId, t.job.request, t.stamp.now) == Ok(row)
  {
  }

  lemma StrayLossIsMismatch(policy: Policy, row: Transaction, from: Wallet, v: Verdict, stamp: Stamp, jitter: nat)
    requires Normalised(policy) && row.kind.Loss? && row.money.IsInitialised() && from.balance.IsInitialised()
    requires row.money.currency != from.balance.currency
    ensures SettleSubmit(policy, row, from, v, stamp, jitter) == Err(Domain(CurrencyMismatch))
  {
  }

  lemma ReferenceReadIsTrue(policy: Policy, db: Db, t: Txn)
    requires Normalised(policy) && Inv(db) && LiveOk(policy, db, t) && t.phase.Holding? && t.phase.row.kind.IsReversal()
    requires Statement(policy, db, t).Go?
    ensures LiveOk(policy, db, Statement(policy, db, t).next)
  {
    hide Inv, FindByBusinessId, Judge, NewExternal;
    JudgeIsGrounded(db, t.phase.row);
  }

  /** A decision taken on true reads leaves a true unit of work. */
  lemma DecisionIsTrue(policy: Policy, db: Db, t: Txn, row: Transaction, from: Wallet, v: Verdict)
    requires Normalised(policy) && LiveOk(policy, db, t) && !t.phase.Arriving? && Starts(t, row)
    requires WalletRead(db, row, from)
    requires Grounded(db.transactions, row, v) && NonZero(v)
    requires v.Apply? ==> Unreversed(db.transactions, v.reference.id)
    requires Settling(policy, t, row, from, v).Go?
    requires t.job.VisitJob? ==> row.kind.IsReversal()
    ensures LiveOk(policy, db, Settling(policy, t, row, from, v).next)
  {
    hide SettleSubmit, SettleVisit, NewExternal, Unreversed, Judge, StillAbsorbed, LastingRefusal, NonZero;
    DecisionFollows(policy, t, row, from, v);
    if Decide(policy, t, row, from, v).Err? {
      FailureLasts(policy, db, t, row, from, v);
      LastingIsAbsorbed(db, t, Decide(policy, t, row, from, v).error);
    }
  }

  lemma LastingIsAbsorbed(db: Db, t: Txn, e: Error)
    requires LastingRefusal(db, t, e)
    ensures StillAbsorbed(db, t.(phase := Absorbed(RefusedFor(e))), RefusedFor(e))
  {
  }

  lemma DecidingIsTrue(policy: Policy, db: Db, t: Txn)
    requires Normalised(policy) && Inv(db) && LiveOk(policy, db, t)
    requires t.phase.Judged? || (t.phase.Holding? && !t.phase.row.kind.IsReversal())
    requires Statement(policy, db, t).Go?
    ensures LiveOk(policy, db, Statement(policy, db, t).next)
  {
    hide Inv, FindByBusinessId, Decide, Judge, Unreversed, NewExternal, Settling;
    ClaimIsReversal(db, t);
    var row, from := t.phase.row, t.phase.from;
    if t.phase.Holding? {
      DecisionIsTrue(policy, db, t, row, from, Wait);
    } else {
      var v := t.phase.v;
      DecisionIsTrue(policy, db, t, row, from,
                     if v.Apply? && !Unreversed(db.transactions, v.reference.id) then Refuse(AlreadyReversed) else v);
    }
  }

  lemma ClaimIsReversal(db: Db, t: Txn)
    requires Inv(db) && ClaimStands(db, t)
    ensures t.job.VisitJob? ==> t.job.claimed.kind.IsReversal()
  {
    if t.job.VisitJob? { assert RowFits(db.transactions[t.job.claimed.id], db.wallets); }
  }

  lemma JudgeIsGrounded(db: Db, row: Transaction)
    requires Inv(db)
    ensures var v := Judge(row, FindByBusinessId(db.transactions, row.providerId, row.referenceExternalId));
            Grounded(db.transactions, row, v) && NonZero(v)
  {
    hide BooksBalance, LogComplete, LedgerExplained, Unique, ReversalsResolve, SchemaAccepts, StatusFits;
    VerdictHasCode(row, FindByBusinessId(db.transactions, row.providerId, row.referenceExternalId));
  }

  lemma WritesAreTrue(policy: Policy, db: Db, t: Txn)
    requires Normalised(policy) && Inv(db) && LiveOk(policy, db, t) && t.phase.Writing?
    requires Statement(policy, db, t).Go?
    ensures LiveOk(policy, db, Statement(policy, db, t).next)
  {
    hide Inv, Grounded, NonZero, FreshIdentity, FreshEntry, FreshEvent, StillUndone, NewExternal, SettleSubmit,
      SettleVisit;
    var eff := t.phase.eff;
    DecisionFollows(policy, t, t.phase.row, t.phase.from, t.phase.v);
  }

  /* ---- other people's commits ---- */

  /** What is stored stays, and no wallet changes its owner or currency. */
  lemma AbsorbedStays(db: Db, db': Db, t: Txn)
    requires Extends(db, db') && t.phase.Absorbed? && StillAbsorbed(db, t, t.phase.because)
    ensures StillAbsorbed(db', t, t.phase.because)
  {
    hide NewExternal;
    match t.phase.because
    case AlreadyStored(row) =>
      assert RowAdvances(db.transactions[row.id], db'.transactions[row.id]);
    case RefusedFor(e) =>
      var w := t.job.request.walletId;
      if w in db.wallets { assert WalletAdvances(db.wallets[w], db'.wallets[w]); }
  }

  /** It has read the wallet. */
  predicate HasRead(t: Txn) { t.phase.Holding? || t.phase.Judged? || t.phase.Writing? }

  lemma WalletReadStays(db: Db, db': Db, row: Transaction, from: Wallet)
    requires Extends(db, db') && WalletRead(db, row, from)
    ensures WalletRead(db', row, from)
  {
    assert WalletAdvances(db.wallets[row.walletId], db'.wallets[row.walletId]);
  }

  lemma GroundsStay(db: Db, db': Db, row: Transaction, v: Verdict)
    requires Extends(db, db') && Grounded(db.transactions, row, v)
    ensures Grounded(db'.transactions, row, v)
  {
    if v.Apply? {
      AppliedIsProcessed(row, v.reference);
      assert RowAdvances(db.transactions[v.reference.id], db'.transactions[v.reference.id]);
    }
  }

  lemma AppliedIsProcessed(row: Transaction, reference: Transaction)
    requires Judge(row, Some(reference)).Apply?
    ensures reference.status.Processed? && reference.walletId == row.walletId
  {
  }

  /** A commit on the same wallet moves its version; any other commit undoes something else. */
  lemma UndoneStays(db: Db, mine: Effect, v: Verdict, theirs: Effect, stamp: Stamp, row: Transaction)
    requires Sound(db, theirs, stamp) && |theirs.events| <= 2 && StillUndone(db, mine)
    requires WalletRead(db, row, mine.from) && mine.row.walletId == row.walletId
    requires mine.move.Some? && mine.row.kind.IsReversal() ==>
               v.Apply? && mine.row.resolvedReferenceId == v.reference.id && Grounded(db.transactions, row, v)
    ensures StillUndone(Commit(db, theirs, stamp), mine)
  {
    hide RowFits, EventsOf, DirectionOf, FreshIdentity, FreshEntry, FreshEvent, FindByBusinessId, RowAdvances;
    var db' := Commit(db, theirs, stamp);
    var w := mine.row.walletId;
    var moved := theirs.move.Some? && theirs.row.walletId == w;
    assert moved ==> db'.wallets[w].version == db.wallets[w].version + 1;
    if mine.move.Some? && mine.row.kind.IsReversal() && db.wallets[w] == mine.from && !moved {
      AppliedIsProcessed(row, v.reference);
      forall id | id in db'.transactions
        ensures !IsProcessedReversalOf(db'.transactions[id], v.reference.id)
      {
        if id != theirs.row.id {
          assert !IsProcessedReversalOf(db.transactions[id], v.reference.id);
        } else if IsProcessedReversalOf(theirs.row, v.reference.id) {
          ProperReversalMoves(db, theirs, v.reference.id);
        }
      }
    }
  }

  /** A commit that undoes an operation moves money, on that operation's wallet. */
  lemma ProperReversalMoves(db: Db, eff: Effect, reference: string)
    requires Proper(db, eff) && IsProcessedReversalOf(eff.row, reference)
    ensures eff.move.Some? && reference in db.transactions && db.transactions[reference].walletId == eff.row.walletId
  {
    hide EventsOf, DirectionOf, RowAdvances, SchemaAccepts, Moved;
  }

  lemma KeysStay(db: Db, mine: Txn, theirs: Txn)
    requires mine.phase.Writing? && theirs.phase.Writing? && theirs.phase.done >= 4
    requires Written(db, mine.phase.eff, mine.stamp, mine.phase.done)
    requires Sound(db, theirs.phase.eff, theirs.stamp) && |theirs.phase.eff.events| <= 2
    requires Compatible(false, theirs, mine)
    requires Updated(theirs) && Updated(mine) ==> theirs.phase.row.walletId != mine.phase.row.walletId
    requires theirs.phase.eff.row.walletId == theirs.phase.row.walletId
    requires mine.phase.eff.row.walletId == mine.phase.row.walletId
    ensures Written(Commit(db, theirs.phase.eff, theirs.stamp), mine.phase.eff, mine.stamp, mine.phase.done)
  {
    hide Proper, Current, RowAdvances;
    var db' := Commit(db, theirs.phase.eff, theirs.stamp);
    var eff, done := mine.phase.eff, mine.phase.done;
    if Inserted(mine) {
      IdentityStays(db, mine, theirs);
    }
  }

  lemma IdentityStays(db: Db, mine: Txn, theirs: Txn)
    requires Inserted(mine) && theirs.phase.Writing? && theirs.phase.done >= 4
    requires FreshIdentity(db.transactions, mine.phase.eff.row)
    requires Proper(db, theirs.phase.eff) && Compatible(false, theirs, mine)
    ensures FreshIdentity(db.transactions[theirs.phase.eff.row.id := theirs.phase.eff.row], mine.phase.eff.row)
  {
    var x, t := theirs.phase.eff, mine.phase.eff.row;
    if x.known {
      assert !SameBusiness(db.transactions[x.row.id], t) && !SameKey(db.transactions[x.row.id], t);
      SameIdentityClashes(db.transactions[x.row.id], x.row, t);
    }
  }

  /** A claimed row is nobody else's to write. */
  lemma ClaimStays(policy: Policy, locking: bool, db: Db, mine: Txn, theirs: Txn)
    requires Normalised(policy) && LiveOk(policy, db, mine) && LiveOk(policy, db, theirs)
    requires theirs.phase.Writing? && theirs.phase.done >= 4 && Compatible(locking, theirs, mine)
    requires |theirs.phase.eff.events| <= 2
    ensures ClaimStands(Commit(db, theirs.phase.eff, theirs.stamp), mine)
  {
    hide Decide, Grounded, WalletRead, StillUndone;
    DecisionFollows(policy, theirs, theirs.phase.row, theirs.phase.from, theirs.phase.v);
    if mine.job.VisitJob? && !theirs.phase.eff.known {
      assert FreshIdentity(db.transactions, theirs.phase.eff.row);
    }
  }

  lemma CompatibleWithoutLocks(locking: bool, a: Txn, b: Txn)
    requires Compatible(locking, a, b)
    ensures Compatible(false, a, b)
    ensures Updated(a) && Updated(b) ==> a.phase.row.walletId != b.phase.row.walletId
  {
  }

  /** Another unit of work's commit leaves everything this one relies on in place. */
  lemma OthersSurviveCommit(policy: Policy, locking: bool, db: Db, mine: Txn, theirs: Txn)
    requires Normalised(policy) && Inv(db) && LiveOk(policy, db, mine) && LiveOk(policy, db, theirs)
    requires theirs.phase.Writing? && theirs.phase.done >= 4 && Compatible(locking, theirs, mine)
    ensures |theirs.phase.eff.events| <= 2
    ensures LiveOk(policy, Commit(db, theirs.phase.eff, theirs.stamp), mine)
  {
    hide Inv, ClaimStands, Starts, WalletRead, Grounded, NonZero, StillUndone, Written, Decide, Compatible, Sound,
      Extends, Recorded, StillAbsorbed;
    var x := theirs.phase.eff;
    ReadyToCommitIsSound(policy, db, theirs);
    SoundIsShort(db, x, theirs.stamp);
    CommitExtends(db, x, theirs.stamp);
    ClaimStays(policy, locking, db, mine, theirs);
    CompatibleWithoutLocks(locking, theirs, mine);
    DecisionFollows(policy, theirs, theirs.phase.row, theirs.phase.from, theirs.phase.v);
    var db' := Commit(db, x, theirs.stamp);
    if mine.phase.Absorbed? { AbsorbedStays(db, db', mine); }
    if HasRead(mine) {
      WalletReadStays(db, db', mine.phase.row, mine.phase.from);
    }
    if mine.phase.Judged? || mine.phase.Writing? {
      GroundsStay(db, db', mine.phase.row, mine.phase.v);
    }
    if mine.phase.Writing? {
      DecisionFollows(policy, mine, mine.phase.row, mine.phase.from, mine.phase.v);
      UndoneStays(db, mine.phase.eff, mine.phase.v, x, theirs.stamp, mine.phase.row);
      KeysStay(db, mine, theirs);
    }
  }

  /* ---- openings and publishing ---- */

  lemma OpeningAddsOneRow(db: Db, o: Opened, stamp: Stamp)
    requires OpeningAdmitted(db, o, stamp) && (o.credit.Some? ==> Credited(o))
    ensures var db' := CommitOpening(db, o, stamp);
            && db'.inbox == db.inbox
            && (forall w :: w in db.wallets ==> w in db'.wallets && db'.wallets[w] == db.wallets[w])
            && (forall id :: id in db.transactions ==>
                  id in db'.transactions && db'.transactions[id] == db.transactions[id])
            && (forall id :: id in db'.transactions && id !in db.transactions ==>
                  o.credit.Some? && id == o.credit.value.0.id && db'.transactions[id] == o.credit.value.0
                  && db'.transactions[id].origin.Internal? && db'.transactions[id].resolvedReferenceId == "")
  {
    hide EventsOf, Recorded, FreshEntry, FreshEvent;
  }

  lemma OthersSurviveOpening(policy: Policy, db: Db, o: Opened, stamp: Stamp, t: Txn)
    requires Normalised(policy) && LiveOk(policy, db, t) && OpeningAdmitted(db, o, stamp) && OpeningClear(o, stamp, t)
    requires o.credit.Some? ==> Credited(o)
    requires |OpeningEvents(o)| <= 2
    ensures LiveOk(policy, CommitOpening(db, o, stamp), t)
  {
    hide Starts, NonZero, Decide, Extends, OpeningAdmitted, CommitOpening, StillUndone, Written, Grounded, WalletRead,
      Credited, StillAbsorbed;
    var db' := CommitOpening(db, o, stamp);
    OpeningExtends(db, o, stamp);
    OpeningAddsOneRow(db, o, stamp);
    if t.phase.Absorbed? { AbsorbedStays(db, db', t); }
    if HasRead(t) {
      WalletReadStays(db, db', t.phase.row, t.phase.from);
    }
    if t.phase.Judged? || t.phase.Writing? {
      GroundsStay(db, db', t.phase.row, t.phase.v);
    }
    if t.phase.Writing? {
      DecisionFollows(policy, t, t.phase.row, t.phase.from, t.phase.v);
      assert StillUndone(db', t.phase.eff) by { UndoneSurvivesOpening(db, db', o, t); }
      KeysSurviveOpening(db, o, stamp, t);
    }
  }

  lemma UndoneSurvivesOpening(db: Db, db': Db, o: Opened, t: Txn)
    requires t.phase.Writing? && StillUndone(db, t.phase.eff) && WalletRead(db, t.phase.row, t.phase.from)
    requires forall w :: w in db.wallets ==> w in db'.wallets && db'.wallets[w] == db.wallets[w]
    requires forall id :: id in db.transactions ==>
               id in db'.transactions && db'.transactions[id] == db.transactions[id]
    requires forall id :: id in db'.transactions && id !in db.transactions ==>
               db'.transactions[id].resolvedReferenceId == ""
    requires t.phase.eff.row.walletId == t.phase.row.walletId
    requires t.phase.eff.move.Some? && t.phase.eff.row.kind.IsReversal() ==> t.phase.eff.row.resolvedReferenceId != ""
    ensures StillUndone(db', t.phase.eff)
  {
  }

  lemma KeysSurviveOpening(db: Db, o: Opened, stamp: Stamp, t: Txn)
    requires t.phase.Writing? && Written(db, t.phase.eff, t.stamp, t.phase.done)
    requires OpeningAdmitted(db, o, stamp) && OpeningClear(o, stamp, t) && (o.credit.Some? ==> Credited(o))
    requires |OpeningEvents(o)| <= 2
    ensures Written(CommitOpening(db, o, stamp), t.phase.eff, t.stamp, t.phase.done)
  {
    hide EventsOf, RowFits;
  }

  lemma OthersSurvivePublish(policy: Policy, db: Db, outbox: seq<OutboxRow>, t: Txn)
    requires Normalised(policy) && LiveOk(policy, db, t) && Republished(db.outbox, outbox)
    ensures LiveOk(policy, db.(outbox := outbox), t)
  {
    hide Decide;
    forall id
      ensures FreshEvent(db.outbox, id) ==> FreshEvent(outbox, id)
    {
    }
  }

  /* ---- the whole system ---- */

  lemma OnlyCommits(policy: Policy, db: Db, t: Txn)
    requires Normalised(policy) && t.phase.Absorbed?
    ensures Statement(policy, db, t).CommitNow?
  {
  }

  lemma StatementKeeps(policy: Policy, db: Db, t: Txn)
    requires Normalised(policy) && Inv(db) && LiveOk(policy, db, t) && Statement(policy, db, t).Go?
    ensures LiveOk(policy, db, Statement(policy, db, t).next)
  {
    hide Inv, LiveOk, Statement;
    match t.phase
    case Arriving => LookupIsTrue(policy, db, t);
    case Absorbed(_) => OnlyCommits(policy, db, t);
    case Begun => LookupIsTrue(policy, db, t);
    case Ready(_) => WalletReadIsTrue(policy, db, t);
    case Holding(row, _) =>
      if row.kind.IsReversal() { ReferenceReadIsTrue(policy, db, t); } else { DecidingIsTrue(policy, db, t); }
    case Judged(_, _, _) => DecidingIsTrue(policy, db, t);
    case Writing(_, _, _, _, _) => WritesAreTrue(policy, db, t);
  }

  lemma OnlyTheFinishedCommit(policy: Policy, db: Db, t: Txn)
    requires Normalised(policy) && Statement(policy, db, t).CommitNow?
    ensures t.phase.Absorbed? || (t.phase.Writing? && t.phase.done >= 4)
  {
    hide FindByBusinessId, SettleSubmit, SettleVisit, NewExternal, Judge;
  }

  lemma EnterKeeps(policy: Policy, locking: bool, s: System, tid: string, t: Txn)
    requires Normalised(policy) && SystemOk(policy, locking, s) && LiveOk(policy, s.db, t)
    ensures SystemOk(policy, locking, Enter(locking, s, tid, t)) && Enter(locking, s, tid, t).db == s.db
  {
    hide Inv, LiveOk, Compatible;
  }

  lemma LeaveKeeps(policy: Policy, locking: bool, s: System, tid: string)
    requires Normalised(policy) && SystemOk(policy, locking, s)
    ensures SystemOk(policy, locking, s.(live := s.live - {tid}))
  {
    hide Inv, LiveOk, Compatible;
  }

  lemma OthersSurviveMark(policy: Policy, db: Db, message: (string, string), hash: string, now: Instant, t: Txn)
    requires Normalised(policy) && LiveOk(policy, db, t) && (Claimed(t) ==> t.message != Some(message))
    ensures LiveOk(policy, Mark(db, message, hash, now), t)
  {
    hide Decide, NewExternal, FreshIdentity, FreshEntry, FreshEvents, Unreversed;
  }

  /** The effect of a unit of work, before its message is marked. */
  lemma EffectKeeps(policy: Policy, locking: bool, s: System, tid: string)
    requires Normalised(policy) && SystemOk(policy, locking, s) && tid in s.live
    requires s.live[tid].phase.Writing? && s.live[tid].phase.done >= 4
    ensures var t := s.live[tid];
            && Sound(s.db, t.phase.eff, t.stamp) && |t.phase.eff.events| <= 2
            && var after := Commit(s.db, t.phase.eff, t.stamp);
               && Inv(after) && Extends(s.db, after) && after.inbox == s.db.inbox
               && forall o :: o in s.live && o != tid ==> LiveOk(policy, after, s.live[o])
  {
    hide Inv, LiveOk, Compatible, Sound, Extends, Recorded;
    var t := s.live[tid];
    ReadyToCommitIsSound(policy, s.db, t);
    CommitKeepsInvariant(s.db, t.phase.eff, t.stamp);
    CommitExtends(s.db, t.phase.eff, t.stamp);
    forall o | o in s.live && o != tid
      ensures LiveOk(policy, Commit(s.db, t.phase.eff, t.stamp), s.live[o])
    {
      OthersSurviveCommit(policy, locking, s.db, s.live[o], t);
    }
  }

  /** Marking a claimed message keeps the invariant and spares everyone who claimed another. */
  lemma MarkSpares(policy: Policy, db: Db, message: (string, string), hash: string, now: Instant,
                   live: map<string, Txn>, tid: string)
    requires Normalised(policy) && Inv(db) && now != 0 && message !in db.inbox
    requires forall o :: o in live && o != tid ==>
               LiveOk(policy, db, live[o]) && (Claimed(live[o]) ==> live[o].message != Some(message))
    ensures var after := Mark(db, message, hash, now);
            && Inv(after) && Extends(db, after)
            && forall o :: o in live && o != tid ==> LiveOk(policy, after, live[o])
  {
    hide Inv, LiveOk, Extends, Mark;
    MarkKeeps(db, message, hash, now);
    forall o | o in live && o != tid
      ensures LiveOk(policy, Mark(db, message, hash, now), live[o])
    {
      OthersSurviveMark(policy, db, message, hash, now, live[o]);
    }
  }

  lemma MessageFacts(policy: Policy, locking: bool, s: System, tid: string)
    requires Normalised(policy) && SystemOk(policy, locking, s) && tid in s.live
    ensures var t := s.live[tid];
            && (t.phase.Absorbed? ==> t.message.Some?)
            && (t.message.Some? ==> t.job.SubmitJob? && 0 < t.stamp.now)
            && (Claimed(t) ==>
                  && t.message.value !in s.db.inbox
                  && forall o :: o in s.live && o != tid && Claimed(s.live[o]) ==> s.live[o].message != t.message)
  {
    hide Inv, Decide, NewExternal, Held, KeysClash, EventKeys;
    forall o | o in s.live && o != tid && Claimed(s.live[o]) && Claimed(s.live[tid])
      ensures s.live[o].message != s.live[tid].message
    {
      assert Compatible(locking, s.live[tid], s.live[o]);
    }
  }

  /** A commit is sound, keeps the invariant, and spares everyone else. */
  lemma CommitKeeps(policy: Policy, locking: bool, s: System, tid: string)
    requires Normalised(policy) && SystemOk(policy, locking, s) && tid in s.live
    requires Statement(policy, s.db, s.live[tid]).CommitNow?
    ensures var t, s' := s.live[tid], Step(policy, locking, s, Advance(tid));
            && (t.phase.Absorbed? || t.phase.Writing?)
            && (t.phase.Writing? ==> Sound(s.db, t.phase.eff, t.stamp) && |t.phase.eff.events| <= 2)
            && s' == System(Outcome(s.db, t), s.live - {tid})
            && SystemOk(policy, locking, s') && Extends(s.db, s'.db)
  {
    hide Inv, LiveOk, Compatible, Statement, Sound, Extends, Commit, Mark;
    var t := s.live[tid];
    OnlyTheFinishedCommit(policy, s.db, t);
    MessageFacts(policy, locking, s, tid);
    ExtendsReflexive(s.db);
    if t.phase.Writing? { EffectKeeps(policy, locking, s, tid); }
    var after := if t.phase.Writing? then Commit(s.db, t.phase.eff, t.stamp) else s.db;
    if t.message.Some? {
      MarkSpares(policy, after, t.message.value, t.job.request.payloadHash, t.stamp.now, s.live, tid);
      ExtendsTransitive(s.db, after, Outcome(s.db, t));
    }
  }

  lemma BeginKeeps(policy: Policy, locking: bool, s: System, e: Turn)
    requires Normalised(policy) && SystemOk(policy, locking, s) && (e.BeginSubmit? || e.BeginDelivery? || e.BeginVisit?)
    ensures SystemOk(policy, locking, Step(policy, locking, s, e)) && Step(policy, locking, s, e).db == s.db
  {
    hide Inv, Compatible, NewExternal;
    match e
    case BeginSubmit(tid, request, stamp, jitter) =>
      EnterKeeps(policy, locking, s, tid, Txn(SubmitJob(request), None, stamp, jitter, Begun));
    case BeginDelivery(tid, message, request, stamp, jitter) =>
      if 0 < stamp.now {
        EnterKeeps(policy, locking, s, tid, Txn(SubmitJob(request), Some(message), stamp, jitter, Arriving));
      }
    case BeginVisit(tid, id, stamp, jitter) =>
      if Due(s.db, id, stamp.now) {
        var row := s.db.transactions[id];
        RowHasItsId(s.db, id);
        EnterKeeps(policy, locking, s, tid, Txn(VisitJob(row), None, stamp, jitter, Ready(row)));
      }
  }

  lemma RowHasItsId(db: Db, id: string)
    requires Inv(db) && id in db.transactions
    ensures db.transactions[id].id == id
  {
  }

  lemma OpenNowKeeps(policy: Policy, locking: bool, s: System, e: Turn)
    requires Normalised(policy) && SystemOk(policy, locking, s) && e.OpenNow?
    ensures SystemOk(policy, locking, Step(policy, locking, s, e)) && Extends(s.db, Step(policy, locking, s, e).db)
  {
    hide Inv, LiveOk, Compatible, Open, Extends, OpeningAdmitted, CommitOpening, OpeningClear, Credited, EventsOf;
    ExtendsReflexive(s.db);
    var o := Open(e.playerId, e.initial, e.walletId, e.stamp);
    var s' := Step(policy, locking, s, e);
    if s'.db != s.db {
      OpenShape(e.playerId, e.initial, e.walletId, e.stamp);
      OpeningKeepsInvariant(s.db, e.playerId, e.initial, e.walletId, e.stamp);
      assert |OpeningEvents(o.value)| <= 2 by { OpeningIsShort(o.value); }
      forall t | t in s.live
        ensures LiveOk(policy, s'.db, s.live[t])
      {
        OthersSurviveOpening(policy, s.db, o.value, e.stamp, s.live[t]);
      }
    }
  }

  lemma OpeningIsShort(o: Opened)
    ensures |OpeningEvents(o)| <= 2
  {
  }

  /**
   * One statement of anyone, anywhere, keeps the system sound and only moves history
   * forward. The lock plays no part: `locking` is either.
   */
  lemma StepKeeps(policy: Policy, locking: bool, s: System, e: Turn)
    requires Normalised(policy) && SystemOk(policy, locking, s)
    ensures SystemOk(policy, locking, Step(policy, locking, s, e)) && Extends(s.db, Step(policy, locking, s, e).db)
  {
    hide Inv, LiveOk, Compatible, Statement, Extends, Republished, AllCompatible, Commit, Enter;
    ExtendsReflexive(s.db);
    match e
    case BeginSubmit(_, _, _, _) => BeginKeeps(policy, locking, s, e);
    case BeginDelivery(_, _, _, _, _) => BeginKeeps(policy, locking, s, e);
    case BeginVisit(_, _, _, _) => BeginKeeps(policy, locking, s, e);
    case Advance(tid) =>
      if tid in s.live {
        match Statement(policy, s.db, s.live[tid])
        case End => LeaveKeeps(policy, locking, s, tid);
        case Go(next) =>
          StatementKeeps(policy, s.db, s.live[tid]);
          EnterKeeps(policy, locking, s, tid, next);
        case CommitNow => CommitKeeps(policy, locking, s, tid);
      }
    case Crash(tid) => LeaveKeeps(policy, locking, s, tid);
    case OpenNow(_, _, _, _) => OpenNowKeeps(policy, locking, s, e);
    case PublishNow(outbox) =>
      if Republished(s.db.outbox, outbox) {
        PublishKeeps(s.db, outbox);
        forall t | t in s.live
          ensures LiveOk(policy, s.db.(outbox := outbox), s.live[t])
        {
          OthersSurvivePublish(policy, s.db, outbox, s.live[t]);
        }
      }
    case AbsorbNow(_, _, _) => AbsorbKeeps(policy, locking, s, e);
  }

  lemma AbsorbKeeps(policy: Policy, locking: bool, s: System, e: Turn)
    requires Normalised(policy) && SystemOk(policy, locking, s) && e.AbsorbNow?
    ensures SystemOk(policy, locking, Step(policy, locking, s, e)) && Extends(s.db, Step(policy, locking, s, e).db)
  {
    hide Inv, LiveOk, Compatible, Extends, Parse, PayloadHash, Mark;
    ExtendsReflexive(s.db);
    var s' := Step(policy, locking, s, e);
    if s' != s {
      MarkKeeps(s.db, e.message, PayloadHash(e.command), e.now);
      forall t | t in s.live
        ensures LiveOk(policy, s'.db, s.live[t])
      {
        OthersSurviveMark(policy, s.db, e.message, PayloadHash(e.command), e.now, s.live[t]);
      }
    }
  }

  /**
   * Every interleaving of any number of units of work, with or without the wallet
   * lock, keeps the invariant: no update is lost and nothing is undone twice.
   */
  lemma {:induction false} EveryInterleavingIsSound(policy: Policy, locking: bool, s: System, es: seq<Turn>)
    requires Normalised(policy) && SystemOk(policy, locking, s)
    ensures SystemOk(policy, locking, History(policy, locking, s, es))
    ensures Inv(History(policy, locking, s, es).db) && Extends(s.db, History(policy, locking, s, es).db)
    decreases |es|
  {
    hide SystemOk, Inv, Extends, Step;
    if es == [] {
      ExtendsReflexive(s.db);
      assert Inv(s.db) by { SystemIsSound(policy, locking, s); }
    } else {
      var next := Step(policy, locking, s, es[0]);
      StepKeeps(policy, locking, s, es[0]);
      EveryInterleavingIsSound(policy, locking, next, es[1..]);
      ExtendsTransitive(s.db, next.db, History(policy, locking, next, es[1..]).db);
    }
  }

  lemma SystemIsSound(policy: Policy, locking: bool, s: System)
    requires Normalised(policy) && SystemOk(policy, locking, s)
    ensures Inv(s.db)
  {
  }

  /** Interleavings start from any sound database with nothing in flight. */
  lemma IdleSystemIsSound(policy: Policy, locking: bool, db: Db)
    requires Normalised(policy) && Inv(db)
    ensures SystemOk(policy, locking, System(db, map[]))
  {
  }

  /**
   * Once a message's handling is committed, in every later state of every interleaving
   * it is recorded and no unit of work holds it: it can never take effect again.
   */
  lemma MessageIsHandledOnce(policy: Policy, locking: bool, s: System, tid: string, es: seq<Turn>, other: string)
    requires Normalised(policy) && SystemOk(policy, locking, s) && tid in s.live
    requires Statement(policy, s.db, s.live[tid]).CommitNow? && s.live[tid].message.Some?
    ensures var m := s.live[tid].message.value;
            var later := History(policy, locking, Step(policy, locking, s, Advance(tid)), es);
            && m !in s.db.inbox
            && m in later.db.inbox && later.db.inbox[m].completedAt != 0
            && (other in later.live && Claimed(later.live[other]) ==> later.live[other].message != Some(m))
  {
    hide Inv, LiveOk, Compatible, Statement, History, Commit;
    var t, next := s.live[tid], Step(policy, locking, s, Advance(tid));
    CommitKeeps(policy, locking, s, tid);
    MessageFacts(policy, locking, s, tid);
    OnlyTheFinishedCommit(policy, s.db, t);
    EveryInterleavingIsSound(policy, locking, next, es);
    var later := History(policy, locking, next, es);
    assert later.db.inbox[t.message.value] == next.db.inbox[t.message.value];
    if other in later.live { MessageFacts(policy, locking, later, other); }
  }
}
