/** What the wallet lock freezes: a unit of work that holds it acts on reads that are still true. */
module Locking {
  import opened Base
  import opened Money
  import opened Domain
  import opened Commands
  import opened Tables
  import opened Steps
  import opened Decisions
  import opened Serial
  import opened Openings
  import opened Queue
  import opened Interleaving
  import opened Guards
  import opened ExactlyOnce

  /* ---- what the lock freezes ---- */

  /** The reference a reversal names lives on another wallet: it can only mismatch. */
  ghost predicate Elsewhere(db: Db, row: Transaction) {
    var found := FindByBusinessId(db.transactions, row.providerId, row.referenceExternalId);
    found.Some? && found.value.walletId != row.walletId
  }

  ghost predicate JudgedRight(db: Db, row: Transaction, v: Verdict) {
    || v == Judge(row, FindByBusinessId(db.transactions, row.providerId, row.referenceExternalId))
    || (v.Wait? && Elsewhere(db, row))
  }

  ghost predicate ResolvedRight(db: Db, row: Transaction, v: Verdict) {
    v == Resolve(db.transactions, row) || (v.Wait? && Elsewhere(db, row))
  }

  /** What a unit of work that holds the lock read is still what is committed. */
  ghost predicate UpToDate(db: Db, t: Txn) {
    match t.phase
    case Arriving => true
    case Absorbed(_) => true
    case Begun => true
    case Ready(_) => true
    case Holding(row, from) => row.walletId in db.wallets && db.wallets[row.walletId] == from
    case Judged(row, from, v) =>
      row.walletId in db.wallets && db.wallets[row.walletId] == from && JudgedRight(db, row, v)
    case Writing(row, from, v, _, _) =>
      && row.walletId in db.wallets && db.wallets[row.walletId] == from
      && (row.kind.IsReversal() ==> ResolvedRight(db, row, v))
  }

  ghost predicate LockedOk(policy: Policy, s: System)
    requires Normalised(policy)
  {
    SystemOk(policy, true, s) && forall tid :: tid in s.live ==> UpToDate(s.db, s.live[tid])
  }

  lemma OwnStatementIsUpToDate(policy: Policy, db: Db, t: Txn)
    requires Normalised(policy) && LiveOk(policy, db, t) && UpToDate(db, t)
    requires Statement(policy, db, t).Go?
    ensures UpToDate(db, Statement(policy, db, t).next)
  {
    hide FindByBusinessId, Judge, Unreversed, SettleSubmit, SettleVisit, NewExternal, Written, StillUndone, Grounded;
    if t.phase.Judged? { JudgeNamesWhatItFound(db, t.phase.row); }
  }

  lemma JudgeNamesWhatItFound(db: Db, row: Transaction)
    ensures var found := FindByBusinessId(db.transactions, row.providerId, row.referenceExternalId);
            Judge(row, found).Apply? ==> found == Some(Judge(row, found).reference)
  {
    hide FindByBusinessId;
  }

  /* ---- a commit on another wallet ---- */

  /** How one row, on another wallet, changes what a lookup finds. */
  lemma LookupAfterCommit(rows: Rows, t: Transaction, p: string, e: string)
    requires Unique(rows) && Unique(rows[t.id := t])
    requires t.id in rows ==> rows[t.id].Identity() == t.Identity()
    ensures var before, after := FindByBusinessId(rows, p, e), FindByBusinessId(rows[t.id := t], p, e);
            || after == before
            || (after == Some(t) && (if t.id in rows then before == Some(rows[t.id]) else before == None))
  {
    var rows' := rows[t.id := t];
    var before, after := FindByBusinessId(rows, p, e), FindByBusinessId(rows', p, e);
    if IsBusiness(t, p, e) {
      assert rows'[t.id] == t;
      FoundIsUnique(rows', t.id);
      if t.id in rows {
        IdentityKeeps(rows[t.id], t);
        FoundIsUnique(rows, t.id);
      } else {
        forall id | id in rows
          ensures !IsBusiness(rows[id], p, e)
        {
          assert !Clash(rows'[id], rows'[t.id]);
        }
      }
    } else {
      if t.id in rows { IdentityKeeps(rows[t.id], t); }
      assert forall id :: id in rows' && id != t.id ==> id in rows && rows'[id] == rows[id];
      if before.Some? {
        var id :| id in rows && rows[id] == before.value && IsBusiness(rows[id], p, e);
        assert rows'[id] == rows[id];
        FoundIsUnique(rows', id);
      }
    }
  }

  lemma WaitsForParked(row: Transaction, found: Option<Transaction>)
    requires found.Some? ==> found.value.status.PendingReference?
    ensures Judge(row, found) == Wait
  {
  }

  lemma CommitShape(db: Db, eff: Effect, stamp: Stamp)
    requires Inv(db) && Sound(db, eff, stamp)
    ensures |eff.events| <= 2
    ensures Commit(db, eff, stamp).transactions == db.transactions[eff.row.id := eff.row]
    ensures Unique(db.transactions) && Unique(db.transactions[eff.row.id := eff.row])
    ensures eff.row.id in db.transactions ==>
              db.transactions[eff.row.id].Identity() == eff.row.Identity()
              && db.transactions[eff.row.id].status.PendingReference?
  {
    hide LogComplete, BooksBalance, LedgerExplained, ReversalsResolve, RowFits, Clash, EventsOf, Moved, DirectionOf,
      Undoes, Recorded;
    SoundIsShort(db, eff, stamp);
    if !eff.known { UnseenRow(db, eff, stamp); }
    RowsKept(db, eff, stamp);
  }

  /** Someone else's commit, on another wallet, leaves the judgement right. */
  lemma JudgementStays(db: Db, row: Transaction, v: Verdict, eff: Effect, stamp: Stamp)
    requires Inv(db) && Sound(db, eff, stamp) && |eff.events| <= 2 && eff.row.walletId != row.walletId
    requires JudgedRight(db, row, v)
    ensures JudgedRight(Commit(db, eff, stamp), row, v)
  {
    hide Inv, Sound, Unique, FindByBusinessId, Judge, Recorded;
    CommitShape(db, eff, stamp);
    LookupAfterCommit(db.transactions, eff.row, row.providerId, row.referenceExternalId);
    var found := FindByBusinessId(db.transactions, row.providerId, row.referenceExternalId);
    if found.None? || found.value.status.PendingReference? { WaitsForParked(row, found); }
  }

  lemma ResolutionStays(db: Db, row: Transaction, v: Verdict, eff: Effect, stamp: Stamp)
    requires Inv(db) && Sound(db, eff, stamp) && |eff.events| <= 2 && eff.row.walletId != row.walletId
    requires ResolvedRight(db, row, v)
    ensures ResolvedRight(Commit(db, eff, stamp), row, v)
  {
    hide Inv, Sound, Unique, FindByBusinessId, Judge, Recorded, Unreversed;
    CommitShape(db, eff, stamp);
    var db' := Commit(db, eff, stamp);
    LookupAfterCommit(db.transactions, eff.row, row.providerId, row.referenceExternalId);
    var found := FindByBusinessId(db.transactions, row.providerId, row.referenceExternalId);
    var j := Judge(row, found);
    if found.None? || found.value.status.PendingReference? { WaitsForParked(row, found); }
    if j.Apply? {
      JudgeNamesWhatItFound(db, row);
      UndoingElsewhere(db, row, j.reference, eff, stamp);
    }
  }

  /** A commit on another wallet does not undo a reference on this one. */
  lemma UndoingElsewhere(db: Db, row: Transaction, reference: Transaction, eff: Effect, stamp: Stamp)
    requires Inv(db) && Sound(db, eff, stamp) && |eff.events| <= 2 && eff.row.walletId != row.walletId
    requires FindByBusinessId(db.transactions, row.providerId, row.referenceExternalId) == Some(reference)
    requires Judge(row, Some(reference)).Apply?
    ensures Unreversed(Commit(db, eff, stamp).transactions, reference.id) == Unreversed(db.transactions, reference.id)
  {
    hide LogComplete, BooksBalance, LedgerExplained, ReversalsResolve, RowFits, Clash, Proper, Current, Fresh, Judge,
      Recorded;
    AppliedIsProcessed(row, reference);
    CommitShape(db, eff, stamp);
    var rows, rows' := db.transactions, Commit(db, eff, stamp).transactions;
    assert reference.id in rows && rows[reference.id] == reference;
    assert !IsProcessedReversalOf(eff.row, reference.id) by {
      if IsProcessedReversalOf(eff.row, reference.id) { ProperReversalMoves(db, eff, reference.id); }
    }
    if Unreversed(rows', reference.id) {
      forall id | id in rows
        ensures !IsProcessedReversalOf(rows[id], reference.id)
      {
        assert id != eff.row.id ==> rows'[id] == rows[id];
      }
    }
  }

  lemma LockKeepsWalletsApart(policy: Policy, db: Db, mine: Txn, theirs: Txn)
    requires Normalised(policy) && LiveOk(policy, db, theirs) && Compatible(true, theirs, mine)
    requires theirs.phase.Writing? && HasRead(mine)
    ensures theirs.phase.eff.row.walletId != mine.phase.row.walletId
  {
    hide Written, StillUndone, Grounded, WalletRead, Starts, ClaimStands;
    DecisionFollows(policy, theirs, theirs.phase.row, theirs.phase.from, theirs.phase.v);
  }

  lemma UpToDateAfterCommit(policy: Policy, db: Db, mine: Txn, theirs: Txn)
    requires Normalised(policy) && Inv(db) && LiveOk(policy, db, theirs) && UpToDate(db, mine)
    requires theirs.phase.Writing? && theirs.phase.done >= 4 && Compatible(true, theirs, mine)
    ensures |theirs.phase.eff.events| <= 2
    ensures UpToDate(Commit(db, theirs.phase.eff, theirs.stamp), mine)
  {
    hide Inv, LiveOk, Compatible, Sound, JudgedRight, ResolvedRight, Recorded;
    var x := theirs.phase.eff;
    ReadyToCommitIsSound(policy, db, theirs);
    SoundIsShort(db, x, theirs.stamp);
    if HasRead(mine) {
      LockKeepsWalletsApart(policy, db, mine, theirs);
      if mine.phase.Judged? { JudgementStays(db, mine.phase.row, mine.phase.v, x, theirs.stamp); }
      if mine.phase.Writing? && mine.phase.row.kind.IsReversal() {
        ResolutionStays(db, mine.phase.row, mine.phase.v, x, theirs.stamp);
      }
    }
  }

  /* ---- openings and publishing ---- */

  lemma LookupAfterOpening(rows: Rows, rows': Rows, p: string, e: string, reference: string)
    requires Unique(rows) && Unique(rows')
    requires forall id :: id in rows ==> id in rows' && rows'[id] == rows[id]
    requires forall id :: id in rows' && id !in rows ==>
               rows'[id].origin.Internal? && rows'[id].resolvedReferenceId == ""
    ensures FindByBusinessId(rows', p, e) == FindByBusinessId(rows, p, e)
    ensures Unreversed(rows', reference) == Unreversed(rows, reference)
  {
    hide Clash;
    var found := FindByBusinessId(rows, p, e);
    if found.Some? {
      var id :| id in rows && rows[id] == found.value && IsBusiness(rows[id], p, e);
      FoundIsUnique(rows', id);
    }
    if Unreversed(rows', reference) {
      forall id | id in rows ensures !IsProcessedReversalOf(rows[id], reference) {
        assert rows'[id] == rows[id];
      }
    }
  }

  lemma UpToDateAfterOpening(db: Db, o: Opened, stamp: Stamp, t: Txn)
    requires Inv(db) && Inv(CommitOpening(db, o, stamp)) && OpeningAdmitted(db, o, stamp) && UpToDate(db, t)
    requires o.credit.Some? ==> Credited(o)
    ensures UpToDate(CommitOpening(db, o, stamp), t)
  {
    hide Inv, CommitOpening, OpeningAdmitted, FindByBusinessId, Unreversed, Judge, Credited, Unique;
    var db' := CommitOpening(db, o, stamp);
    OpeningAddsOneRow(db, o, stamp);
    if t.phase.Judged? || t.phase.Writing? {
      var row := t.phase.row;
      assert Unique(db.transactions) by { InvIsUnique(db); }
      assert Unique(db'.transactions) by { InvIsUnique(db'); }
      var j := Judge(row, FindByBusinessId(db.transactions, row.providerId, row.referenceExternalId));
      LookupAfterOpening(db.transactions, db'.transactions, row.providerId, row.referenceExternalId,
                         if j.Apply? then j.reference.id else "");
    }
  }

  lemma InvIsUnique(db: Db)
    requires Inv(db)
    ensures Unique(db.transactions)
  {
  }

  /* ---- the system under the lock ---- */

  lemma UpToDateAfterMark(db: Db, message: (string, string), hash: string, now: Instant, t: Txn)
    requires UpToDate(db, t)
    ensures UpToDate(Mark(db, message, hash, now), t)
  {
    hide FindByBusinessId, Unreversed, Judge;
  }

  lemma LockedAdvanceKeeps(policy: Policy, s: System, tid: string)
    requires Normalised(policy) && LockedOk(policy, s) && tid in s.live
    requires SystemOk(policy, true, Step(policy, true, s, Advance(tid)))
    ensures LockedOk(policy, Step(policy, true, s, Advance(tid)))
  {
    hide Inv, LiveOk, Statement, UpToDate, Compatible, Commit, Mark;
    var t := s.live[tid];
    match Statement(policy, s.db, t)
    case End =>
    case Go(next) => OwnStatementIsUpToDate(policy, s.db, t);
    case CommitNow =>
      OnlyTheFinishedCommit(policy, s.db, t);
      forall o | o in s.live && o != tid
        ensures t.phase.Writing? ==> |t.phase.eff.events| <= 2
        ensures UpToDate(Outcome(s.db, t), s.live[o])
      {
        if t.phase.Writing? { UpToDateAfterCommit(policy, s.db, s.live[o], t); }
        var after := if t.phase.Writing? then Commit(s.db, t.phase.eff, t.stamp) else s.db;
        if t.message.Some? && t.job.SubmitJob? {
          UpToDateAfterMark(after, t.message.value, t.job.request.payloadHash, t.stamp.now, s.live[o]);
        }
      }
  }

  lemma LockedOpenKeeps(policy: Policy, s: System, e: Turn)
    requires Normalised(policy) && LockedOk(policy, s) && e.OpenNow?
    requires SystemOk(policy, true, Step(policy, true, s, e))
    ensures LockedOk(policy, Step(policy, true, s, e))
  {
    hide Inv, LiveOk, UpToDate, Compatible, Open, OpeningAdmitted, CommitOpening, OpeningClear, Credited;
    var o, s' := Open(e.playerId, e.initial, e.walletId, e.stamp), Step(policy, true, s, e);
    if s' != s {
      OpenShape(e.playerId, e.initial, e.walletId, e.stamp);
      forall t | t in s.live
        ensures UpToDate(s'.db, s.live[t])
      {
        UpToDateAfterOpening(s.db, o.value, e.stamp, s.live[t]);
      }
    }
  }

  lemma LockedStepKeeps(policy: Policy, s: System, e: Turn)
    requires Normalised(policy) && LockedOk(policy, s)
    ensures LockedOk(policy, Step(policy, true, s, e))
  {
    hide Inv, LiveOk, Statement, Compatible, Commit, Open, FindByBusinessId, Judge, Unreversed, AllCompatible, Due;
    StepKeeps(policy, true, s, e);
    match e
    case Advance(tid) => if tid in s.live { LockedAdvanceKeeps(policy, s, tid); }
    case OpenNow(_, _, _, _) => LockedOpenKeeps(policy, s, e);
    case BeginSubmit(_, _, _, _) =>
    case BeginDelivery(_, _, _, _, _) =>
    case BeginVisit(_, _, _, _) =>
    case Crash(_) =>
    case PublishNow(_) =>
    case AbsorbNow(message, command, now) => LockedAbsorbKeeps(policy, s, e);
  }

  lemma LockedAbsorbKeeps(policy: Policy, s: System, e: Turn)
    requires Normalised(policy) && LockedOk(policy, s) && e.AbsorbNow?
    requires SystemOk(policy, true, Step(policy, true, s, e))
    ensures LockedOk(policy, Step(policy, true, s, e))
  {
    hide Inv, LiveOk, UpToDate, Compatible, Mark, Parse, PayloadHash;
    var s' := Step(policy, true, s, e);
    if s' != s {
      forall t | t in s.live
        ensures UpToDate(s'.db, s.live[t])
      {
        UpToDateAfterMark(s.db, e.message, PayloadHash(e.command), e.now, s.live[t]);
      }
    }
  }

  /** The version guard never fires while the lock is held: nobody else moved the wallet. */
  lemma GuardNeverFiresUnderLock(policy: Policy, s: System, tid: string)
    requires Normalised(policy) && LockedOk(policy, s) && tid in s.live
    requires s.live[tid].phase.Writing? && s.live[tid].phase.done == 1 && s.live[tid].phase.eff.from.version < MAX_INT64
    ensures Statement(policy, s.db, s.live[tid]).Go?
  {
    hide Inv, Written, StillUndone, Grounded, WalletRead, Starts, ClaimStands, ResolvedRight;
    var t := s.live[tid];
    DecisionFollows(policy, t, t.phase.row, t.phase.from, t.phase.v);
  }

  /** Nor is the unique index on resolved references ever needed: no commit would break it. */
  lemma IndexNeverNeeded(policy: Policy, locking: bool, s: System, tid: string, id: string)
    requires Normalised(policy) && SystemOk(policy, locking, s) && tid in s.live
    requires Statement(policy, s.db, s.live[tid]).CommitNow? && id in s.db.transactions
    ensures s.live[tid].phase.Writing? ==> !SameReference(s.db.transactions[id], s.live[tid].phase.eff.row)
  {
    hide Inv, LiveOk, Statement, Fresh, EventsOf, Moved, DirectionOf, RowFits, Undoes, RowAdvances, AllCompatible;
    var t := s.live[tid];
    CommitKeeps(policy, locking, s, tid);
    if t.phase.Absorbed? { return; }
    assert t.phase.eff.row.resolvedReferenceId != "" && t.phase.eff.row.status.Processed? ==>
             t.phase.eff.row.kind.IsReversal() by {
      ProcessedLinkIsReversal(s.db, t.phase.eff);
    }
  }

  lemma ProcessedLinkIsReversal(db: Db, eff: Effect)
    requires Proper(db, eff)
    ensures eff.row.resolvedReferenceId != "" && eff.row.status.Processed? ==>
              eff.row.kind.IsReversal() && eff.row.kind.MovesMoney()
  {
    hide EventsOf, Moved, DirectionOf, Undoes, RowAdvances;
  }

  /** A new operation that is about to commit is still new. */
  lemma StillNew(policy: Policy, db: Db, t: Txn)
    requires Normalised(policy) && Inv(db) && LiveOk(policy, db, t) && UpToDate(db, t)
    requires t.phase.Writing? && t.phase.done >= 4 && t.job.SubmitJob?
    ensures FindByBusinessId(db.transactions, t.job.request.providerId, t.job.request.externalId).None?
    ensures NewRow(db, t.job.request, t.stamp) == Ok(t.phase.row)
  {
    hide Inv, Written, StillUndone, Grounded, ClaimStands, ResolvedRight, Proper, Current, SettleSubmit, FreshEvent,
      FreshEntry;
    var p, eff := t.job.request, t.phase.eff;
    ReadyToCommitIsSound(policy, db, t);
    DecisionFollows(policy, t, t.phase.row, t.phase.from, t.phase.v);
    NewRowShape(t.stamp.transactionId, p, t.stamp.now);
    NewRowPlayer(t.stamp.transactionId, p, t.stamp.now);
    SubmitKeepsIdentity(policy, t.phase.row, t.phase.from, t.phase.v, t.stamp, t.jitter);
    IdentityKeeps(eff.row, t.phase.row);
    forall id | id in db.transactions
      ensures !IsBusiness(db.transactions[id], p.providerId, p.externalId)
    {
      assert !SameBusiness(db.transactions[id], eff.row);
    }
  }

  lemma MessageIsUnseen(policy: Policy, db: Db, t: Txn)
    requires Normalised(policy) && LiveOk(policy, db, t)
    ensures MessageStands(db, t)
  {
  }

  /** Nothing in flight on the empty database, to start from. */
  lemma IdleIsLocked(policy: Policy, db: Db)
    requires Normalised(policy) && Inv(db)
    ensures LockedOk(policy, System(db, map[]))
  {
    IdleSystemIsSound(policy, true, db);
  }
}
