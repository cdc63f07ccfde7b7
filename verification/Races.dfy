/** What holds over every interleaving: waits end, attempts are bounded, outcomes are final. */
module Races {
  import opened Base
  import opened Domain
  import opened Commands
  import opened Tables
  import opened Steps
  import opened Decisions
  import opened Serial
  import opened Openings
  import opened Runs
  import opened ExactlyOnce
  import opened Waits
  import opened Interleaving
  import opened Guards

  /* ---- every wait ends ---- */

  /** The turn in which a visit to this reversal commits. */
  ghost predicate CommitsVisit(policy: Policy, s: System, e: Turn, id: string)
    requires Normalised(policy)
  {
    e.Advance? && e.tid in s.live && s.live[e.tid].phase.Writing? && Statement(policy, s.db, s.live[e.tid]).CommitNow?
    && s.live[e.tid].job.VisitJob? && s.live[e.tid].job.claimed.id == id
  }

  ghost function CommittedVisits(policy: Policy, locking: bool, s: System, es: seq<Turn>, id: string): nat
    requires Normalised(policy)
    decreases |es|
  {
    if es == [] then 0
    else (if CommitsVisit(policy, s, es[0], id) then 1 else 0)
         + CommittedVisits(policy, locking, Step(policy, locking, s, es[0]), es[1..], id)
  }

  /** A commit writes a parked row only if it is that row's own visit, and then it ends the wait or counts. */
  lemma CommitCounts(policy: Policy, locking: bool, s: System, tid: string, id: string)
    requires Normalised(policy) && SystemOk(policy, locking, s) && Parked(s.db, id) && tid in s.live
    requires Statement(policy, s.db, s.live[tid]).CommitNow?
    ensures var after := Step(policy, locking, s, Advance(tid)).db;
            && id in after.transactions
            && (if CommitsVisit(policy, s, Advance(tid), id)
                then EndsOrCounts(policy, s.db.transactions[id], after.transactions[id])
                else after.transactions[id] == s.db.transactions[id])
  {
    hide Inv, LiveOk, Statement, Compatible, EndsOrCounts, Recorded, Sound, AllCompatible;
    var t := s.live[tid];
    OnlyTheFinishedCommit(policy, s.db, t);
    if t.phase.Writing? {
      EffectKeeps(policy, locking, s, tid);
      WriterFacts(policy, s.db, t);
    }
  }

  lemma WriterFacts(policy: Policy, db: Db, t: Txn)
    requires Normalised(policy) && Inv(db) && LiveOk(policy, db, t) && t.phase.Writing? && t.phase.done >= 4
    ensures t.job.SubmitJob? ==> t.phase.eff.row.id !in db.transactions
    ensures t.job.VisitJob? ==>
              && t.phase.eff.row.id == t.job.claimed.id && t.job.claimed.id in db.transactions
              && EndsOrCounts(policy, db.transactions[t.job.claimed.id], t.phase.eff.row)
  {
    hide Inv, SettleVisit, SettleSubmit, EndsOrCounts, Grounded, StillUndone, WalletRead;
    DecisionFollows(policy, t, t.phase.row, t.phase.from, t.phase.v);
    if t.job.VisitJob? { DecisionCounts(policy, t.phase.row, t.phase.from, t.phase.v, t.stamp, t.jitter); }
  }

  lemma TurnCounts(policy: Policy, locking: bool, s: System, e: Turn, id: string)
    requires Normalised(policy) && SystemOk(policy, locking, s) && Parked(s.db, id)
    ensures var after := Step(policy, locking, s, e).db;
            && id in after.transactions
            && (if CommitsVisit(policy, s, e, id)
                then EndsOrCounts(policy, s.db.transactions[id], after.transactions[id])
                else after.transactions[id] == s.db.transactions[id])
  {
    hide Inv, LiveOk, Statement, Compatible, EndsOrCounts, AllCompatible, Open, Republished, Parse, PayloadHash,
      Recorded, Outcome;
    if e.Advance? && e.tid in s.live && Statement(policy, s.db, s.live[e.tid]).CommitNow? {
      CommitCounts(policy, locking, s, e.tid, id);
    }
  }

  /** Over any interleaving: while a row is still parked, its attempts are the ones it had plus its visits. */
  lemma {:induction false} AttemptsCountVisits(policy: Policy, locking: bool, s: System, es: seq<Turn>, id: string)
    requires Normalised(policy) && SystemOk(policy, locking, s) && Parked(s.db, id)
    ensures var after, visits := History(policy, locking, s, es).db, CommittedVisits(policy, locking, s, es, id);
            && id in after.transactions
            && (|| after.transactions[id].status.IsTerminal()
                || (&& Parked(after, id)
                    && after.transactions[id].attempts == s.db.transactions[id].attempts + visits
                    && (0 < visits ==> after.transactions[id].attempts <= policy.maxAttempts)
                    && after.transactions[id].deadlineAt == s.db.transactions[id].deadlineAt))
    decreases |es|
  {
    hide SystemOk, Inv, Extends, Step, CommitsVisit;
    if es != [] {
      var next := Step(policy, locking, s, es[0]);
      TurnCounts(policy, locking, s, es[0], id);
      StepKeeps(policy, locking, s, es[0]);
      if Parked(next.db, id) {
        AttemptsCountVisits(policy, locking, next, es[1..], id);
      } else {
        EveryInterleavingIsSound(policy, locking, next, es[1..]);
        TerminalStays(next.db, History(policy, locking, next, es[1..]).db, id);
      }
    }
  }

  /** Every parked reversal is terminal after MaxAttempts committed visits, whoever races with them. */
  lemma EveryWaitEnds(policy: Policy, locking: bool, s: System, es: seq<Turn>, id: string)
    requires Normalised(policy) && SystemOk(policy, locking, s) && Parked(s.db, id)
    requires CommittedVisits(policy, locking, s, es, id) >= policy.maxAttempts
    ensures var after := History(policy, locking, s, es).db;
            id in after.transactions && after.transactions[id].status.IsTerminal()
  {
    hide SystemOk, History, CommittedVisits;
    AttemptsCountVisits(policy, locking, s, es, id);
    assert 0 < s.db.transactions[id].attempts by { HasWaited(policy, locking, s, id); }
  }

  lemma HasWaited(policy: Policy, locking: bool, s: System, id: string)
    requires Normalised(policy) && SystemOk(policy, locking, s) && Parked(s.db, id)
    ensures 0 < s.db.transactions[id].attempts
  {
    hide LogComplete, BooksBalance, LedgerExplained, Unique, ReversalsResolve, LiveOk, AllCompatible;
    assert RowFits(s.db.transactions[id], s.db.wallets);
  }

  /** A terminal row never changes again, whatever late workers with stale copies do. */
  lemma FinishedForEver(policy: Policy, locking: bool, s: System, es: seq<Turn>, id: string)
    requires Normalised(policy) && SystemOk(policy, locking, s)
    requires id in s.db.transactions && s.db.transactions[id].status.IsTerminal()
    ensures var after := History(policy, locking, s, es).db;
            id in after.transactions && after.transactions[id] == s.db.transactions[id]
  {
    hide SystemOk, Inv, Extends, History;
    EveryInterleavingIsSound(policy, locking, s, es);
    TerminalStays(s.db, History(policy, locking, s, es).db, id);
  }

  /* ---- attempts are bounded ---- */

  lemma CommitIsBounded(policy: Policy, locking: bool, s: System, tid: string)
    requires Normalised(policy) && SystemOk(policy, locking, s) && Bounded(policy, s.db.transactions) && tid in s.live
    requires s.live[tid].phase.Writing? && s.live[tid].phase.done >= 4
    ensures s.live[tid].phase.eff.row.attempts <= policy.maxAttempts
  {
    hide Inv, LiveOk, Compatible, AllCompatible, Current, Fresh, EventsOf, Moved, DirectionOf, RowFits, Recorded;
    var t := s.live[tid];
    EffectKeeps(policy, locking, s, tid);
    WriterFacts(policy, s.db, t);
  }

  /** A turn adds a row with at most one attempt, or commits a visit within the bound. */
  lemma TurnIsBounded(policy: Policy, locking: bool, s: System, e: Turn)
    requires Normalised(policy) && SystemOk(policy, locking, s) && Bounded(policy, s.db.transactions)
    ensures Bounded(policy, Step(policy, locking, s, e).db.transactions)
  {
    hide Inv, LiveOk, Statement, Compatible, AllCompatible, Open, Republished, Parse, PayloadHash, Recorded,
      OpeningAdmitted;
    match e
    case Advance(tid) =>
      if tid in s.live && Statement(policy, s.db, s.live[tid]).CommitNow? {
        OnlyTheFinishedCommit(policy, s.db, s.live[tid]);
        if s.live[tid].phase.Writing? { CommitIsBounded(policy, locking, s, tid); }
      }
    case OpenNow(playerId, initial, walletId, stamp) => OpenShape(playerId, initial, walletId, stamp);
    case BeginSubmit(_, _, _, _) =>
    case BeginDelivery(_, _, _, _, _) =>
    case BeginVisit(_, _, _, _) =>
    case Crash(_) =>
    case PublishNow(_) =>
    case AbsorbNow(_, _, _) =>
  }

  /** Attempts never exceed the policy's maximum, over any interleaving. */
  lemma {:induction false} AttemptsStayBounded(policy: Policy, locking: bool, s: System, es: seq<Turn>)
    requires Normalised(policy) && SystemOk(policy, locking, s) && Bounded(policy, s.db.transactions)
    ensures Bounded(policy, History(policy, locking, s, es).db.transactions)
    decreases |es|
  {
    hide SystemOk, Step, Bounded;
    if es != [] {
      TurnIsBounded(policy, locking, s, es[0]);
      StepKeeps(policy, locking, s, es[0]);
      AttemptsStayBounded(policy, locking, Step(policy, locking, s, es[0]), es[1..]);
    }
  }

  /* ---- exactly once ---- */

  /**
   * Once an operation is stored, after any interleaving the same submission changes
   * nothing and is answered from its row, the same pair with other content or another
   * key is a conflict, and no unit of work that looks the pair up ever writes it again.
   */
  lemma SubmittedOnceForEver(policy: Policy, locking: bool, s: System, es: seq<Turn>, id: string,
                             original: SubmitCommand,
                             again: SubmitCommand, stamp: Stamp, jitter: nat, message: Option<(string, string)>)
    requires Normalised(policy) && SystemOk(policy, locking, s) && id in s.db.transactions
    requires IsBusiness(s.db.transactions[id], again.providerId, again.externalId)
    requires s.db.transactions[id].payloadHash == PayloadHash(original)
    requires s.db.transactions[id].idempotencyKey == original.idempotencyKey
    ensures var later := History(policy, locking, s, es).db;
            var a := Submit(policy, later, Parse(again), stamp, jitter);
            && id in later.transactions && RowAdvances(s.db.transactions[id], later.transactions[id])
            && After(later, a, stamp) == later
            && (Parse(again).Ok? ==>
                  && (if SameSubmission(original, again) then a == Replayed(later.transactions[id])
                      else a.Refused? && a.error.Conflict?)
                  && var looking := Statement(policy, later,
                                              Txn(SubmitJob(Parse(again).value), message, stamp, jitter, Begun));
                     looking.End? || (looking.Go? && looking.next.phase.Absorbed?))
  {
    hide SystemOk, Inv, Extends, History, Submit, Parse, PayloadHash, SameSubmission, IsBusiness, Statement;
    EveryInterleavingIsSound(policy, locking, s, es);
    var later := History(policy, locking, s, es).db;
    assert RowAdvances(s.db.transactions[id], later.transactions[id]) by { RowsAdvance(s.db, later, id); }
    IdentityKeeps(s.db.transactions[id], later.transactions[id]);
    assert IsBusiness(later.transactions[id], again.providerId, again.externalId) by {
      SameBusinessPair(s.db.transactions[id], later.transactions[id], again.providerId, again.externalId);
    }
    StoredOperationAnswers(policy, later, id, original, again, stamp, jitter);
    if Parse(again).Ok? { StoredPairIsSeen(policy, later, id, again, message, stamp, jitter); }
  }

  lemma RowsAdvance(a: Db, b: Db, id: string)
    requires Extends(a, b) && id in a.transactions
    ensures id in b.transactions && RowAdvances(a.transactions[id], b.transactions[id])
  {
  }

  lemma SameBusinessPair(a: Transaction, b: Transaction, provider: string, external: string)
    requires a.origin == b.origin && a.providerId == b.providerId && a.externalId == b.externalId
    requires IsBusiness(a, provider, external)
    ensures IsBusiness(b, provider, external)
  {
  }

  lemma StoredPairIsSeen(policy: Policy, db: Db, id: string, command: SubmitCommand, message: Option<(string, string)>,
                         stamp: Stamp, jitter: nat)
    requires Normalised(policy) && Inv(db) && id in db.transactions && Parse(command).Ok?
    requires IsBusiness(db.transactions[id], command.providerId, command.externalId)
    ensures var looking := Statement(policy, db, Txn(SubmitJob(Parse(command).value), message, stamp, jitter, Begun));
            looking.End? || (looking.Go? && looking.next.phase.Absorbed?)
  {
    hide BooksBalance, LogComplete, LedgerExplained, ReversalsResolve, RowFits, PayloadHash, FindByBusinessId;
    FoundIsUnique(db.transactions, id);
  }
}
