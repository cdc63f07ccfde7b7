/** What a visit does to a wait: it ends it, or uses up one of a bounded number of attempts. */
module Waits {
  import opened Base
  import opened Domain
  import opened Tables
  import opened Steps
  import opened Decisions
  import opened Serial

  predicate Parked(db: Db, id: string) {
    id in db.transactions && db.transactions[id].status.PendingReference?
  }

  /** A visit that settles ends the wait or uses up exactly one attempt. */
  predicate EndsOrCounts(policy: Policy, before: Transaction, after: Transaction) {
    || (after.status.IsTerminal() && after.attempts == before.attempts)
    || (&& after.status.PendingReference? && after.attempts == before.attempts + 1 <= policy.maxAttempts
        && after.deadlineAt == before.deadlineAt)
  }

  lemma RejectionEnds(row: Transaction, known: bool, from: Wallet, code: Code, at: Instant)
    ensures var r := RejectWith(row, known, from, code, at);
            r.Ok? ==> r.value.row.status.Rejected? && r.value.row.attempts == row.attempts
  {
    hide EventsOf;
  }

  lemma KeepWaitingCounts(policy: Policy, row: Transaction, from: Wallet, at: Instant, jitter: nat)
    requires Normalised(policy)
    ensures var r := KeepWaiting(policy, row, from, at, jitter);
            r.Ok? ==> EndsOrCounts(policy, row, r.value.row)
  {
    hide EventsOf, Window;
  }

  lemma UndoEnds(row: Transaction, from: Wallet, v: Verdict, entryId: string, at: Instant)
    requires v.Apply?
    ensures var r := Undo(row, from, v, entryId, at);
            r.Ok? ==> r.value.0.status.Processed? && r.value.0.attempts == row.attempts
  {
    hide Move;
  }

  /** Whatever verdict a visit acts on, what it settles ends the wait or counts. */
  lemma DecisionCounts(policy: Policy, row: Transaction, from: Wallet, v: Verdict, stamp: Stamp, jitter: nat)
    requires Normalised(policy)
    ensures var r := SettleVisit(policy, row, from, v, stamp, jitter); r.Ok? ==> EndsOrCounts(policy, row, r.value.row)
  {
    hide Undo, KeepWaiting, RejectWith, EndsOrCounts;
    var decided := SettleVisit(policy, row, from, v, stamp, jitter);
    if decided.Ok? {
      match v
      case Wait => KeepWaitingCounts(policy, row, from, stamp.now, jitter);
      case Refuse(code) =>
        RejectionEnds(row, true, from, code, stamp.now);
        TerminalEnds(policy, row, decided.value.row);
      case Apply(_, _) =>
        var undone := Undo(row, from, v, stamp.entryId, stamp.now);
        if undone.Ok? {
          UndoEnds(row, from, v, stamp.entryId, stamp.now);
          FinishKeeps(undone.value.0, true, from, Some(undone.value.1));
        } else {
          UndoFailsByRule(row, from, v, stamp.entryId, stamp.now);
          RejectionEnds(row, true, from, undone.error.code, stamp.now);
        }
        TerminalEnds(policy, row, decided.value.row);
    }
  }

  lemma VisitCounts(policy: Policy, db: Db, id: string, stamp: Stamp, jitter: nat)
    requires Normalised(policy) && Claimable(db, id)
    ensures var a := Visit(policy, db, id, stamp, jitter);
            a.Settled? ==> EndsOrCounts(policy, db.transactions[id], a.eff.row)
  {
    hide Fresh, Refusal, Resolve, SettleVisit, EndsOrCounts;
    var row := db.transactions[id];
    DecisionCounts(policy, row, db.wallets[row.walletId], Resolve(db.transactions, row), stamp, jitter);
  }

  lemma TerminalEnds(policy: Policy, before: Transaction, after: Transaction)
    requires after.status.IsTerminal() && after.attempts == before.attempts
    ensures EndsOrCounts(policy, before, after)
  {
  }

  /** A visit always reaches a decision; only a schema rule can then refuse it. */
  lemma VisitDecides(policy: Policy, db: Db, id: string, stamp: Stamp, jitter: nat)
    requires Normalised(policy) && Inv(db) && Claimable(db, id) && 0 < stamp.now
    ensures var row := db.transactions[id];
            SettleVisit(policy, row, db.wallets[row.walletId], Resolve(db.transactions, row), stamp, jitter).Ok?
  {
    hide EventsOf, Window, LogComplete, BooksBalance, LedgerExplained, Unique, ReversalsResolve, Resolve, Undo,
      SchemaAccepts;
    WindowIsPositive(policy, db.transactions[id].attempts + 1);
    var row := db.transactions[id];
    assert RowFits(row, db.wallets);
    var v := Resolve(db.transactions, row);
    ResolveHasCode(db.transactions, row);
    if v.Apply? { UndoFailsByRule(row, db.wallets[row.walletId], v, stamp.entryId, stamp.now); }
  }

  lemma TerminalStays(a: Db, b: Db, id: string)
    requires Extends(a, b) && id in a.transactions && a.transactions[id].status.IsTerminal()
    ensures id in b.transactions && b.transactions[id] == a.transactions[id]
  {
    assert RowAdvances(a.transactions[id], b.transactions[id]);
  }

  /** No row has used more attempts than the policy allows. */
  ghost predicate Bounded(policy: Policy, rows: Rows) {
    forall id :: id in rows ==> rows[id].attempts <= policy.maxAttempts
  }
}
