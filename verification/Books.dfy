/** Reconciliation and replay: the ledger, the log and the stored balance tell one story. */
module Books {
  import opened Base
  import opened Money
  import opened Domain
  import opened Tables
  import opened Decisions
  import opened Runs

  /* ---- rebuilding a balance ---- */

  /** Credits minus debits, in unbounded arithmetic as the database sums them. */
  function Total(es: seq<Entry>): int {
    if es == [] then 0 else Total(es[..|es| - 1]) + es[|es| - 1].Signed()
  }

  /** The sum cast back to 64 bits: a total that does not fit is an error, never a wrapped value. */
  function SumByWallet(ledger: seq<Entry>, wallet: string, currency: string): Result<(Money, nat)> {
    var es := EntriesOf(ledger, wallet);
    if !InInt64(Total(es)) then Err(Unavailable)
    else if currency == "" then Err(Domain(InvalidCurrency))
    else Ok((Money(Total(es), currency), |es|))
  }

  /** The same fold in checked money, one entry at a time. */
  function FoldMoney(es: seq<Entry>, currency: string): Result<Money> {
    if es == [] then Ok(Money(0, currency))
    else
      var sofar :- FoldMoney(es[..|es| - 1], currency);
      var last := es[|es| - 1];
      if last.direction.Credit? then sofar.Add(last.amount) else sofar.Sub(last.amount)
  }

  datatype Reconciliation = Reconciliation(
    walletId: string, stored: Money, rebuilt: Money, difference: Money, entries: nat, version: int64,
    checkedAt: Instant)
  {
    predicate Drifted() { difference.minor != 0 }
  }

  /** Both reads against one unchanging view. */
  function Reconcile(db: Db, wallet: string, now: Instant): Result<Reconciliation> {
    if wallet !in db.wallets then Err(NotFound)
    else
      var w := db.wallets[wallet];
      var (rebuilt, entries) :- SumByWallet(db.ledger, wallet, w.balance.currency);
      var difference :- w.balance.Sub(rebuilt);
      Ok(Reconciliation(wallet, w.balance, rebuilt, difference, entries, w.version, now))
  }

  /** What the wallet's entries paid in, over the whole ledger, and what they paid out. */
  function PaidIn(ledger: seq<Entry>, wallet: string): int {
    if ledger == [] then 0
    else
      var last := ledger[|ledger| - 1];
      PaidIn(ledger[..|ledger| - 1], wallet)
      + (if last.walletId == wallet && last.direction == Credit then last.amount.minor else 0)
  }

  function PaidOut(ledger: seq<Entry>, wallet: string): int {
    if ledger == [] then 0
    else
      var last := ledger[|ledger| - 1];
      PaidOut(ledger[..|ledger| - 1], wallet)
      + (if last.walletId == wallet && last.direction == Debit then last.amount.minor else 0)
  }

  function CountOn(ledger: seq<Entry>, wallet: string): nat {
    if ledger == [] then 0
    else CountOn(ledger[..|ledger| - 1], wallet) + (if ledger[|ledger| - 1].walletId == wallet then 1 else 0)
  }

  lemma {:induction false} TotalIsInLessOut(ledger: seq<Entry>, wallet: string)
    ensures Total(EntriesOf(ledger, wallet)) == PaidIn(ledger, wallet) - PaidOut(ledger, wallet)
    ensures |EntriesOf(ledger, wallet)| == CountOn(ledger, wallet)
  {
    if ledger != [] {
      var front, last := ledger[..|ledger| - 1], ledger[|ledger| - 1];
      TotalIsInLessOut(front, wallet);
      assert (EntriesOf(front, wallet) + [last])[..|EntriesOf(front, wallet)|] == EntriesOf(front, wallet);
    }
  }

  /**
   * Whatever is stored, sound or not: the difference reported is the stored balance less
   * what was paid in and plus what was paid out, and there is a drift iff it is not zero;
   * a sum or a difference that does not fit 64 bits is an error.
   */
  lemma ReconciliationTellsTheDrift(db: Db, wallet: string, now: Instant)
    requires wallet in db.wallets && db.wallets[wallet].balance.currency != ""
    ensures var w, sum := db.wallets[wallet], PaidIn(db.ledger, wallet) - PaidOut(db.ledger, wallet);
            var drift, r := w.balance.minor - sum, Reconcile(db, wallet, now);
            if !InInt64(sum) then r == Err(Unavailable)
            else if !InInt64(drift) then r == Err(Domain(AmountOverflow))
            else
              && r == Ok(Reconciliation(wallet, w.balance, Money(sum, w.balance.currency),
                                        Money(drift, w.balance.currency), CountOn(db.ledger, wallet), w.version, now))
              && (r.value.Drifted() <==> drift != 0)
  {
    TotalIsInLessOut(db.ledger, wallet);
  }

  lemma ChainedPrefix(es: seq<Entry>, n: nat, currency: string)
    requires Chained(es, currency) && n <= |es|
    ensures Chained(es[..n], currency)
  {
    forall i: nat | i < n
      ensures Linked(es[..n], i, currency)
    {
      assert Linked(es, i, currency);
    }
  }

  /** Along an unbroken chain the running total is the last balance, and the checked fold agrees. */
  lemma {:induction false} ChainTotals(es: seq<Entry>, currency: string)
    requires Chained(es, currency) && currency != ""
    ensures Total(es) == if es == [] then 0 else es[|es| - 1].after.minor
    ensures 0 <= Total(es) <= MAX_INT64
    ensures FoldMoney(es, currency) == Ok(Money(Total(es), currency))
  {
    if es != [] {
      var front := es[..|es| - 1];
      ChainedPrefix(es, |es| - 1, currency);
      ChainTotals(front, currency);
      assert Linked(es, |es| - 1, currency);
    }
  }

  /** How many entries are not the opening. */
  ghost function Moves(rows: Rows, es: seq<Entry>): nat {
    if es == [] then 0
    else
      var last := es[|es| - 1];
      Moves(rows, es[..|es| - 1])
      + (if last.transactionId in rows && rows[last.transactionId].kind.OpeningCredit? then 0 else 1)
  }

  lemma {:induction false} MovesCount(rows: Rows, es: seq<Entry>)
    requires OpeningOnlyFirst(rows, es)
    ensures Moves(rows, es) == |es| + FirstVersion(rows, es) - 2
  {
    if |es| == 1 {
      assert es[..0] == [];
    } else if es != [] {
      var front := es[..|es| - 1];
      assert OpeningOnlyFirst(rows, front) by {
        forall i | 0 < i < |front|
          ensures front[i].transactionId in rows && !rows[front[i].transactionId].kind.OpeningCredit?
        {
          assert es[i] == front[i];
        }
      }
      MovesCount(rows, front);
      assert front[0] == es[0];
    }
  }

  /**
   * On any sound state reconciliation succeeds, finds no difference, counts every
   * entry, and the version is one more than the movements after the opening.
   */
  lemma ReconciliationFindsNoDrift(db: Db, wallet: string, now: Instant)
    requires Inv(db)
    ensures var r := Reconcile(db, wallet, now);
            if wallet !in db.wallets then r == Err(NotFound)
            else
              && r.Ok? && !r.value.Drifted() && r.value.rebuilt == r.value.stored == db.wallets[wallet].balance
              && r.value.entries == |EntriesOf(db.ledger, wallet)|
              && r.value.version as int == 1 + Moves(db.transactions, EntriesOf(db.ledger, wallet))
              && FoldMoney(EntriesOf(db.ledger, wallet), r.value.stored.currency) == Ok(r.value.stored)
  {
    hide LogComplete, LedgerExplained, ReversalsResolve, RowFits, Unique, Chained, EntriesOf, OpeningOnlyFirst,
      FoldMoney, Moves;
    if wallet in db.wallets {
      var w, es := db.wallets[wallet], EntriesOf(db.ledger, wallet);
      assert BooksBalance(db, w) && w.id == wallet;
      ChainTotals(es, w.balance.currency);
      MovesCount(db.transactions, es);
    }
  }

  /** ... and so does reconciling after any run from the empty database. */
  lemma ReconcilesAfterAnyRun(policy: Policy, actions: seq<Action>, wallet: string, now: Instant)
    requires Normalised(policy) && AllTicking(actions)
    ensures var db := Run(policy, EMPTY, actions);
            wallet in db.wallets ==> Reconcile(db, wallet, now).Ok? && !Reconcile(db, wallet, now).value.Drifted()
  {
    hide Inv, Reconcile, Run, Extends;
    EmptyIsSound();
    RunKeeps(policy, EMPTY, actions);
    ReconciliationFindsNoDrift(Run(policy, EMPTY, actions), wallet, now);
  }

  /* ---- replaying the log ---- */

  /** An entry as an event tells it; events do not carry the entry's own id. */
  function Told(e: Event): Entry
    requires e.BalanceChanged?
  {
    Entry("", e.walletId, e.transactionId, e.direction, e.amount, e.before, e.after, e.occurredAt)
  }

  function Replayed(log: seq<Event>, wallet: string): seq<Entry> {
    if log == [] then []
    else
      var front, last := log[..|log| - 1], log[|log| - 1];
      if About(last, ChangesOf(wallet)) then Replayed(front, wallet) + [Told(last)] else Replayed(front, wallet)
  }

  lemma {:induction false} ReplayedIsLog(log: seq<Event>, wallet: string)
    ensures |Replayed(log, wallet)| == |Log(log, ChangesOf(wallet))|
    ensures forall i :: 0 <= i < |Replayed(log, wallet)| ==>
                          && Log(log, ChangesOf(wallet))[i].BalanceChanged?
                          && Replayed(log, wallet)[i] == Told(Log(log, ChangesOf(wallet))[i])
  {
    if log != [] {
      ReplayedIsLog(log[..|log| - 1], wallet);
    }
  }

  /** Replaying a wallet's events gives its ledger, entry by entry, under consecutive versions. */
  lemma LogRebuildsTheLedger(db: Db, wallet: string)
    requires Inv(db) && wallet in db.wallets
    ensures var log, es := Log(Events(db.outbox), ChangesOf(wallet)), EntriesOf(db.ledger, wallet);
            var w := db.wallets[wallet];
            var replayed := Replayed(Events(db.outbox), wallet);
            && |log| == |es| == |replayed|
            && (forall i :: 0 <= i < |es| ==> replayed[i] == es[i].(id := ""))
            && (forall i :: 0 <= i < |log| ==>
                  log[i].BalanceChanged? && log[i].walletVersion as int == w.version as int - |log| + 1 + i)
            && w.balance.minor == Total(replayed)
  {
    hide LogComplete, LedgerExplained, ReversalsResolve, RowFits, Unique, EntriesOf, Log, OpeningOnlyFirst,
      FirstVersion, Total, Replayed;
    var es, w := EntriesOf(db.ledger, wallet), db.wallets[wallet];
    var replayed := Replayed(Events(db.outbox), wallet);
    assert BooksBalance(db, w) && w.id == wallet;
    assert WalletLogged(db.transactions, db.ledger, Events(db.outbox), wallet) by { LoggedFor(db, wallet); }
    ReplayedIsLog(Events(db.outbox), wallet);
    forall i | 0 <= i < |es|
      ensures replayed[i] == es[i].(id := "")
    {
      assert ChangeMatches(Log(Events(db.outbox), ChangesOf(wallet))[i], es[i], FirstVersion(db.transactions, es) + i);
      TheirWallet(db.ledger, wallet, i);
    }
    SameTotals(es, replayed);
    ChainTotals(es, w.balance.currency);
  }

  lemma LoggedFor(db: Db, wallet: string)
    requires Inv(db)
    ensures WalletLogged(db.transactions, db.ledger, Events(db.outbox), wallet)
  {
  }

  lemma TheirWallet(ledger: seq<Entry>, wallet: string, i: nat)
    requires i < |EntriesOf(ledger, wallet)|
    ensures EntriesOf(ledger, wallet)[i].walletId == wallet
  {
    EntriesAreFromLedger(ledger, wallet);
  }

  lemma {:induction false} SameTotals(a: seq<Entry>, b: seq<Entry>)
    requires |a| == |b| && forall i :: 0 <= i < |a| ==> b[i] == a[i].(id := "")
    ensures Total(a) == Total(b)
  {
    if a != [] {
      SameTotals(a[..|a| - 1], b[..|b| - 1]);
      assert b[|b| - 1] == a[|a| - 1].(id := "");
    }
  }

  /** A fact repeats the row it is about, and the observed balance when there is one. */
  predicate Tells(f: TransactionFact, t: Transaction) {
    && f.transactionId == t.id && f.kind == t.kind && f.status == t.status && f.walletId == t.walletId
    && f.playerId == t.playerId && f.money == t.money && f.providerId == t.providerId && f.externalId == t.externalId
    && f.roundId == t.roundId && f.gameId == t.gameId && f.failureCode == t.failureCode
    && (f.balanceAfter.Some? <==> t.status.Processed?)
    && (f.balanceAfter.Some? ==> f.balanceAfter.value == t.balanceAfter)
  }

  /**
   * After any run each operation has exactly one terminal event when it is terminal
   * and none before, saying what its row says, and exactly one pending event when it
   * ever waited.
   */
  lemma EveryOutcomeIsLoggedOnce(policy: Policy, actions: seq<Action>, id: string)
    requires Normalised(policy) && AllTicking(actions)
    ensures var db := Run(policy, EMPTY, actions);
            var outcomes, waits := Log(Events(db.outbox), OutcomeOf(id)), Log(Events(db.outbox), WaitOf(id));
            && |outcomes| == (if id in db.transactions && db.transactions[id].status.IsTerminal() then 1 else 0)
            && (|outcomes| == 1 ==> (outcomes[0].TransactionProcessed? || outcomes[0].TransactionRejected?)
                                    && Tells(outcomes[0].fact, db.transactions[id])
                                    && (outcomes[0].TransactionProcessed? <==> db.transactions[id].status.Processed?))
            && |waits| == if id in db.transactions && 0 < db.transactions[id].attempts then 1 else 0
  {
    hide Run, Log, Extends, Unique, WalletsBalance, LedgerExplained, ReversalsResolve, SchemaAccepts, WalletLogged;
    EmptyIsSound();
    RunKeeps(policy, EMPTY, actions);
    var db := Run(policy, EMPTY, actions);
    assert OutcomeLogged(db.transactions, Events(db.outbox), id) && WaitLogged(db.transactions, Events(db.outbox), id);
    if id in db.transactions { assert RowFits(db.transactions[id], db.wallets); }
  }
}
