/** The committed database: five tables, the reads the repositories offer, and the invariant. */
module Tables {
  import opened Base
  import opened Money
  import opened Domain

  datatype InboxRow = InboxRow(payloadHash: string, receivedAt: Instant, completedAt: Instant)

  datatype OutboxRow = OutboxRow(
    eventId: string,
    event: Event,
    attempts: nat,
    nextAttemptAt: Instant,
    publishedAt: Instant)

  type Rows = map<string, Transaction>

  datatype Db = Db(
    wallets: map<string, Wallet>,
    transactions: Rows,
    ledger: seq<Entry>,
    inbox: map<(string, string), InboxRow>,
    outbox: seq<OutboxRow>)

  const EMPTY := Db(map[], map[], [], map[], [])

  /* ---- reads ---- */

  predicate IsBusiness(t: Transaction, provider: string, external: string) {
    t.origin.External? && t.providerId == provider && t.externalId == external
  }

  predicate IsProcessedReversalOf(t: Transaction, reference: string) {
    t.status.Processed? && t.resolvedReferenceId == reference && reference != ""
  }

  ghost function FindByBusinessId(rows: Rows, provider: string, external: string): (r: Option<Transaction>)
    ensures r.Some? ==> exists id :: id in rows && rows[id] == r.value && IsBusiness(rows[id], provider, external)
    ensures r.None? ==> forall id :: id in rows ==> !IsBusiness(rows[id], provider, external)
  {
    if exists id :: id in rows && IsBusiness(rows[id], provider, external) then
      var id :| id in rows && IsBusiness(rows[id], provider, external);
      Some(rows[id])
    else None
  }

  ghost predicate Unreversed(rows: Rows, reference: string) {
    forall id :: id in rows ==> !IsProcessedReversalOf(rows[id], reference)
  }

  /** One wallet's entries, in the order the ledger holds them. */
  function EntriesOf(ledger: seq<Entry>, wallet: string): seq<Entry> {
    if ledger == [] then []
    else
      var front, last := ledger[..|ledger| - 1], ledger[|ledger| - 1];
      if last.walletId == wallet then EntriesOf(front, wallet) + [last] else EntriesOf(front, wallet)
  }

  lemma EntriesOfAppend(ledger: seq<Entry>, e: Entry, wallet: string)
    ensures EntriesOf(ledger + [e], wallet)
            == if e.walletId == wallet then EntriesOf(ledger, wallet) + [e] else EntriesOf(ledger, wallet)
  {
    assert (ledger + [e])[..|ledger|] == ledger;
  }

  lemma {:induction false} EntriesAreFromLedger(ledger: seq<Entry>, wallet: string)
    ensures forall i :: 0 <= i < |EntriesOf(ledger, wallet)| ==>
                          EntriesOf(ledger, wallet)[i] in ledger && EntriesOf(ledger, wallet)[i].walletId == wallet
  {
    if ledger != [] {
      EntriesAreFromLedger(ledger[..|ledger| - 1], wallet);
    }
  }

  lemma {:induction false} LedgerEntriesAreListed(ledger: seq<Entry>, i: nat)
    requires i < |ledger|
    ensures ledger[i] in EntriesOf(ledger, ledger[i].walletId)
  {
    var front := ledger[..|ledger| - 1];
    if i < |front| {
      LedgerEntriesAreListed(front, i);
    }
  }

  /* ---- the schema's own checks ---- */

  /** The row checks the database repeats: shape, amount policy, codes, waits. */
  predicate SchemaAccepts(t: Transaction) {
    && (if t.kind.Loss? then t.money.minor == 0 else 0 < t.money.minor)
    && (t.origin.Internal? ==>
          && t.kind.OpeningCredit? && t.providerId == "" && t.externalId == "" && t.idempotencyKey == ""
          && t.payloadHash == "" && t.roundId == "" && t.gameId == "" && t.referenceExternalId == "")
    && (t.origin.External? ==>
          && !t.kind.OpeningCredit? && t.providerId != "" && t.externalId != "" && t.idempotencyKey != ""
          && t.payloadHash != "" && t.roundId != "" && t.gameId != "")
    && (t.kind.IsReversal() <==> t.referenceExternalId != "")
    && (t.status.Rejected? || t.status.Failed? <==> t.failureCode != NoCode)
    && (t.balanceAfter.IsInitialised() ==> 0 <= t.balanceAfter.minor)
    && (t.status.PendingReference? ==> t.kind.IsReversal() && t.nextAttemptAt != 0 && t.deadlineAt != 0)
  }

  /* ---- the invariant, part by part ---- */

  /** What each stored status means for the rest of the row. */
  predicate StatusFits(t: Transaction) {
    && (t.status.Processed? || t.status.Rejected? || t.status.PendingReference?)
    && (t.status.Processed? ==>
          && t.balanceAfter.currency == t.money.currency && 0 <= t.balanceAfter.minor
          && (t.kind.IsReversal() <==> t.resolvedReferenceId != ""))
    && (!t.status.Processed? ==> t.balanceAfter == UNSET && t.resolvedReferenceId == "")
    && (t.status.PendingReference? ==> 1 <= t.attempts)
    && (1 <= t.attempts ==> t.kind.IsReversal() && t.nextAttemptAt != 0 && t.deadlineAt != 0)
    && (t.attempts == 0 ==> t.nextAttemptAt == 0 && t.deadlineAt == 0)
  }

  predicate RowFits(t: Transaction, wallets: map<string, Wallet>) {
    && t.id != "" && t.playerId != "" && t.createdAt != 0 && t.updatedAt != 0 && t.money.IsInitialised()
    && t.walletId in wallets && wallets[t.walletId].playerId == t.playerId
    && SchemaAccepts(t)
    && StatusFits(t)
  }

  ghost predicate TransactionsFit(db: Db) {
    forall id :: id in db.transactions ==> db.transactions[id].id == id && RowFits(db.transactions[id], db.wallets)
  }

  predicate SameBusiness(a: Transaction, b: Transaction) {
    b.origin.External? && IsBusiness(a, b.providerId, b.externalId)
  }

  predicate SameKey(a: Transaction, b: Transaction) {
    a.origin.External? && b.origin.External? && a.providerId == b.providerId && a.idempotencyKey == b.idempotencyKey
  }

  predicate SameOpening(a: Transaction, b: Transaction) {
    a.kind.OpeningCredit? && b.kind.OpeningCredit? && a.walletId == b.walletId
  }

  predicate SameReference(a: Transaction, b: Transaction) {
    a.status.Processed? && b.status.Processed? && a.resolvedReferenceId == b.resolvedReferenceId != ""
  }

  predicate Clash(a: Transaction, b: Transaction) {
    SameBusiness(a, b) || SameKey(a, b) || SameOpening(a, b) || SameReference(a, b)
  }

  /** Two different rows never claim the same identity, key, opening or reference. */
  ghost predicate Unique(rows: Rows) {
    forall a, b :: a in rows && b in rows && a != b ==> !Clash(rows[a], rows[b])
  }

  predicate Linked(es: seq<Entry>, i: nat, currency: string)
    requires i < |es|
  {
    var e := es[i];
    && e.before == Money(if i == 0 then 0 else es[i - 1].after.minor, currency)
    && e.amount.currency == currency && 0 < e.amount.minor
    && e.after.currency == currency
    && e.after.minor == e.before.minor + e.Signed()
    && 0 <= e.after.minor
  }

  /** An unbroken chain from zero: each balance before is the previous balance after. */
  predicate Chained(es: seq<Entry>, currency: string) {
    forall i: nat :: i < |es| ==> Linked(es, i, currency)
  }

  predicate OpensWithCredit(rows: Rows, es: seq<Entry>) {
    es != [] && es[0].transactionId in rows && rows[es[0].transactionId].kind.OpeningCredit?
  }

  function FirstVersion(rows: Rows, es: seq<Entry>): int {
    if OpensWithCredit(rows, es) then 1 else 2
  }

  ghost predicate OpeningOnlyFirst(rows: Rows, es: seq<Entry>) {
    forall i :: 0 < i < |es| ==> es[i].transactionId in rows && !rows[es[i].transactionId].kind.OpeningCredit?
  }

  ghost predicate BooksBalance(db: Db, w: Wallet) {
    var es := EntriesOf(db.ledger, w.id);
    && Chained(es, w.balance.currency)
    && w.balance.minor == (if es == [] then 0 else es[|es| - 1].after.minor)
    && w.version as int == |es| + FirstVersion(db.transactions, es) - 1
    && OpeningOnlyFirst(db.transactions, es)
  }

  ghost predicate WalletsBalance(db: Db) {
    forall id :: id in db.wallets ==>
                   && db.wallets[id].id == id && SoundWallet(db.wallets[id])
                   && BooksBalance(db, db.wallets[id])
  }

  ghost predicate OneWalletEach(wallets: map<string, Wallet>) {
    forall a, b :: a in wallets && b in wallets && a != b ==> !SameOwner(wallets[a], wallets[b])
  }

  predicate SameOwner(a: Wallet, b: Wallet) {
    a.playerId == b.playerId && a.balance.currency == b.balance.currency
  }

  /** Which way a processed operation moved money; a rollback answers for what it undid. */
  function DirectionOf(rows: Rows, t: Transaction): Option<Direction> {
    if !t.kind.Rollback? then t.kind.Direction()
    else if t.resolvedReferenceId !in rows then None
    else match rows[t.resolvedReferenceId].kind.Direction()
         case None => None
         case Some(d) => Some(d.Opposite())
  }

  /** The operation behind an entry: processed, same wallet, same money, same observed balance. */
  predicate Explains(rows: Rows, e: Entry) {
    e.transactionId in rows &&
    var t := rows[e.transactionId];
    && t.status.Processed? && t.kind.MovesMoney() && e.id != "" && e.createdAt != 0
    && e.walletId == t.walletId && e.amount == t.money && e.after == t.balanceAfter
    && DirectionOf(rows, t) == Some(e.direction)
  }

  predicate HasEntry(ledger: seq<Entry>, transaction: string) {
    exists i :: 0 <= i < |ledger| && ledger[i].transactionId == transaction
  }

  predicate AllExplained(rows: Rows, es: seq<Entry>) {
    forall i :: 0 <= i < |es| ==> Explains(rows, es[i])
  }

  /** No entry id and no transaction stands twice in the ledger. */
  predicate DistinctEntries(es: seq<Entry>) {
    forall i, j :: 0 <= i < j < |es| ==> es[i].id != es[j].id && es[i].transactionId != es[j].transactionId
  }

  /** Every processed operation that moves money has its entry. */
  predicate AllRecorded(rows: Rows, es: seq<Entry>) {
    forall id :: id in rows && rows[id].status.Processed? && rows[id].kind.MovesMoney() ==> HasEntry(es, id)
  }

  predicate LedgerExplained(db: Db) {
    && AllExplained(db.transactions, db.ledger)
    && DistinctEntries(db.ledger)
    && AllRecorded(db.transactions, db.ledger)
  }

  /** A reversal is about the same money in the same place as what it undid. */
  predicate Undoes(t: Transaction, f: Transaction) {
    && f.status.Processed? && t.kind.CanReverse(f.kind)
    && f.origin.External? && f.providerId == t.providerId && f.externalId == t.referenceExternalId
    && f.walletId == t.walletId && f.playerId == t.playerId && f.roundId == t.roundId && f.money == t.money
  }

  ghost predicate ReversalsResolve(rows: Rows) {
    forall id :: id in rows && rows[id].status.Processed? && rows[id].kind.IsReversal() ==>
                   && rows[id].resolvedReferenceId in rows
                   && Undoes(rows[id], rows[rows[id].resolvedReferenceId])
  }

  /* ---- the outbox as a log ---- */

  function Events(outbox: seq<OutboxRow>): (es: seq<Event>)
    ensures |es| == |outbox| && forall i :: 0 <= i < |es| ==> es[i] == outbox[i].event
  {
    seq(|outbox|, i requires 0 <= i < |outbox| => outbox[i].event)
  }

  datatype Topic = OutcomeOf(transaction: string) | WaitOf(transaction: string) | ChangesOf(wallet: string)

  predicate About(e: Event, topic: Topic) {
    match topic
    case OutcomeOf(id) => (e.TransactionProcessed? || e.TransactionRejected?) && e.fact.transactionId == id
    case WaitOf(id) => e.TransactionPendingReference? && e.fact.transactionId == id
    case ChangesOf(w) => e.BalanceChanged? && e.walletId == w
  }

  /** The events on one topic, in the order they were recorded. */
  function Log(es: seq<Event>, topic: Topic): seq<Event> {
    if es == [] then []
    else
      var front, last := es[..|es| - 1], es[|es| - 1];
      if About(last, topic) then Log(front, topic) + [last] else Log(front, topic)
  }

  lemma {:induction false} LogConcat(es: seq<Event>, fs: seq<Event>, topic: Topic)
    ensures Log(es + fs, topic) == Log(es, topic) + Log(fs, topic)
  {
    if fs == [] {
      assert es + fs == es;
    } else {
      LogConcat(es, fs[..|fs| - 1], topic);
      assert (es + fs)[..|es + fs| - 1] == es + fs[..|fs| - 1];
    }
  }

  function OutcomeEvents(rows: Rows, id: string): seq<Event> {
    if id !in rows then []
    else if rows[id].status.Processed? then [TransactionProcessed(Fact(rows[id]), rows[id].updatedAt)]
    else if rows[id].status.Rejected? then [TransactionRejected(Fact(rows[id]), rows[id].updatedAt)]
    else []
  }

  predicate EverParked(rows: Rows, id: string) { id in rows && 0 < rows[id].attempts }

  /** The i-th balance change of a wallet is its i-th entry, under consecutive versions. */
  predicate ChangeMatches(c: Event, e: Entry, version: int) {
    c.BalanceChanged? && c.walletVersion as int == version
    && c == BalanceChanged(e.walletId, e.transactionId, e.direction, e.amount, e.before, e.after, c.walletVersion,
                           e.createdAt)
  }

  predicate ChangesMatch(cs: seq<Event>, es: seq<Entry>, first: int) {
    |cs| == |es| && forall i :: 0 <= i < |es| ==> ChangeMatches(cs[i], es[i], first + i)
  }

  predicate DistinctEvents(outbox: seq<OutboxRow>) {
    forall i, j :: 0 <= i < j < |outbox| ==> outbox[i].eventId != outbox[j].eventId
  }

  /** One terminal event per terminal row, saying what the row says. */
  predicate OutcomeLogged(rows: Rows, log: seq<Event>, id: string) {
    Log(log, OutcomeOf(id)) == OutcomeEvents(rows, id)
  }

  /** One pending event per row that ever waited. */
  predicate WaitLogged(rows: Rows, log: seq<Event>, id: string) {
    |Log(log, WaitOf(id))| == if EverParked(rows, id) then 1 else 0
  }

  predicate WalletLogged(rows: Rows, ledger: seq<Entry>, log: seq<Event>, w: string) {
    var es := EntriesOf(ledger, w);
    ChangesMatch(Log(log, ChangesOf(w)), es, FirstVersion(rows, es))
  }

  ghost predicate LogComplete(rows: Rows, ledger: seq<Entry>, log: seq<Event>) {
    && (forall id :: OutcomeLogged(rows, log, id))
    && (forall id :: WaitLogged(rows, log, id))
    && (forall w :: WalletLogged(rows, ledger, log, w))
  }

  ghost predicate OutboxComplete(db: Db) {
    DistinctEvents(db.outbox) && LogComplete(db.transactions, db.ledger, Events(db.outbox))
  }

  ghost predicate InboxComplete(db: Db) {
    forall k :: k in db.inbox ==> db.inbox[k].completedAt != 0
  }

  /** The invariant of every committed state. */
  ghost predicate Inv(db: Db) {
    && TransactionsFit(db)
    && Unique(db.transactions)
    && WalletsBalance(db)
    && OneWalletEach(db.wallets)
    && LedgerExplained(db)
    && ReversalsResolve(db.transactions)
    && OutboxComplete(db)
    && InboxComplete(db)
  }

  lemma EmptyIsSound()
    ensures Inv(EMPTY)
  {
  }

  /* ---- what no step ever takes back ---- */

  predicate RowAdvances(a: Transaction, b: Transaction) {
    && a.Identity() == b.Identity()
    && (a.status.IsTerminal() ==> a == b)
    && (a != b ==> a.status == b.status || AllowedTransition(a.status, b.status))
    && (0 < a.attempts ==> a.deadlineAt == b.deadlineAt)
    && a.attempts <= b.attempts
  }

  predicate WalletAdvances(a: Wallet, b: Wallet) {
    && a.id == b.id && a.playerId == b.playerId && a.balance.currency == b.balance.currency
    && a.version <= b.version
    && (a.version == b.version ==> a == b)
  }

  function EventIds(outbox: seq<OutboxRow>): (ids: seq<string>)
    ensures |ids| == |outbox| && forall i :: 0 <= i < |ids| ==> ids[i] == outbox[i].eventId
  {
    seq(|outbox|, i requires 0 <= i < |outbox| => outbox[i].eventId)
  }

  /** History only grows: rows advance, entries and events are appended, inbox records stay. */
  ghost predicate Extends(a: Db, b: Db) {
    && (forall id :: id in a.wallets ==> id in b.wallets && WalletAdvances(a.wallets[id], b.wallets[id]))
    && (forall id :: id in a.transactions ==>
                       id in b.transactions && RowAdvances(a.transactions[id], b.transactions[id]))
    && a.ledger <= b.ledger
    && Events(a.outbox) <= Events(b.outbox)
    && EventIds(a.outbox) <= EventIds(b.outbox)
    && (forall k :: k in a.inbox ==> k in b.inbox && a.inbox[k] == b.inbox[k])
  }

  lemma ExtendsTransitive(a: Db, b: Db, c: Db)
    requires Extends(a, b) && Extends(b, c)
    ensures Extends(a, c)
  {
    forall id | id in a.transactions
      ensures id in c.transactions && RowAdvances(a.transactions[id], c.transactions[id])
    {
      var x, y, z := a.transactions[id], b.transactions[id], c.transactions[id];
      assert RowAdvances(x, y) && RowAdvances(y, z);
    }
    forall id | id in a.wallets
      ensures id in c.wallets && WalletAdvances(a.wallets[id], c.wallets[id])
    {
      assert WalletAdvances(a.wallets[id], b.wallets[id]) && WalletAdvances(b.wallets[id], c.wallets[id]);
    }
  }

  lemma ExtendsReflexive(a: Db)
    ensures Extends(a, a)
  {
  }
}
