/** Opening a wallet: the only step that creates one, and the only one that creates money. */
module Openings {
  import opened Base
  import opened Money
  import opened Domain
  import opened Tables
  import opened Steps

  /** A wallet about to be inserted, with its opening credit when it opens with money. */
  datatype Opened = Opened(wallet: Wallet, credit: Option<(Transaction, Entry)>)

  function Open(playerId: string, initial: Money, walletId: string, stamp: Stamp): Result<Opened> {
    var opening :- OpenWallet(walletId, playerId, initial, stamp.transactionId, stamp.entryId, stamp.now);
    if opening.entry.None? then Ok(Opened(opening.wallet, None))
    else
      var row :- NewOpening(stamp.transactionId, walletId, playerId, initial, stamp.now);
      Ok(Opened(opening.wallet, Some((row, opening.entry.value))))
  }

  function OpeningEvents(o: Opened): seq<Event> {
    match o.credit
    case None => []
    case Some((row, entry)) => EventsOf(row, false, Some(Movement(o.wallet, entry)))
  }

  function CommitOpening(db: Db, o: Opened, stamp: Stamp): Db {
    var born := db.(wallets := db.wallets[o.wallet.id := o.wallet]);
    match o.credit
    case None => born
    case Some((row, entry)) =>
      var events := OpeningEvents(o);
      born.(
        transactions := db.transactions[row.id := row],
        ledger := db.ledger + [entry],
        outbox := if |events| <= 2 then Recorded(db.outbox, events, stamp) else db.outbox)
  }

  /** The unique rules of the schema for the rows an opening writes. */
  ghost predicate OpeningAdmitted(db: Db, o: Opened, stamp: Stamp) {
    && o.wallet.id !in db.wallets
    && (forall id :: id in db.wallets ==> !SameOwner(db.wallets[id], o.wallet))
    && (o.credit.Some? ==>
          && o.credit.value.0.id !in db.transactions
          && FreshEntry(db.ledger, o.credit.value.1.id)
          && FreshEvent(db.outbox, stamp.firstEvent) && FreshEvent(db.outbox, stamp.secondEvent)
          && stamp.firstEvent != stamp.secondEvent)
  }

  /** No table mentions a wallet that does not exist yet. */
  lemma NothingBeforeOpening(db: Db, w: string)
    requires Inv(db) && w !in db.wallets
    ensures EntriesOf(db.ledger, w) == [] && Log(Events(db.outbox), ChangesOf(w)) == []
    ensures forall id :: id in db.transactions ==> db.transactions[id].walletId != w
  {
    hide Log, Linked, SchemaAccepts;
    forall i | 0 <= i < |db.ledger|
      ensures db.ledger[i].walletId != w
    {
      assert Explains(db.transactions, db.ledger[i]);
      assert RowFits(db.transactions[db.ledger[i].transactionId], db.wallets);
    }
    NoEntries(db.ledger, w);
    assert WalletLogged(db.transactions, db.ledger, Events(db.outbox), w);
  }

  lemma {:induction false} NoEntries(ledger: seq<Entry>, w: string)
    requires forall i :: 0 <= i < |ledger| ==> ledger[i].walletId != w
    ensures EntriesOf(ledger, w) == []
  {
    if ledger != [] {
      NoEntries(ledger[..|ledger| - 1], w);
    }
  }

  /** A wallet that opens empty has empty books. */
  lemma EmptyOpening(db: Db, w: Wallet)
    requires Inv(db) && w.id !in db.wallets && SoundWallet(w) && w.version == 1 && w.balance.minor == 0
    requires forall id :: id in db.wallets ==> !SameOwner(db.wallets[id], w)
    ensures Inv(db.(wallets := db.wallets[w.id := w]))
  {
    hide SchemaAccepts, StatusFits, LogComplete, Unique, ReversalsResolve, AllExplained, AllRecorded, Chained,
      DistinctEvents, OneWalletEach;
    NothingBeforeOpening(db, w.id);
    var after := db.(wallets := db.wallets[w.id := w]);
    forall id | id in after.transactions
      ensures RowFits(after.transactions[id], after.wallets)
    {
      assert RowFits(db.transactions[id], db.wallets);
    }
    forall id | id in after.wallets
      ensures after.wallets[id].id == id && SoundWallet(after.wallets[id]) && BooksBalance(after, after.wallets[id])
    {
      if id != w.id {
        assert BooksBalance(db, db.wallets[id]);
      } else {
        NothingIsChained(w.balance.currency);
      }
    }
    StillOneEach(db.wallets, w);
  }

  lemma StillOneEach(wallets: map<string, Wallet>, w: Wallet)
    requires OneWalletEach(wallets) && forall id :: id in wallets ==> !SameOwner(wallets[id], w)
    ensures OneWalletEach(wallets[w.id := w])
  {
  }

  lemma NothingIsChained(currency: string)
    ensures Chained([], currency)
  {
  }

  /** The shape of an opening with money. */
  predicate Credited(o: Opened) {
    o.credit.Some? &&
    var (row, entry) := o.credit.value;
    && SoundWallet(o.wallet) && o.wallet.version == 1 && 0 < o.wallet.balance.minor
    && row.id != "" && row.origin.Internal? && row.kind.OpeningCredit? && row.status.Processed?
    && row.walletId == o.wallet.id && row.playerId == o.wallet.playerId
    && row.money == o.wallet.balance == row.balanceAfter
    && row.resolvedReferenceId == "" && row.attempts == 0 && RowFits(row, map[o.wallet.id := o.wallet])
    && entry.id != "" && entry.walletId == o.wallet.id && entry.transactionId == row.id && entry.direction.Credit?
    && entry.amount == o.wallet.balance && entry.before == Money(0, o.wallet.balance.currency)
    && entry.after == o.wallet.balance && entry.createdAt != 0
  }

  lemma OpenShape(playerId: string, initial: Money, walletId: string, stamp: Stamp)
    ensures var o := Open(playerId, initial, walletId, stamp);
            o.Ok? ==> && SoundWallet(o.value.wallet) && o.value.wallet.version == 1 && o.value.wallet.id == walletId
                      && o.value.wallet.balance == initial
                      && (o.value.credit.Some? ==>
                            Credited(o.value) && o.value.credit.value.0.id == stamp.transactionId)
                      && (o.value.credit.None? ==> initial.minor == 0)
  {
  }

  lemma OpeningRows(db: Db, o: Opened, stamp: Stamp)
    requires Inv(db) && Credited(o) && o.wallet.id !in db.wallets
    requires o.credit.value.0.id !in db.transactions
    ensures Unique(CommitOpening(db, o, stamp).transactions) && TransactionsFit(CommitOpening(db, o, stamp))
  {
    hide SchemaAccepts, StatusFits, LogComplete, ReversalsResolve, AllExplained, AllRecorded, BooksBalance,
      DistinctEvents;
    NothingBeforeOpening(db, o.wallet.id);
    var row, rows := o.credit.value.0, db.transactions;
    forall id | id in rows
      ensures !Clash(rows[id], row) && !Clash(row, rows[id])
      ensures RowFits(rows[id], db.wallets[o.wallet.id := o.wallet])
    {
      assert RowFits(rows[id], db.wallets);
      OpeningsAreInternal(rows[id]);
    }
  }

  lemma OpeningsAreInternal(t: Transaction)
    requires SchemaAccepts(t)
    ensures t.kind.OpeningCredit? <==> t.origin.Internal?
  {
  }

  lemma OpeningBooks(db: Db, o: Opened, stamp: Stamp)
    requires Inv(db) && Credited(o) && OpeningAdmitted(db, o, stamp)
    ensures WalletsBalance(CommitOpening(db, o, stamp))
  {
    hide SchemaAccepts, StatusFits, LogComplete, ReversalsResolve, AllRecorded, DistinctEvents, BooksBalance, Explains,
      EventsOf, Recorded, OneWalletEach;
    var after := CommitOpening(db, o, stamp);
    var (row, entry) := o.credit.value;
    NothingBeforeOpening(db, o.wallet.id);
    forall id | id in after.wallets
      ensures after.wallets[id].id == id && SoundWallet(after.wallets[id]) && BooksBalance(after, after.wallets[id])
    {
      EntriesOfAppend(db.ledger, entry, id);
      if id == o.wallet.id {
        OpenedBooks(after, o);
      } else {
        BooksUntouched(db, after, db.wallets[id], row);
      }
    }
  }

  lemma OpenedBooks(after: Db, o: Opened)
    requires Credited(o) && EntriesOf(after.ledger, o.wallet.id) == [o.credit.value.1]
    requires o.credit.value.0.id in after.transactions && after.transactions[o.credit.value.0.id] == o.credit.value.0
    ensures BooksBalance(after, o.wallet)
  {
  }

  lemma OpeningLogged(db: Db, o: Opened, stamp: Stamp)
    requires Inv(db) && Credited(o) && OpeningAdmitted(db, o, stamp)
    ensures OutboxComplete(CommitOpening(db, o, stamp))
  {
    hide SchemaAccepts, StatusFits, ReversalsResolve, AllRecorded, BooksBalance, Log, Unique, WalletsBalance, Explains,
      OutcomeLogged, WaitLogged, WalletLogged, DistinctEvents, EntriesOf;
    var after := CommitOpening(db, o, stamp);
    var (row, entry) := o.credit.value;
    var m, log, events := Movement(o.wallet, entry), Events(db.outbox), OpeningEvents(o);
    assert |events| == 2 by { TwoEvents(row, m); }
    EventsRecorded(db.outbox, events, stamp);
    FreshEventsKeepDistinct(db.outbox, events, stamp);
    forall id
      ensures OutcomeLogged(after.transactions, log + events, id) && WaitLogged(after.transactions, log + events, id)
    {
      OutcomesKept(db.transactions, log, row, false, Some(m), id);
    }
    NothingBeforeOpening(db, o.wallet.id);
    forall w
      ensures WalletLogged(after.transactions, after.ledger, log + events, w)
    {
      assert WalletLogged(db.transactions, db.ledger, log, w);
      OpeningChangeLogged(db.transactions, db.ledger, log, o, w);
    }
  }

  lemma TwoEvents(row: Transaction, m: Movement)
    requires row.status.Processed?
    ensures |EventsOf(row, false, Some(m))| == 2
  {
  }

  lemma OpeningChangeLogged(rows: Rows, ledger: seq<Entry>, log: seq<Event>, o: Opened, w: string)
    requires Credited(o) && WalletLogged(rows, ledger, log, w) && AllExplained(rows, ledger)
    requires o.credit.value.0.id !in rows
    requires w == o.wallet.id ==> EntriesOf(ledger, w) == [] && Log(log, ChangesOf(w)) == []
    ensures var (row, entry) := o.credit.value;
            WalletLogged(rows[row.id := row], ledger + [entry], log + OpeningEvents(o), w)
  {
    hide Log, Explains, EntriesOf, RowFits;
    var (row, entry) := o.credit.value;
    var m := Movement(o.wallet, entry);
    LogConcat(log, OpeningEvents(o), ChangesOf(w));
    EventsByTopic(row, false, Some(m), "", w);
    EntriesOfAppend(ledger, entry, w);
    WalletExplained(rows, ledger, w);
    OpeningsUnmoved(rows, row, EntriesOf(ledger, w));
  }

  lemma CreditKeepsInvariant(db: Db, o: Opened, stamp: Stamp)
    requires Inv(db) && Credited(o) && OpeningAdmitted(db, o, stamp)
    ensures Inv(CommitOpening(db, o, stamp))
  {
    OpeningRows(db, o, stamp);
    OpeningBooks(db, o, stamp);
    StillOneEach(db.wallets, o.wallet);
    OpeningLogged(db, o, stamp);
    OpeningLedger(db, o, stamp);
  }

  lemma OpeningLedger(db: Db, o: Opened, stamp: Stamp)
    requires Inv(db) && Credited(o) && OpeningAdmitted(db, o, stamp)
    ensures LedgerExplained(CommitOpening(db, o, stamp)) && ReversalsResolve(CommitOpening(db, o, stamp).transactions)
  {
    hide SchemaAccepts, StatusFits, Log, BooksBalance, LogComplete, DistinctEvents, Unique, EntriesOf, EventsOf,
      RowFits;
    var (row, entry) := o.credit.value;
    LedgerKept(db.transactions, db.ledger, row, Some(entry));
    ReversalsKept(db.transactions, row);
  }

  lemma OpeningExtends(db: Db, o: Opened, stamp: Stamp)
    requires OpeningAdmitted(db, o, stamp) && |OpeningEvents(o)| <= 2
    ensures Extends(db, CommitOpening(db, o, stamp))
  {
    hide Log, EventsOf, FreshEntry, FreshEvent, SameOwner;
    EventsRecorded(db.outbox, OpeningEvents(o), stamp);
  }

  /** Opening keeps the invariant and only moves history forward. */
  lemma OpeningKeepsInvariant(db: Db, playerId: string, initial: Money, walletId: string, stamp: Stamp)
    requires Inv(db) && Open(playerId, initial, walletId, stamp).Ok?
    requires OpeningAdmitted(db, Open(playerId, initial, walletId, stamp).value, stamp)
    ensures var after := CommitOpening(db, Open(playerId, initial, walletId, stamp).value, stamp);
            Inv(after) && Extends(db, after)
  {
    hide Inv, Open, Extends, EventsOf;
    OpenShape(playerId, initial, walletId, stamp);
    var o := Open(playerId, initial, walletId, stamp).value;
    if o.credit.None? {
      EmptyOpening(db, o.wallet);
    } else {
      TwoEvents(o.credit.value.0, Movement(o.wallet, o.credit.value.1));
      CreditKeepsInvariant(db, o, stamp);
    }
    OpeningExtends(db, o, stamp);
  }
}
