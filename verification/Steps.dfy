/** What one transaction decides, as a value, and what committing that value does to the tables. */
module Steps {
  import opened Base
  import opened Money
  import opened Domain
  import opened Tables

  /**
   * The outcome of one unit of work: the row it writes (new or already known),
   * the wallet as it was read, the movement if money moves, and its events.
   */
  datatype Effect = Effect(
    row: Transaction,
    known: bool,
    from: Wallet,
    move: Option<Movement>,
    events: seq<Event>)
  {
    /** The balance reported to the caller. */
    function Balance(): Money {
      if move.Some? then move.value.wallet.balance else from.balance
    }
  }

  /** The instant and the identities a unit of work is handed. */
  datatype Stamp = Stamp(now: Instant, transactionId: string, entryId: string, firstEvent: string, secondEvent: string)

  function Unsent(stamp: Stamp, e: Event, id: string): OutboxRow {
    OutboxRow(id, e, 0, stamp.now, 0)
  }

  function Recorded(outbox: seq<OutboxRow>, events: seq<Event>, stamp: Stamp): seq<OutboxRow>
    requires |events| <= 2
  {
    if |events| == 0 then outbox
    else if |events| == 1 then outbox + [Unsent(stamp, events[0], stamp.firstEvent)]
    else outbox + [Unsent(stamp, events[0], stamp.firstEvent)] + [Unsent(stamp, events[1], stamp.secondEvent)]
  }

  /** Everything the effect writes, in one commit. */
  function Commit(db: Db, eff: Effect, stamp: Stamp): Db
    requires |eff.events| <= 2
  {
    db.(
      transactions := db.transactions[eff.row.id := eff.row],
      wallets := if eff.move.Some? then db.wallets[eff.row.walletId := eff.move.value.wallet] else db.wallets,
      ledger := if eff.move.Some? then db.ledger + [eff.move.value.entry] else db.ledger,
      outbox := Recorded(db.outbox, eff.events, stamp))
  }

  /** The events that belong to a row and its movement; a further wait reports nothing. */
  function EventsOf(t: Transaction, known: bool, m: Option<Movement>): seq<Event> {
    match t.status
    case Processed =>
      [TransactionProcessed(Fact(t), t.updatedAt)]
      + (if m.Some? then [Change(m.value.wallet, m.value.entry)] else [])
    case Rejected => [TransactionRejected(Fact(t), t.updatedAt)]
    case PendingReference =>
      if known then []
      else [TransactionPendingReference(Fact(t), t.referenceExternalId, t.attempts, t.deadlineAt, t.updatedAt)]
    case _ => []
  }

  /** The effect agrees with the rows it is about; nothing here depends on the balance. */
  ghost predicate Proper(db: Db, eff: Effect) {
    var t := eff.row;
    && RowFits(t, db.wallets) && !t.kind.OpeningCredit?
    && (eff.known ==>
          && t.id in db.transactions && db.transactions[t.id].status.PendingReference?
          && RowAdvances(db.transactions[t.id], t))
    && (!eff.known ==> t.attempts == if t.status.PendingReference? then 1 else 0)
    && eff.events == EventsOf(t, eff.known, eff.move)
    && (eff.move.Some? <==> t.status.Processed? && t.kind.MovesMoney())
    && (eff.move.Some? ==>
          && eff.from.id == t.walletId && SoundWallet(eff.from)
          && t.balanceAfter == eff.move.value.wallet.balance
          && eff.move.value.entry.id != ""
          && DirectionOf(db.transactions, t).Some?
          && Moved(eff.from, DirectionOf(db.transactions, t).value, eff.move.value.entry.id, t.id, t.money,
                   eff.move.value.entry.createdAt, eff.move.value)
          && eff.move.value.entry.createdAt != 0)
    && (t.status.Processed? && t.kind.IsReversal() ==>
          t.resolvedReferenceId in db.transactions && Undoes(t, db.transactions[t.resolvedReferenceId]))
  }

  /** The wallet is still the one that was read, and what is undone is still undone by nobody. */
  ghost predicate Current(db: Db, eff: Effect) {
    eff.move.Some? ==>
      && eff.row.walletId in db.wallets && db.wallets[eff.row.walletId] == eff.from
      && (eff.row.kind.IsReversal() ==> Unreversed(db.transactions, eff.row.resolvedReferenceId))
  }

  predicate FreshEvent(outbox: seq<OutboxRow>, id: string) {
    forall i :: 0 <= i < |outbox| ==> outbox[i].eventId != id
  }

  predicate FreshEvents(outbox: seq<OutboxRow>, events: seq<Event>, stamp: Stamp) {
    && (|events| >= 1 ==> FreshEvent(outbox, stamp.firstEvent))
    && (|events| >= 2 ==> FreshEvent(outbox, stamp.secondEvent) && stamp.firstEvent != stamp.secondEvent)
  }

  predicate FreshEntry(ledger: seq<Entry>, id: string) {
    forall i :: 0 <= i < |ledger| ==> ledger[i].id != id
  }

  ghost predicate FreshIdentity(rows: Rows, t: Transaction) {
    t.id !in rows && forall id :: id in rows ==> !SameBusiness(rows[id], t) && !SameKey(rows[id], t)
  }

  /** No unique rule of the schema stands in the way, and the version has room. */
  ghost predicate Fresh(db: Db, eff: Effect, stamp: Stamp) {
    && (!eff.known ==> FreshIdentity(db.transactions, eff.row))
    && (eff.move.Some? ==> eff.from.version < MAX_INT64 && FreshEntry(db.ledger, eff.move.value.entry.id))
    && FreshEvents(db.outbox, eff.events, stamp)
  }

  ghost predicate Sound(db: Db, eff: Effect, stamp: Stamp) {
    Proper(db, eff) && Current(db, eff) && Fresh(db, eff, stamp)
  }

  /* ---- every sound commit keeps the invariant ---- */

  /** The row about to be written has not moved money yet. */
  predicate Unsettled(rows: Rows, id: string) {
    id in rows ==> !rows[id].status.Processed?
  }

  lemma EntryStaysExplained(rows: Rows, t: Transaction, e: Entry)
    requires Unsettled(rows, t.id) && ReversalsResolve(rows) && Explains(rows, e)
    ensures e.transactionId != t.id && Explains(rows[t.id := t], e)
  {
    var cause := rows[e.transactionId];
    if cause.kind.Rollback? {
      assert Undoes(cause, rows[cause.resolvedReferenceId]);
    }
  }

  lemma WalletExplained(rows: Rows, ledger: seq<Entry>, w: string)
    requires AllExplained(rows, ledger)
    ensures AllExplained(rows, EntriesOf(ledger, w))
  {
    EntriesAreFromLedger(ledger, w);
  }

  /** Rows already in a wallet's ledger read the same after another row is written. */
  lemma OpeningsUnmoved(rows: Rows, t: Transaction, es: seq<Entry>)
    requires Unsettled(rows, t.id) && AllExplained(rows, es)
    ensures FirstVersion(rows[t.id := t], es) == FirstVersion(rows, es)
    ensures OpeningOnlyFirst(rows, es) ==> OpeningOnlyFirst(rows[t.id := t], es)
  {
    forall i | 0 <= i < |es|
      ensures es[i].transactionId in rows && es[i].transactionId != t.id
    {
      assert Explains(rows, es[i]);
    }
  }

  lemma TransactionsKept(db: Db, eff: Effect, stamp: Stamp)
    requires TransactionsFit(db) && RowFits(eff.row, db.wallets) && |eff.events| <= 2
    requires eff.move.Some? ==> eff.move.value.wallet.playerId == eff.row.playerId
    ensures TransactionsFit(Commit(db, eff, stamp))
  {
    hide SchemaAccepts, StatusFits;
    var after := Commit(db, eff, stamp);
    forall id | id in after.transactions
      ensures after.transactions[id].id == id && RowFits(after.transactions[id], after.wallets)
    {
      if id != eff.row.id {
        assert RowFits(db.transactions[id], db.wallets);
      }
    }
  }

  lemma UniqueKept(rows: Rows, t: Transaction, known: bool)
    requires Unique(rows) && !t.kind.OpeningCredit?
    requires if known then t.id in rows && rows[t.id].Identity() == t.Identity() else FreshIdentity(rows, t)
    requires t.status.Processed? && t.kind.IsReversal() ==> Unreversed(rows, t.resolvedReferenceId)
    requires t.resolvedReferenceId != "" ==> t.kind.IsReversal()
    ensures Unique(rows[t.id := t])
  {
    forall id | id in rows && id != t.id
      ensures !Clash(rows[id], t) && !Clash(t, rows[id])
    {
      if known {
        assert !Clash(rows[id], rows[t.id]) && !Clash(rows[t.id], rows[id]);
        SameIdentityClashes(rows[t.id], t, rows[id]);
      } else {
        assert !SameBusiness(rows[id], t) && !SameKey(rows[id], t);
      }
      if SameReference(rows[id], t) {
        assert IsProcessedReversalOf(rows[id], t.resolvedReferenceId);
      }
    }
  }

  lemma SameIdentityClashes(a: Transaction, b: Transaction, other: Transaction)
    requires a.Identity() == b.Identity()
    ensures SameBusiness(a, other) == SameBusiness(b, other) && SameBusiness(other, a) == SameBusiness(other, b)
    ensures SameKey(a, other) == SameKey(b, other) && SameKey(other, a) == SameKey(other, b)
  {
    assert a.Identity().origin == a.origin == b.origin;
    assert a.Identity().providerId == a.providerId == b.providerId;
    assert a.Identity().externalId == a.externalId == b.externalId;
    assert a.Identity().idempotencyKey == a.idempotencyKey == b.idempotencyKey;
  }

  /** One more linked entry makes a longer chain. */
  lemma ChainExtends(es: seq<Entry>, e: Entry, currency: string)
    requires Chained(es, currency) && Linked(es + [e], |es|, currency)
    ensures Chained(es + [e], currency)
  {
    forall i: nat | i < |es + [e]|
      ensures Linked(es + [e], i, currency)
    {
      if i < |es| {
        assert Linked(es, i, currency);
      }
    }
  }

  lemma BooksUntouched(before: Db, after: Db, w: Wallet, t: Transaction)
    requires BooksBalance(before, w) && AllExplained(before.transactions, before.ledger)
    requires Unsettled(before.transactions, t.id) && after.transactions == before.transactions[t.id := t]
    requires EntriesOf(after.ledger, w.id) == EntriesOf(before.ledger, w.id)
    ensures BooksBalance(after, w)
  {
    hide Chained, Explains, EntriesOf;
    WalletExplained(before.transactions, before.ledger, w.id);
    OpeningsUnmoved(before.transactions, t, EntriesOf(before.ledger, w.id));
  }

  lemma BooksMoved(before: Db, after: Db, w: Wallet, t: Transaction, m: Movement)
    requires BooksBalance(before, w) && AllExplained(before.transactions, before.ledger) && SoundWallet(w)
    requires Unsettled(before.transactions, t.id) && after.transactions == before.transactions[t.id := t]
    requires after.ledger == before.ledger + [m.entry]
    requires !t.kind.OpeningCredit? && 0 < t.money.minor && w.version < MAX_INT64
    requires Moved(w, m.entry.direction, m.entry.id, t.id, t.money, m.entry.createdAt, m)
    requires t.money.currency == w.balance.currency
    ensures BooksBalance(after, m.wallet) && SoundWallet(m.wallet) == (m.entry.createdAt != 0)
  {
    hide Explains, EntriesOf, Chained;
    var es := EntriesOf(before.ledger, w.id);
    WalletExplained(before.transactions, before.ledger, w.id);
    OpeningsUnmoved(before.transactions, t, es);
    EntriesOfAppend(before.ledger, m.entry, w.id);
    assert Linked(es + [m.entry], |es|, w.balance.currency);
    ChainExtends(es, m.entry, w.balance.currency);
    assert (es + [m.entry])[|es|] == m.entry;
    assert forall i :: 0 <= i < |es| ==> (es + [m.entry])[i] == es[i];
  }

  lemma ReversalsKept(rows: Rows, t: Transaction)
    requires ReversalsResolve(rows) && Unsettled(rows, t.id)
    requires t.status.Processed? && t.kind.IsReversal() ==>
               t.resolvedReferenceId in rows && Undoes(t, rows[t.resolvedReferenceId])
    ensures ReversalsResolve(rows[t.id := t])
  {
    var after := rows[t.id := t];
    forall id | id in after && after[id].status.Processed? && after[id].kind.IsReversal()
      ensures after[id].resolvedReferenceId in after && Undoes(after[id], after[after[id].resolvedReferenceId])
    {
      if id != t.id {
        assert Undoes(rows[id], rows[rows[id].resolvedReferenceId]);
      }
    }
  }

  lemma LedgerKept(rows: Rows, es: seq<Entry>, t: Transaction, added: Option<Entry>)
    requires AllExplained(rows, es) && DistinctEntries(es) && AllRecorded(rows, es)
    requires ReversalsResolve(rows) && Unsettled(rows, t.id)
    requires added.Some? <==> t.status.Processed? && t.kind.MovesMoney()
    requires added.Some? ==> FreshEntry(es, added.value.id) && added.value.transactionId == t.id
                             && Explains(rows[t.id := t], added.value)
    ensures var after := if added.Some? then es + [added.value] else es;
            AllExplained(rows[t.id := t], after) && DistinctEntries(after) && AllRecorded(rows[t.id := t], after)
  {
    hide Explains;
    var after := if added.Some? then es + [added.value] else es;
    forall i | 0 <= i < |es|
      ensures es[i].transactionId != t.id && Explains(rows[t.id := t], es[i])
    {
      EntryStaysExplained(rows, t, es[i]);
    }
    forall id | id in rows[t.id := t] && rows[t.id := t][id].status.Processed? && rows[t.id := t][id].kind.MovesMoney()
      ensures HasEntry(after, id)
    {
      if id == t.id {
        assert after[|es|].transactionId == id;
      } else {
        var i :| 0 <= i < |es| && es[i].transactionId == id;
        assert after[i].transactionId == id;
      }
    }
  }

  lemma EventsRecorded(outbox: seq<OutboxRow>, events: seq<Event>, stamp: Stamp)
    requires |events| <= 2
    ensures Events(Recorded(outbox, events, stamp)) == Events(outbox) + events
    ensures EventIds(outbox) <= EventIds(Recorded(outbox, events, stamp))
  {
  }

  /** Which topics the events of one effect are about. */
  lemma EventsByTopic(t: Transaction, known: bool, m: Option<Movement>, id: string, w: string)
    requires m.Some? ==> t.status.Processed?
    ensures var es := EventsOf(t, known, m);
            && Log(es, OutcomeOf(id)) == (if id == t.id then OutcomeEvents(map[t.id := t], id) else [])
            && |Log(es, WaitOf(id))| == (if id == t.id && t.status.PendingReference? && !known then 1 else 0)
            && Log(es, ChangesOf(w))
               == if m.Some? && w == m.value.wallet.id then [Change(m.value.wallet, m.value.entry)] else []
  {
    hide Log;
    var es := EventsOf(t, known, m);
    LogShort(es, OutcomeOf(id));
    LogShort(es, WaitOf(id));
    LogShort(es, ChangesOf(w));
  }

  lemma LogShort(es: seq<Event>, topic: Topic)
    requires |es| <= 2
    ensures |es| == 0 ==> Log(es, topic) == []
    ensures |es| == 1 ==> Log(es, topic) == LogOne(es[0], topic)
    ensures |es| == 2 ==> Log(es, topic) == LogOne(es[0], topic) + LogOne(es[1], topic)
  {
    if |es| == 1 {
      assert es == [es[0]];
    } else if |es| == 2 {
      assert es == [es[0]] + [es[1]];
      LogConcat([es[0]], [es[1]], topic);
    }
  }

  function LogOne(e: Event, topic: Topic): (r: seq<Event>)
    ensures r == Log([e], topic)
  {
    assert [e][..0] == [];
    if About(e, topic) then [e] else []
  }

  lemma OutcomesKept(rows: Rows, log: seq<Event>, t: Transaction, known: bool, m: Option<Movement>, id: string)
    requires OutcomeLogged(rows, log, id) && WaitLogged(rows, log, id)
    requires if known then t.id in rows && rows[t.id].status.PendingReference? && 0 < rows[t.id].attempts <= t.attempts
             else t.id !in rows && t.attempts == if t.status.PendingReference? then 1 else 0
    requires m.Some? ==> t.status.Processed?
    ensures OutcomeLogged(rows[t.id := t], log + EventsOf(t, known, m), id)
    ensures WaitLogged(rows[t.id := t], log + EventsOf(t, known, m), id)
  {
    hide Log;
    var es := EventsOf(t, known, m);
    LogConcat(log, es, OutcomeOf(id));
    LogConcat(log, es, WaitOf(id));
    EventsByTopic(t, known, m, id, "");
  }

  lemma ChangesKept(rows: Rows, ledger: seq<Entry>, log: seq<Event>, t: Transaction, known: bool, m: Option<Movement>,
                    w: string)
    requires WalletLogged(rows, ledger, log, w) && AllExplained(rows, ledger) && Unsettled(rows, t.id)
    requires m.Some? ==> t.status.Processed? && !t.kind.OpeningCredit? && m.value.entry.transactionId == t.id
    requires m.Some? ==> m.value.entry.walletId == m.value.wallet.id
    requires m.Some? && w == m.value.wallet.id ==>
               m.value.wallet.version as int
               == |EntriesOf(ledger, w)| + FirstVersion(rows, EntriesOf(ledger, w))
    ensures WalletLogged(rows[t.id := t], if m.Some? then ledger + [m.value.entry] else ledger,
                         log + EventsOf(t, known, m), w)
  {
    hide Log, Explains, EntriesOf, EventsOf;
    var es := EntriesOf(ledger, w);
    LogConcat(log, EventsOf(t, known, m), ChangesOf(w));
    EventsByTopic(t, known, m, "", w);
    WalletExplained(rows, ledger, w);
    OpeningsUnmoved(rows, t, es);
    if m.Some? {
      EntriesOfAppend(ledger, m.value.entry, w);
      if es != [] { assert (es + [m.value.entry])[0] == es[0]; }
    }
  }

  /* ---- assembling the theorem ---- */

  lemma SoundFacts(db: Db, eff: Effect)
    requires TransactionsFit(db) && Proper(db, eff)
    ensures Unsettled(db.transactions, eff.row.id) || eff.row.id in db.transactions
    ensures eff.known ==> Unsettled(db.transactions, eff.row.id) && 0 < db.transactions[eff.row.id].attempts
    ensures |eff.events| <= 2
    ensures eff.row.resolvedReferenceId != "" ==> eff.row.kind.IsReversal() && eff.row.status.Processed?
    ensures eff.move.Some? ==>
              && eff.move.value.entry.transactionId == eff.row.id
              && eff.move.value.entry.walletId == eff.row.walletId == eff.move.value.wallet.id
              && eff.move.value.entry.amount == eff.row.money && 0 < eff.row.money.minor
              && eff.move.value.entry.direction == DirectionOf(db.transactions, eff.row).value
              && eff.move.value.wallet.playerId == eff.from.playerId
              && (eff.from.version < MAX_INT64 ==>
                    SoundWallet(eff.move.value.wallet) && eff.move.value.wallet.version == eff.from.version + 1)
  {
  }

  lemma RowGrows(db: Db, eff: Effect)
    requires TransactionsFit(db) && Proper(db, eff)
    ensures !eff.row.kind.OpeningCredit?
    ensures eff.known ==> 0 < db.transactions[eff.row.id].attempts <= eff.row.attempts
    ensures !eff.known && FreshIdentity(db.transactions, eff.row) ==> Unsettled(db.transactions, eff.row.id)
  {
  }

  lemma RowsKept(db: Db, eff: Effect, stamp: Stamp)
    requires Inv(db) && Sound(db, eff, stamp)
    ensures |eff.events| <= 2 && TransactionsFit(Commit(db, eff, stamp))
    ensures Unique(Commit(db, eff, stamp).transactions) && ReversalsResolve(Commit(db, eff, stamp).transactions)
  {
    hide SchemaAccepts, Clash, Moved, Log, EntriesOf, Explains, BooksBalance, LogComplete, FreshEvent, FreshEntry,
      Undoes;
    SoundFacts(db, eff);
    TransactionsKept(db, eff, stamp);
    UniqueKept(db.transactions, eff.row, eff.known);
    ReversalsKept(db.transactions, eff.row);
  }

  lemma EntriesKept(db: Db, eff: Effect, stamp: Stamp)
    requires Inv(db) && Sound(db, eff, stamp)
    ensures |eff.events| <= 2 && LedgerExplained(Commit(db, eff, stamp))
  {
    hide SchemaAccepts, Clash, Log, EntriesOf, BooksBalance, LogComplete, FreshEvent, Undoes, Unique, DistinctEvents;
    SoundFacts(db, eff);
    LedgerKept(db.transactions, db.ledger, eff.row, if eff.move.Some? then Some(eff.move.value.entry) else None);
  }

  lemma WalletsKept(db: Db, eff: Effect, stamp: Stamp)
    requires Inv(db) && Sound(db, eff, stamp)
    ensures |eff.events| <= 2
    ensures WalletsBalance(Commit(db, eff, stamp)) && OneWalletEach(Commit(db, eff, stamp).wallets)
  {
    hide SchemaAccepts, Clash, Log, BooksBalance, LogComplete, FreshEvent, FreshEntry, Undoes, Unique, DistinctEvents,
      Chained, Explains;
    SoundFacts(db, eff);
    var after := Commit(db, eff, stamp);
    forall id | id in after.wallets
      ensures after.wallets[id].id == id && SoundWallet(after.wallets[id]) && BooksBalance(after, after.wallets[id])
    {
      if eff.move.Some? && id == eff.row.walletId {
        BooksMoved(db, after, db.wallets[id], eff.row, eff.move.value);
      } else {
        if eff.move.Some? { EntriesOfAppend(db.ledger, eff.move.value.entry, id); }
        BooksUntouched(db, after, db.wallets[id], eff.row);
      }
    }
    forall a, b | a in after.wallets && b in after.wallets && a != b
      ensures !SameOwner(after.wallets[a], after.wallets[b])
    {
      assert !SameOwner(db.wallets[a], db.wallets[b]);
    }
  }

  /** The version after a movement is the number its event has to carry. */
  lemma MovedVersion(db: Db, eff: Effect)
    requires Inv(db) && Proper(db, eff) && Current(db, eff) && eff.move.Some? && eff.from.version < MAX_INT64
    ensures var es := EntriesOf(db.ledger, eff.row.walletId);
            eff.move.value.wallet.version as int == |es| + FirstVersion(db.transactions, es)
  {
    hide SchemaAccepts, Clash, Log, Undoes, Unique, Chained, Explains, EntriesOf, LogComplete, DirectionOf;
    SoundFacts(db, eff);
    assert BooksBalance(db, db.wallets[eff.row.walletId]);
  }

  lemma FreshEventsKeepDistinct(outbox: seq<OutboxRow>, events: seq<Event>, stamp: Stamp)
    requires DistinctEvents(outbox) && |events| <= 2 && FreshEvents(outbox, events, stamp)
    ensures DistinctEvents(Recorded(outbox, events, stamp))
  {
  }

  lemma LogKept(db: Db, eff: Effect, stamp: Stamp)
    requires Inv(db) && Sound(db, eff, stamp)
    ensures |eff.events| <= 2 && OutboxComplete(Commit(db, eff, stamp))
  {
    hide SchemaAccepts, Clash, Log, Undoes, Unique, Chained, Explains, EntriesOf, FreshEntry, DirectionOf,
      ReversalsResolve, WalletsBalance, OneWalletEach, InboxComplete, TransactionsFit, AllExplained, AllRecorded,
      DistinctEntries, FreshIdentity, RowFits, SoundWallet, Moved, DistinctEvents, FreshEvent, OutcomeLogged,
      WaitLogged, WalletLogged, RowAdvances;
    SoundFacts(db, eff);
    RowGrows(db, eff);
    if !eff.known { UnseenRow(db, eff, stamp); }
    if eff.move.Some? { MovedVersion(db, eff); }
    FreshEventsKeepDistinct(db.outbox, eff.events, stamp);
    var after, log := Commit(db, eff, stamp), Events(db.outbox);
    EventsRecorded(db.outbox, eff.events, stamp);
    forall id
      ensures OutcomeLogged(after.transactions, Events(after.outbox), id)
      ensures WaitLogged(after.transactions, Events(after.outbox), id)
    {
      OutcomesKept(db.transactions, log, eff.row, eff.known, eff.move, id);
    }
    forall w
      ensures WalletLogged(after.transactions, after.ledger, Events(after.outbox), w)
    {
      ChangesKept(db.transactions, db.ledger, log, eff.row, eff.known, eff.move, w);
    }
  }

  /** A sound commit keeps the invariant: the one theorem every step goes through. */
  lemma CommitKeepsInvariant(db: Db, eff: Effect, stamp: Stamp)
    requires Inv(db) && Sound(db, eff, stamp)
    ensures |eff.events| <= 2 && Inv(Commit(db, eff, stamp))
  {
    RowsKept(db, eff, stamp);
    EntriesKept(db, eff, stamp);
    WalletsKept(db, eff, stamp);
    LogKept(db, eff, stamp);
  }

  /** A sound commit only moves history forward. */
  lemma CommitExtends(db: Db, eff: Effect, stamp: Stamp)
    requires Inv(db) && Sound(db, eff, stamp)
    ensures |eff.events| <= 2 && Extends(db, Commit(db, eff, stamp))
  {
    hide SchemaAccepts, Clash, Log, Undoes, Unique, Chained, Explains, EntriesOf, FreshEntry, DirectionOf, LogComplete,
      ReversalsResolve, OneWalletEach, InboxComplete, AllExplained, AllRecorded, DistinctEvents, FreshEvent,
      DistinctEntries, RowFits, SoundWallet, BooksBalance, FreshIdentity, EventsOf;
    SoundFacts(db, eff);
    EventsRecorded(db.outbox, eff.events, stamp);
    var after := Commit(db, eff, stamp);
    forall id | id in db.wallets
      ensures id in after.wallets && WalletAdvances(db.wallets[id], after.wallets[id])
    {
    }
    forall id | id in db.transactions
      ensures RowAdvances(db.transactions[id], after.transactions[id])
    {
      if !eff.known { UnseenRow(db, eff, stamp); }
    }
  }

  lemma SoundIsShort(db: Db, eff: Effect, stamp: Stamp)
    requires Sound(db, eff, stamp)
    ensures |eff.events| <= 2
  {
  }

  lemma UnseenRow(db: Db, eff: Effect, stamp: Stamp)
    requires Fresh(db, eff, stamp) && !eff.known
    ensures eff.row.id !in db.transactions
  {
  }
}
