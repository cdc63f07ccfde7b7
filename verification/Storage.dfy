/** The tables as the adapter changes them: one method per statement. */
module Storage {
  import opened Base
  import opened Money
  import opened Domain
  import opened Tables
  import opened Steps
  import opened ExactlyOnce

  /** What a wallet update may store: the columns it writes, checked as the schema checks them. */
  function Rebalanced(stored: Wallet, w: Wallet): Wallet {
    stored.(balance := Money(w.balance.minor, stored.balance.currency), version := w.version, updatedAt := w.updatedAt)
  }

  /** The columns a transition writes; every other column keeps its stored value. */
  function Patched(stored: Transaction, t: Transaction): Transaction {
    stored.(status := t.status, resolvedReferenceId := t.resolvedReferenceId, attempts := t.attempts,
            nextAttemptAt := t.nextAttemptAt, deadlineAt := t.deadlineAt, failureCode := t.failureCode,
            balanceAfter := if t.balanceAfter.IsInitialised()
                            then Money(t.balanceAfter.minor, stored.money.currency) else UNSET,
            updatedAt := t.updatedAt)
  }

  /** Writing only those columns leaves the row exactly as writing all of them would. */
  lemma PatchIsWhole(stored: Transaction, t: Transaction)
    requires stored.Identity() == t.Identity()
    requires t.balanceAfter == UNSET || (t.balanceAfter.IsInitialised() && t.balanceAfter.currency == t.money.currency)
    ensures Patched(stored, t) == t
  {
    IdentityKeeps(stored, t);
    assert stored.Identity().playerId == stored.playerId && t.Identity().playerId == t.playerId;
    assert stored.Identity().roundId == stored.roundId && t.Identity().roundId == t.roundId;
    assert stored.Identity().gameId == stored.gameId && t.Identity().gameId == t.gameId;
    assert stored.Identity().referenceExternalId == stored.referenceExternalId;
    assert t.Identity().referenceExternalId == t.referenceExternalId;
    assert stored.Identity().createdAt == stored.createdAt && t.Identity().createdAt == t.createdAt;
  }

  /** The first rule an insert breaks: shape, then each unique key in turn. */
  ghost predicate Inserts(rows: Rows, wallets: map<string, Wallet>, t: Transaction, r: Result<()>) {
    if !SchemaAccepts(t) || t.walletId !in wallets then r == Err(InvariantViolated)
    else if t.id in rows then r == Err(Conflict(TransactionKey))
    else if exists id :: id in rows && SameBusiness(rows[id], t) then r == Err(Conflict(BusinessIdentity))
    else if exists id :: id in rows && SameKey(rows[id], t) then r == Err(Conflict(IdempotencyKeyRule))
    else if exists id :: id in rows && SameOpening(rows[id], t) then r == Err(Conflict(OneOpeningPerWallet))
    else if exists id :: id in rows && SameReference(rows[id], t) then r == Err(Conflict(OneReversalPerOperation))
    else r == Ok(())
  }

  /**
   * An update is refused for want of a row that may move, then by the row checks, then by the one
   * index it can touch.
   */
  ghost predicate Updates(rows: Rows, t: Transaction, r: Result<()>) {
    if t.id !in rows then r == Err(NotFound)
    else if rows[t.id].status.IsTerminal() then r == Err(Conflict(AlreadyTerminal))
    else if !SchemaAccepts(Patched(rows[t.id], t)) then r == Err(InvariantViolated)
    else if exists id :: id in rows && id != t.id && SameReference(rows[id], Patched(rows[t.id], t))
    then r == Err(Conflict(OneReversalPerOperation))
    else r == Ok(())
  }

  predicate IsDue(t: Transaction, now: Instant) {
    t.status.PendingReference? && t.nextAttemptAt <= now
  }

  /** Of the due rows that nobody holds, the one that has waited longest, or none. */
  ghost predicate OldestDue(rows: Rows, now: Instant, held: set<string>, r: Option<Transaction>) {
    match r
    case None =>
      forall id :: id in rows && id !in held && rows[id].status == PendingReference ==> now < rows[id].nextAttemptAt
    case Some(t) =>
      && (exists id :: id in rows && id !in held && rows[id] == t)
      && t.status == PendingReference && t.nextAttemptAt <= now
      && forall id :: id in rows && id !in held && rows[id].status == PendingReference ==>
           t.nextAttemptAt <= rows[id].nextAttemptAt || now < rows[id].nextAttemptAt
  }

  predicate HasEntryOn(ledger: seq<Entry>, wallet: string, transaction: string) {
    exists i :: 0 <= i < |ledger| && ledger[i].walletId == wallet && ledger[i].transactionId == transaction
  }

  predicate IsUnsent(row: OutboxRow, now: Instant) {
    row.publishedAt == 0 && row.nextAttemptAt <= now
  }

  /** The unpublished rows whose time has come and that nobody holds, in the order they were recorded. */
  function DueEvents(outbox: seq<OutboxRow>, now: Instant, held: set<string>): seq<OutboxRow> {
    if outbox == [] then []
    else
      var due, last := DueEvents(outbox[..|outbox| - 1], now, held), outbox[|outbox| - 1];
      if IsUnsent(last, now) && last.eventId !in held then due + [last] else due
  }

  /** At most this many, from the front. */
  function Firsts<T>(s: seq<T>, n: nat): (front: seq<T>)
    ensures front <= s && (|front| == |s| || |front| == n) && |front| <= n
  {
    if |s| <= n then s else s[..n]
  }

  class Store {
    var wallets: map<string, Wallet>
    var transactions: Rows
    var ledger: seq<Entry>
    var inbox: map<(string, string), InboxRow>
    var outbox: seq<OutboxRow>

    /** The operations and events whose rows other transactions have locked now: a claim passes over them. */
    var heldRows: set<string>
    var heldEvents: set<string>

    function View(): Db
      reads this
    {
      Db(wallets, transactions, ledger, inbox, outbox)
    }

    constructor ()
      ensures View() == EMPTY
    {
      wallets, transactions, ledger, inbox, outbox := map[], map[], [], map[], [];
      heldRows, heldEvents := {}, {};
    }

    /** Ends a transaction without its writes. */
    method Restore(begun: Db)
      modifies this
      ensures View() == begun && heldRows == old(heldRows) && heldEvents == old(heldEvents)
    {
      wallets, transactions, ledger, inbox, outbox :=
        begun.wallets, begun.transactions, begun.ledger, begun.inbox, begun.outbox;
    }

    /* ---- wallets ---- */

    method FindWalletForUpdate(id: string) returns (r: Result<Wallet>)
      ensures if id in wallets then r == Ok(wallets[id]) else r == Err(NotFound)
    {
      if id in wallets { return Ok(wallets[id]); }
      return Err(NotFound);
    }

    method InsertWallet(w: Wallet) returns (r: Result<()>)
      modifies this`wallets
      ensures r.Ok? <==> w.id !in old(wallets) && forall id :: id in old(wallets) ==> !SameOwner(old(wallets)[id], w)
      ensures wallets == if r.Ok? then old(wallets)[w.id := w] else old(wallets)
      ensures r.Err? ==> r.error == Conflict(if w.id in old(wallets) then WalletKey else OneWalletPerPlayerAndCurrency)
    {
      if w.id in wallets { return Err(Conflict(WalletKey)); }
      if id :| id in wallets && SameOwner(wallets[id], w) { return Err(Conflict(OneWalletPerPlayerAndCurrency)); }
      wallets := wallets[w.id := w];
      return Ok(());
    }

    method UpdateBalance(w: Wallet, expectedVersion: int64) returns (r: Result<()>)
      modifies this`wallets
      ensures if w.id !in old(wallets) then r == Err(NotFound)
              else if old(wallets)[w.id].version != expectedVersion then r == Err(VersionMismatch)
              else if w.balance.minor < 0 || w.version < 1 then r == Err(InvariantViolated)
              else r == Ok(())
      ensures wallets == if r.Ok? then old(wallets)[w.id := Rebalanced(old(wallets)[w.id], w)] else old(wallets)
    {
      if w.id !in wallets { return Err(NotFound); }
      if wallets[w.id].version != expectedVersion { return Err(VersionMismatch); }
      if w.balance.minor < 0 || w.version < 1 { return Err(InvariantViolated); }
      wallets := wallets[w.id := Rebalanced(wallets[w.id], w)];
      return Ok(());
    }

    /* ---- operations ---- */

    method FindByBusinessID(provider: string, external: string) returns (r: Result<Transaction>)
      requires Unique(transactions)
      ensures match FindByBusinessId(transactions, provider, external)
              case None => r == Err(NotFound)
              case Some(t) => r == Ok(t)
    {
      hide Clash;
      if id :| id in transactions && IsBusiness(transactions[id], provider, external) {
        FoundIsUnique(transactions, id);
        return Ok(transactions[id]);
      }
      return Err(NotFound);
    }

    method FindProcessedReversalOf(reference: string) returns (r: Result<Transaction>)
      ensures r.Ok? ==>
                && IsProcessedReversalOf(r.value, reference)
                && exists id :: id in transactions && transactions[id] == r.value
      ensures r.Err? ==> r.error == NotFound && Unreversed(transactions, reference)
    {
      if id :| id in transactions && IsProcessedReversalOf(transactions[id], reference) {
        return Ok(transactions[id]);
      }
      return Err(NotFound);
    }

    method InsertTransaction(t: Transaction) returns (r: Result<()>)
      modifies this`transactions
      ensures Inserts(old(transactions), wallets, t, r)
      ensures transactions == if r.Ok? then old(transactions)[t.id := t] else old(transactions)
    {
      hide SchemaAccepts;
      if !SchemaAccepts(t) || t.walletId !in wallets { return Err(InvariantViolated); }
      if t.id in transactions { return Err(Conflict(TransactionKey)); }
      if id :| id in transactions && SameBusiness(transactions[id], t) { return Err(Conflict(BusinessIdentity)); }
      if id :| id in transactions && SameKey(transactions[id], t) { return Err(Conflict(IdempotencyKeyRule)); }
      if id :| id in transactions && SameOpening(transactions[id], t) { return Err(Conflict(OneOpeningPerWallet)); }
      if id :| id in transactions && SameReference(transactions[id], t) {
        return Err(Conflict(OneReversalPerOperation));
      }
      transactions := transactions[t.id := t];
      return Ok(());
    }

    /** Writes a transition, and refuses to move a row that is already terminal or to break a rule of the schema. */
    method UpdateTransaction(t: Transaction) returns (r: Result<()>)
      modifies this`transactions
      ensures Updates(old(transactions), t, r)
      ensures transactions
              == if r.Ok? then old(transactions)[t.id := Patched(old(transactions)[t.id], t)] else old(transactions)
    {
      hide SchemaAccepts;
      if t.id !in transactions { return Err(NotFound); }
      if transactions[t.id].status.IsTerminal() { return Err(Conflict(AlreadyTerminal)); }
      var patched := Patched(transactions[t.id], t);
      if !SchemaAccepts(patched) { return Err(InvariantViolated); }
      if id :| id in transactions && id != t.id && SameReference(transactions[id], patched) {
        return Err(Conflict(OneReversalPerOperation));
      }
      transactions := transactions[t.id := patched];
      return Ok(());
    }

    /** One due reversal that nobody else has locked, the one that has been due longest. */
    method ClaimDueReference(now: Instant) returns (r: Option<Transaction>)
      ensures OldestDue(transactions, now, heldRows, r)
    {
      r := None;
      var rest := transactions.Keys;
      while rest != {}
        invariant rest <= transactions.Keys
        invariant OldestDue(map id | id in transactions && id !in rest :: transactions[id], now, heldRows, r)
        decreases |rest|
      {
        var id :| id in rest;
        ghost var seen := map k | k in transactions && k !in rest :: transactions[k];
        rest := rest - {id};
        var t := transactions[id];
        ghost var more := map k | k in transactions && k !in rest :: transactions[k];
        assert more == seen[id := t];
        if id !in heldRows && IsDue(t, now) && (r.None? || t.nextAttemptAt < r.value.nextAttemptAt) {
          assert more[id] == t;
          r := Some(t);
        } else if r.Some? {
          ghost var k :| k in seen && k !in heldRows && seen[k] == r.value;
          assert more[k] == r.value;
        }
      }
      assert transactions == map id | id in transactions && id !in rest :: transactions[id];
    }

    /* ---- ledger and outbox ---- */

    method AppendEntry(e: Entry) returns (r: Result<()>)
      modifies this`ledger
      ensures if !FreshEntry(old(ledger), e.id) then r == Err(Conflict(LedgerKey))
              else if HasEntryOn(old(ledger), e.walletId, e.transactionId)
              then r == Err(Conflict(OneEntryPerTransaction))
              else r == Ok(())
      ensures ledger == if r.Ok? then old(ledger) + [e] else old(ledger)
    {
      if i :| 0 <= i < |ledger| && ledger[i].id == e.id { return Err(Conflict(LedgerKey)); }
      if HasEntryOn(ledger, e.walletId, e.transactionId) { return Err(Conflict(OneEntryPerTransaction)); }
      ledger := ledger + [e];
      return Ok(());
    }

    method AppendEvent(row: OutboxRow) returns (r: Result<()>)
      modifies this`outbox
      ensures if FreshEvent(old(outbox), row.eventId) then r == Ok(()) else r == Err(Conflict(OutboxKey))
      ensures outbox == if r.Ok? then old(outbox) + [row] else old(outbox)
    {
      if i :| 0 <= i < |outbox| && outbox[i].eventId == row.eventId { return Err(Conflict(OutboxKey)); }
      outbox := outbox + [row];
      return Ok(());
    }

    method ClaimDueEvents(now: Instant, limit: nat) returns (claimed: seq<OutboxRow>)
      ensures claimed == Firsts(DueEvents(outbox, now, heldEvents), limit)
    {
      claimed := [];
      var i := 0;
      while i < |outbox|
        invariant 0 <= i <= |outbox| && claimed == Firsts(DueEvents(outbox[..i], now, heldEvents), limit)
      {
        assert outbox[..i + 1][..i] == outbox[..i];
        if |claimed| < limit && IsUnsent(outbox[i], now) && outbox[i].eventId !in heldEvents {
          claimed := claimed + [outbox[i]];
        }
        i := i + 1;
      }
      assert outbox[..i] == outbox;
    }

    method MarkPublished(id: string, at: Instant) returns (r: Result<()>)
      requires DistinctEvents(outbox)
      modifies this`outbox
      ensures |outbox| == |old(outbox)|
      ensures forall i :: 0 <= i < |outbox| ==>
                outbox[i] == if old(outbox)[i].eventId == id && old(outbox)[i].publishedAt == 0
                             then old(outbox)[i].(publishedAt := at) else old(outbox)[i]
      ensures r == Ok(()) || r == Err(NotFound)
      ensures r.Ok? <==>
              exists i :: 0 <= i < |outbox| && old(outbox)[i].eventId == id && old(outbox)[i].publishedAt == 0
    {
      if i :| 0 <= i < |outbox| && outbox[i].eventId == id && outbox[i].publishedAt == 0 {
        outbox := outbox[i := outbox[i].(publishedAt := at)];
        return Ok(());
      }
      return Err(NotFound);
    }

    method RescheduleEvent(id: string, nextAttemptAt: Instant)
      requires DistinctEvents(outbox)
      modifies this`outbox
      ensures |outbox| == |old(outbox)|
      ensures forall i :: 0 <= i < |outbox| ==>
                outbox[i] == if old(outbox)[i].eventId == id && old(outbox)[i].publishedAt == 0
                             then old(outbox)[i].(attempts := old(outbox)[i].attempts + 1,
                                                  nextAttemptAt := nextAttemptAt)
                             else old(outbox)[i]
    {
      if i :| 0 <= i < |outbox| && outbox[i].eventId == id && outbox[i].publishedAt == 0 {
        outbox := outbox[i := outbox[i].(attempts := outbox[i].attempts + 1, nextAttemptAt := nextAttemptAt)];
      }
    }

    /* ---- inbox ---- */

    /** Takes a message, without raising when it was already taken. */
    method ClaimMessage(key: (string, string), hash: string, now: Instant) returns (r: Result<()>)
      modifies this`inbox
      ensures if key in old(inbox) then r == Err(Conflict(InboxIdentity)) else r == Ok(())
      ensures inbox == if r.Ok? then old(inbox)[key := InboxRow(hash, now, 0)] else old(inbox)
    {
      if key in inbox { return Err(Conflict(InboxIdentity)); }
      inbox := inbox[key := InboxRow(hash, now, 0)];
      return Ok(());
    }

    method CompleteMessage(key: (string, string), now: Instant) returns (r: Result<()>)
      modifies this`inbox
      ensures if key in old(inbox) then r == Ok(()) else r == Err(NotFound)
      ensures inbox == if r.Ok? then old(inbox)[key := old(inbox)[key].(completedAt := now)] else old(inbox)
    {
      if key !in inbox { return Err(NotFound); }
      inbox := inbox[key := inbox[key].(completedAt := now)];
      return Ok(());
    }

    method FindMessage(key: (string, string)) returns (r: Result<InboxRow>)
      ensures if key in inbox then r == Ok(inbox[key]) else r == Err(NotFound)
    {
      if key in inbox { return Ok(inbox[key]); }
      return Err(NotFound);
    }
  }
}
