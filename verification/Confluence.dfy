/** Out-of-order delivery: a reversal that overtook its reference ends as if it had not. */
module Confluence {
  import opened Base
  import opened Money
  import opened Domain
  import opened Tables
  import opened Steps
  import opened Decisions
  import opened Serial
  import opened Runs
  import opened ExactlyOnce

  /* ---- alike: the same but for identities and instants ---- */

  /** The same operation as submitted, under whatever id and at whatever instant. */
  predicate Alike(a: Transaction, b: Transaction) {
    && a.origin == b.origin && a.kind == b.kind && a.walletId == b.walletId && a.playerId == b.playerId
    && a.money == b.money && a.providerId == b.providerId && a.externalId == b.externalId
    && a.idempotencyKey == b.idempotencyKey && a.payloadHash == b.payloadHash
    && a.roundId == b.roundId && a.gameId == b.gameId && a.referenceExternalId == b.referenceExternalId
  }

  /** ... that also ended the same way. */
  predicate SameEnd(a: Transaction, b: Transaction) {
    Alike(a, b) && a.status == b.status && a.failureCode == b.failureCode && a.balanceAfter == b.balanceAfter
  }

  predicate SameHoldings(a: Wallet, b: Wallet) {
    a.id == b.id && a.playerId == b.playerId && a.balance == b.balance && a.version == b.version
  }

  predicate SameMovement(a: Entry, b: Entry) {
    a.walletId == b.walletId && a.direction == b.direction && a.amount == b.amount && a.before == b.before
    && a.after == b.after
  }

  predicate SameMove(a: Option<Movement>, b: Option<Movement>) {
    && (a.Some? <==> b.Some?)
    && (a.Some? ==> SameHoldings(a.value.wallet, b.value.wallet) && SameMovement(a.value.entry, b.value.entry))
  }

  predicate SameEffect(a: Effect, b: Effect) {
    SameEnd(a.row, b.row) && SameMove(a.move, b.move)
  }

  predicate SameVerdict(a: Verdict, b: Verdict) {
    match a
    case Wait => b.Wait?
    case Refuse(code) => b == Refuse(code)
    case Apply(reference, direction) =>
      b.Apply? && b.direction == direction && reference.id != "" && b.reference.id != ""
  }

  /** Wallets with the same balances and versions, and the same movements in the same order. */
  ghost predicate SameBooks(a: Db, b: Db) {
    && (forall id :: id in a.wallets <==> id in b.wallets)
    && (forall id :: id in a.wallets && id in b.wallets ==> SameHoldings(a.wallets[id], b.wallets[id]))
    && |a.ledger| == |b.ledger|
    && (forall i :: 0 <= i < |a.ledger| ==> SameMovement(a.ledger[i], b.ledger[i]))
  }

  /** Ids come out of the generator non-empty, and the clock has left zero. */
  predicate Minted(stamp: Stamp) {
    stamp.transactionId != "" && stamp.entryId != "" && 0 < stamp.now
  }

  predicate Open(t: Transaction) {
    t.id != "" && !t.status.IsTerminal() && t.balanceAfter == UNSET && t.failureCode == NoCode
  }

  /* ---- decisions depend on nothing else ---- */

  lemma MoveAlike(w1: Wallet, e1: string, t1: string, at1: Instant, w2: Wallet, e2: string, t2: string, at2: Instant,
                  d: Direction, amount: Money)
    requires SameHoldings(w1, w2) && SoundWallet(w1) && SoundWallet(w2)
    requires e1 != "" && t1 != "" && at1 != 0 && e2 != "" && t2 != "" && at2 != 0
    ensures var m1, m2 := Move(w1, d, e1, t1, amount, at1), Move(w2, d, e2, t2, amount, at2);
            && (m1.Ok? <==> m2.Ok?)
            && (m1.Err? ==> m1 == m2)
            && (m1.Ok? ==> SameMove(Some(m1.value), Some(m2.value)))
  {
  }

  lemma RejectAlike(a: Transaction, k1: bool, w1: Wallet, at1: Instant, b: Transaction, k2: bool, w2: Wallet,
                    at2: Instant, code: Code)
    requires Alike(a, b) && Open(a) && Open(b) && at1 != 0 && at2 != 0 && code != NoCode
    ensures RejectWith(a, k1, w1, code, at1).Ok? && RejectWith(b, k2, w2, code, at2).Ok?
    ensures SameEffect(RejectWith(a, k1, w1, code, at1).value, RejectWith(b, k2, w2, code, at2).value)
  {
    hide EventsOf;
  }

  lemma UndoAlike(a: Transaction, w1: Wallet, v1: Verdict, e1: string, at1: Instant,
                  b: Transaction, w2: Wallet, v2: Verdict, e2: string, at2: Instant)
    requires Alike(a, b) && Open(a) && Open(b) && a.kind.IsReversal()
    requires SameHoldings(w1, w2) && SoundWallet(w1) && SoundWallet(w2)
    requires v1.Apply? && SameVerdict(v1, v2)
    requires e1 != "" && at1 != 0 && e2 != "" && at2 != 0
    ensures var u1, u2 := Undo(a, w1, v1, e1, at1), Undo(b, w2, v2, e2, at2);
            && (u1.Ok? <==> u2.Ok?)
            && (u1.Err? ==> u1 == u2)
            && (u1.Ok? ==> SameEnd(u1.value.0, u2.value.0) && SameMove(Some(u1.value.1), Some(u2.value.1))
                           && u1.value.0.resolvedReferenceId == v1.reference.id
                           && u2.value.0.resolvedReferenceId == v2.reference.id)
  {
    hide Move;
    MoveAlike(w1, e1, a.id, at1, w2, e2, b.id, at2, v1.direction, a.money);
    MoveCurrency(w1, v1.direction, e1, a.id, a.money, at1);
    MoveCurrency(w2, v2.direction, e2, b.id, b.money, at2);
  }

  lemma MoveCurrency(w: Wallet, d: Direction, e: string, t: string, amount: Money, at: Instant)
    ensures var m := Move(w, d, e, t, amount, at);
            m.Ok? ==> m.value.wallet.balance.currency == amount.currency != ""
  {
  }

  /** A reversal that does not wait is settled alike, whether it is new or had been parked. */
  lemma ReversalAlike(a: Transaction, k1: bool, w1: Wallet, v1: Verdict, p1: Result<Effect>, e1: string, at1: Instant,
                      b: Transaction, k2: bool, w2: Wallet, v2: Verdict, p2: Result<Effect>, e2: string, at2: Instant)
    requires Alike(a, b) && Open(a) && Open(b) && a.kind.IsReversal()
    requires SameHoldings(w1, w2) && SoundWallet(w1) && SoundWallet(w2)
    requires SameVerdict(v1, v2) && !v1.Wait? && NonZero(v1)
    requires e1 != "" && at1 != 0 && e2 != "" && at2 != 0
    ensures var r1, r2 := SettleReversal(a, k1, w1, v1, p1, e1, at1), SettleReversal(b, k2, w2, v2, p2, e2, at2);
            && r1.Ok? && r2.Ok? && SameEffect(r1.value, r2.value)
            && (r1.value.row.status.Processed? ==>
                  v1.Apply? && r1.value.row.resolvedReferenceId == v1.reference.id
                  && r2.value.row.resolvedReferenceId == v2.reference.id)
  {
    hide Undo, RejectWith, EventsOf, Alike;
    match v1
    case Refuse(code) =>
      RejectAlike(a, k1, w1, at1, b, k2, w2, at2, code);
      RejectedRow(a, k1, w1, code, at1);
    case Apply(_, _) =>
      UndoAlike(a, w1, v1, e1, at1, b, w2, v2, e2, at2);
      UndoFailsByRule(a, w1, v1, e1, at1);
      var u := Undo(a, w1, v1, e1, at1);
      if u.Err? {
        RejectAlike(a, k1, w1, at1, b, k2, w2, at2, u.error.code);
        RejectedRow(a, k1, w1, u.error.code, at1);
      }
  }

  lemma RejectedRow(row: Transaction, known: bool, from: Wallet, code: Code, at: Instant)
    ensures var r := RejectWith(row, known, from, code, at); r.Ok? ==> r.value.row.status.Rejected?
  {
    hide EventsOf;
  }

  lemma DirectAlike(a: Transaction, w1: Wallet, e1: string, at1: Instant, b: Transaction, w2: Wallet, e2: string,
                    at2: Instant)
    requires Alike(a, b) && Open(a) && Open(b)
    requires SameHoldings(w1, w2) && SoundWallet(w1) && SoundWallet(w2)
    requires e1 != "" && at1 != 0 && e2 != "" && at2 != 0
    ensures var r1, r2 := SettleDirect(a, w1, e1, at1), SettleDirect(b, w2, e2, at2);
            r1.Ok? && r2.Ok? ==> SameEffect(r1.value, r2.value)
  {
    hide Move, EventsOf;
    if a.kind.MovesMoney() {
      var d := if a.kind.Bet? then Debit else Credit;
      MoveAlike(w1, e1, a.id, at1, w2, e2, b.id, at2, d, a.money);
      var m := Move(w1, d, e1, a.id, a.money, at1);
      if m.Err? && m.error.Domain? && m.error.code != NoCode {
        RejectAlike(a, false, w1, at1, b, false, w2, at2, m.error.code);
      }
    }
  }

  /* ---- a parked row is invisible to everyone else ---- */

  lemma ParkedIsInvisible(rows: Rows, t: Transaction, a: Transaction, b: Transaction)
    requires Unique(rows[t.id := t]) && t.id !in rows && t.status.PendingReference? && t.origin.External?
    requires Alike(a, b) && "" !in rows && (forall id :: id in rows ==> rows[id].id == id)
    ensures SameVerdict(Resolve(rows[t.id := t], a), Resolve(rows, b))
  {
    hide Judge;
    var more := rows[t.id := t];
    var p, e := a.providerId, a.referenceExternalId;
    var found := FindByBusinessId(more, p, e);
    if found.Some? {
      var id :| id in more && more[id] == found.value && IsBusiness(more[id], p, e);
      FoundIsUnique(more, id);
      if id != t.id {
        assert rows[id] == found.value;
        assert Unique(rows) by { FewerRowsAreUnique(rows, t); }
        FoundIsUnique(rows, id);
        JudgeAlike(a, b, found.value, found.value);
        ParkedReversesNothing(rows, t, found.value.id);
      } else {
        assert Judge(a, found) == Wait by { ParkedMeansWait(a, t); }
        NotFoundBelow(rows, t, p, e);
        assert Judge(b, None) == Wait by { MissingMeansWait(b); }
      }
    } else {
      assert forall id :: id in rows ==> more[id] == rows[id];
      assert FindByBusinessId(rows, p, e).None?;
      MissingMeansWait(a);
      MissingMeansWait(b);
    }
  }

  lemma ParkedReversesNothing(rows: Rows, t: Transaction, reference: string)
    requires t.id !in rows && t.status.PendingReference?
    ensures Unreversed(rows[t.id := t], reference) == Unreversed(rows, reference)
  {
    var more := rows[t.id := t];
    if Unreversed(more, reference) {
      forall id | id in rows ensures !IsProcessedReversalOf(rows[id], reference) {
        assert more[id] == rows[id];
      }
    }
  }

  lemma FewerRowsAreUnique(rows: Rows, t: Transaction)
    requires t.id !in rows && Unique(rows[t.id := t])
    ensures Unique(rows)
  {
    hide Clash;
    forall a, b | a in rows && b in rows && a != b
      ensures !Clash(rows[a], rows[b])
    {
      assert !Clash(rows[t.id := t][a], rows[t.id := t][b]);
    }
  }

  lemma NotFoundBelow(rows: Rows, t: Transaction, p: string, e: string)
    requires t.id !in rows && Unique(rows[t.id := t]) && IsBusiness(t, p, e)
    ensures FindByBusinessId(rows, p, e).None?
  {
    var more := rows[t.id := t];
    forall id | id in rows
      ensures !IsBusiness(rows[id], p, e)
    {
      assert !Clash(more[id], more[t.id]);
    }
  }

  lemma ParkedMeansWait(a: Transaction, t: Transaction)
    requires t.status.PendingReference?
    ensures Judge(a, Some(t)) == Wait
  {
  }

  lemma MissingMeansWait(a: Transaction)
    ensures Judge(a, None) == Wait
  {
  }

  /** The verdict on an operation depends on how it and its reference are and ended, not on ids. */
  lemma JudgeAlike(a: Transaction, b: Transaction, x: Transaction, y: Transaction)
    requires Alike(a, b) && SameEnd(x, y)
    ensures var v1, v2 := Judge(a, Some(x)), Judge(b, Some(y));
            match v1
            case Wait => v2.Wait?
            case Refuse(code) => v2 == Refuse(code)
            case Apply(r, d) => v2 == Apply(y, d) && r == x
    ensures x.status.IsTerminal() ==> !Judge(a, Some(x)).Wait?
  {
  }

  /* ---- the books after alike commits ---- */

  lemma BooksAlike(a: Db, e1: Effect, s1: Stamp, b: Db, e2: Effect, s2: Stamp)
    requires SameBooks(a, b) && SameEffect(e1, e2) && |e1.events| <= 2 && |e2.events| <= 2
    requires e1.move.Some? ==> e1.row.walletId in a.wallets
    ensures SameBooks(Commit(a, e1, s1), Commit(b, e2, s2))
  {
  }

  lemma StillBooks(a: Db, e: Effect, s: Stamp, b: Db)
    requires SameBooks(a, b) && e.move.None? && |e.events| <= 2
    ensures SameBooks(Commit(a, e, s), b)
  {
  }

  /* ---- the two orders ---- */

  lemma NewRowsAlike(p: Request, s1: Stamp, s2: Stamp)
    requires NewExternal(s1.transactionId, p, s1.now).Ok? && NewExternal(s2.transactionId, p, s2.now).Ok?
    ensures var a, b := NewExternal(s1.transactionId, p, s1.now).value, NewExternal(s2.transactionId, p, s2.now).value;
            Alike(a, b) && Open(a) && Open(b)
  {
  }

  /** What a settled submission tells about how it was decided. */
  lemma SubmitUnfolds(policy: Policy, db: Db, p: Request, stamp: Stamp, jitter: nat)
    requires Normalised(policy) && Submit(policy, db, Ok(p), stamp, jitter).Settled?
    ensures FindByBusinessId(db.transactions, p.providerId, p.externalId).None?
    ensures NewExternal(stamp.transactionId, p, stamp.now).Ok? && p.walletId in db.wallets
    ensures var row := NewExternal(stamp.transactionId, p, stamp.now).value;
            SettleSubmit(policy, row, db.wallets[p.walletId], Resolve(db.transactions, row), stamp, jitter)
            == Ok(Submit(policy, db, Ok(p), stamp, jitter).eff)
  {
    hide Resolve, SettleSubmit, Fresh;
  }

  lemma SubmittedIsStored(policy: Policy, db: Db, p: Request, stamp: Stamp, jitter: nat)
    requires Normalised(policy) && Inv(db) && Submit(policy, db, Ok(p), stamp, jitter).Settled?
    ensures NewExternal(stamp.transactionId, p, stamp.now).Ok?
    ensures var a := Submit(policy, db, Ok(p), stamp, jitter);
            var after := After(db, a, stamp);
            && |a.eff.events| <= 2 && Inv(after) && after == Commit(db, a.eff, stamp)
            && stamp.transactionId !in db.transactions && a.eff.row.id == stamp.transactionId
            && a.eff.row.walletId == p.walletId && StoredRow(db, a.eff)
            && Alike(a.eff.row, NewExternal(stamp.transactionId, p, stamp.now).value)
            && IsBusiness(a.eff.row, p.providerId, p.externalId)
  {
    hide Inv, Submit, Resolve, SettleSubmit, Proper, Current, Fresh, EventsOf, Extends, StoredRow, Alike, IsBusiness,
      Recorded;
    var a := Submit(policy, db, Ok(p), stamp, jitter);
    SubmitUnfolds(policy, db, p, stamp, jitter);
    SubmitIsSound(policy, db, Ok(p), stamp, jitter);
    SoundIsShort(db, a.eff, stamp);
    UnseenRow(db, a.eff, stamp);
    AnswerKeeps(policy, db, a, stamp);
    var row := NewExternal(stamp.transactionId, p, stamp.now).value;
    SubmitKeepsIdentity(policy, row, db.wallets[p.walletId], Resolve(db.transactions, row), stamp, jitter);
    AlikeByIdentity(a.eff.row, row);
    NewRowShape(stamp.transactionId, p, stamp.now);
    AlikeIsBusiness(a.eff.row, row, p.providerId, p.externalId);
    ProperRowIsStored(db, a.eff);
  }

  /** What every proper row tells about its links and, when it waits, about itself. */
  ghost predicate StoredRow(db: Db, eff: Effect) {
    var t := eff.row;
    && t.id != "" && t.origin.External?
    && (t.status.Processed? && t.kind.IsReversal() ==> t.resolvedReferenceId in db.transactions)
    && (!(t.status.Processed? && t.kind.IsReversal()) ==> t.resolvedReferenceId == "")
    && (t.status.PendingReference? ==> eff.move.None? && Open(t))
  }

  lemma ProperRowIsStored(db: Db, eff: Effect)
    requires Proper(db, eff)
    ensures StoredRow(db, eff)
  {
    hide EventsOf, Moved, DirectionOf, Undoes, RowAdvances;
  }

  lemma AlikeIsBusiness(a: Transaction, b: Transaction, p: string, e: string)
    requires Alike(a, b) && IsBusiness(b, p, e)
    ensures IsBusiness(a, p, e)
  {
  }

  lemma AlikeByIdentity(a: Transaction, b: Transaction)
    requires a.Identity() == b.Identity()
    ensures Alike(a, b)
  {
    IdentityKeeps(a, b);
    assert a.Identity().playerId == a.playerId && b.Identity().playerId == b.playerId;
    assert a.Identity().roundId == a.roundId && b.Identity().roundId == b.roundId;
    assert a.Identity().gameId == a.gameId && b.Identity().gameId == b.gameId;
    assert a.Identity().referenceExternalId == a.referenceExternalId
           && b.Identity().referenceExternalId == b.referenceExternalId;
  }

  lemma RowsHaveTheirIds(db: Db)
    requires Inv(db)
    ensures "" !in db.transactions && Unique(db.transactions) && ReversalsResolve(db.transactions)
    ensures forall id :: id in db.transactions ==> db.transactions[id].id == id
    ensures forall id :: id in db.wallets ==> SoundWallet(db.wallets[id]) && db.wallets[id].id == id
    ensures forall id :: id in db.transactions && !db.transactions[id].kind.IsReversal() ==>
              db.transactions[id].resolvedReferenceId == ""
  {
    hide LogComplete, BooksBalance, LedgerExplained, SchemaAccepts, Clash, Undoes;
    forall id | id in db.transactions
      ensures db.transactions[id].id == id != ""
      ensures !db.transactions[id].kind.IsReversal() ==> db.transactions[id].resolvedReferenceId == ""
    {
      assert RowFits(db.transactions[id], db.wallets);
    }
  }

  /** A reference that was just submitted has been undone by nobody. */
  lemma NewReferenceIsUnreversed(db: Db, t: Transaction)
    requires Inv(db) && t.id !in db.transactions && t.id != ""
    requires t.resolvedReferenceId != t.id
    ensures Unreversed(db.transactions[t.id := t], t.id)
  {
    hide LogComplete, BooksBalance, LedgerExplained, SchemaAccepts, Clash;
    RowsHaveTheirIds(db);
    forall id | id in db.transactions
      ensures !IsProcessedReversalOf(db.transactions[id], t.id)
    {
      assert RowFits(db.transactions[id], db.wallets);
    }
  }

  /** The verdict on a reversal once its reference has just ended. */
  lemma VerdictAfterReference(before: Db, t: Transaction, after: Db, reversal: Transaction)
    requires JustAdded(before, t, after)
    requires t.providerId == reversal.providerId && t.externalId == reversal.referenceExternalId
    ensures Resolve(after.transactions, reversal) == Judge(reversal, Some(t))
  {
    hide Inv, Judge, Unique;
    var rows := after.transactions;
    RowsHaveTheirIds(after);
    assert rows[t.id] == t;
    FoundIsUnique(rows, t.id);
    NewReferenceIsUnreversed(before, t);
    JudgedReference(reversal, t);
  }

  lemma JudgedReference(a: Transaction, t: Transaction)
    ensures Judge(a, Some(t)).Apply? ==> Judge(a, Some(t)).reference == t
  {
  }

  /** The reference ends alike whether or not the reversal is already parked. */
  lemma ReferenceAlike(policy: Policy, db: Db, parked: Effect, s1: Stamp, p: Request, s2: Stamp, j2: nat, t1: Stamp,
                       i1: nat)
    requires Normalised(policy) && Inv(db) && Minted(s2) && Minted(t1)
    requires |parked.events| <= 2 && parked.move.None? && parked.row.status.PendingReference?
    requires parked.row.origin.External?
    requires parked.row.id !in db.transactions && Inv(Commit(db, parked, s1))
    requires var a2 := Submit(policy, Commit(db, parked, s1), Ok(p), s2, j2);
             a2.Settled? && a2.eff.row.status.IsTerminal()
    requires Submit(policy, db, Ok(p), t1, i1).Settled?
    ensures SameEffect(Submit(policy, Commit(db, parked, s1), Ok(p), s2, j2).eff, Submit(policy, db, Ok(p), t1, i1).eff)
  {
    hide Inv, Submit, Resolve, SettleReversal, SettleDirect, Park, Alike, Open, Unique, SoundWallet, Recorded;
    var db1 := Commit(db, parked, s1);
    SubmitUnfolds(policy, db1, p, s2, j2);
    SubmitUnfolds(policy, db, p, t1, i1);
    var a, b := NewExternal(s2.transactionId, p, s2.now).value, NewExternal(t1.transactionId, p, t1.now).value;
    NewRowsAlike(p, s2, t1);
    RowsHaveTheirIds(db);
    RowsHaveTheirIds(db1);
    var w := db.wallets[p.walletId];
    NewRowShape(s2.transactionId, p, s2.now);
    NewRowShape(t1.transactionId, p, t1.now);
    if a.kind.IsReversal() {
      ParkedIsInvisible(db.transactions, parked.row, a, b);
      var v1, v2 := Resolve(db1.transactions, a), Resolve(db.transactions, b);
      ResolveHasCode(db1.transactions, a);
      if v1.Wait? {
        ParkIsNotTerminal(policy, a, w, v1, s2, j2);
      } else {
        ReversalAlike(a, false, w, v1, Park(policy, a, w, s2.now, j2), s2.entryId, s2.now,
                      b, false, w, v2, Park(policy, b, w, t1.now, i1), t1.entryId, t1.now);
      }
    } else {
      DirectAlike(a, w, s2.entryId, s2.now, b, w, t1.entryId, t1.now);
    }
  }

  lemma ParkIsNotTerminal(policy: Policy, a: Transaction, w: Wallet, v: Verdict, stamp: Stamp, jitter: nat)
    requires Normalised(policy) && v.Wait? && a.kind.IsReversal()
    ensures var r := SettleSubmit(policy, a, w, v, stamp, jitter);
            r.Ok? ==> r.value.row.status.PendingReference? && r.value.move.None?
  {
    hide EventsOf, Window;
  }

  /** A reversal submitted before its reference parks. */
  lemma EarlyReversalParks(policy: Policy, db: Db, p: Request, stamp: Stamp, jitter: nat)
    requires Normalised(policy) && p.kind.IsReversal() && Submit(policy, db, Ok(p), stamp, jitter).Settled?
    requires FindByBusinessId(db.transactions, p.providerId, p.referenceExternalId).None?
    ensures var eff := Submit(policy, db, Ok(p), stamp, jitter).eff;
            eff.row.status.PendingReference? && eff.move.None?
  {
    hide Submit, SettleSubmit;
    SubmitUnfolds(policy, db, p, stamp, jitter);
    var row := NewExternal(stamp.transactionId, p, stamp.now).value;
    ParkIsNotTerminal(policy, row, db.wallets[p.walletId], Resolve(db.transactions, row), stamp, jitter);
  }

  /** The reversal is settled alike, by a visit after the reference or by its own late submission. */
  lemma LateReversalAlike(policy: Policy, before1: Db, f1: Transaction, db2: Db, a: Transaction, s3: Stamp, j3: nat,
                          x: Effect,
                          before2: Db, f2: Transaction, db1: Db, b: Transaction, t2: Stamp, i2: nat, y: Effect)
    requires Normalised(policy) && Minted(s3) && Minted(t2)
    requires JustAdded(before1, f1, db2) && JustAdded(before2, f2, db1) && SameBooks(db2, db1)
    requires SameEnd(f1, f2) && f1.status.IsTerminal()
    requires f1.providerId == a.providerId && f1.externalId == a.referenceExternalId
    requires Alike(a, b) && Open(a) && Open(b) && a.kind.IsReversal()
    requires a.walletId in db2.wallets && b.walletId in db1.wallets
    requires SettleVisit(policy, a, db2.wallets[a.walletId], Resolve(db2.transactions, a), s3, j3) == Ok(x)
    requires SettleSubmit(policy, b, db1.wallets[b.walletId], Resolve(db1.transactions, b), t2, i2) == Ok(y)
    ensures SameEffect(x, y)
    ensures x.row.status.Processed? ==> x.row.resolvedReferenceId == f1.id && y.row.resolvedReferenceId == f2.id
  {
    hide Inv, Resolve, Open, SoundWallet, SameEnd, JustAdded, SameBooks, NonZero, SameHoldings, Alike, SameEffect,
      SettleSubmit, SettleVisit, SameVerdict;
    AlikeFields(a, b);
    LateVerdicts(before1, f1, db2, before2, f2, db1, a, b);
    WalletsAlike(before1, f1, db2, before2, f2, db1, b.walletId);
    SettledAlike(policy, a, db2.wallets[a.walletId], Resolve(db2.transactions, a), s3, j3,
                 b, db1.wallets[b.walletId], Resolve(db1.transactions, b), t2, i2);
  }

  /** Both orders reach the same verdict on the reversal, each about its own reference row. */
  lemma LateVerdicts(before1: Db, f1: Transaction, db2: Db, before2: Db, f2: Transaction, db1: Db, a: Transaction,
                     b: Transaction)
    requires JustAdded(before1, f1, db2) && JustAdded(before2, f2, db1)
    requires Alike(a, b) && SameEnd(f1, f2) && f1.status.IsTerminal()
    requires f1.providerId == a.providerId && f1.externalId == a.referenceExternalId
    ensures var v1, v2 := Resolve(db2.transactions, a), Resolve(db1.transactions, b);
            && SameVerdict(v1, v2) && !v1.Wait? && NonZero(v1)
            && (v1.Apply? ==> v1.reference == f1 && v2.reference == f2)
  {
    hide Inv, Resolve, Judge, SameVerdict, NonZero;
    EndsAlike(f1, f2);
    VerdictAfterReference(before1, f1, db2, a);
    VerdictAfterReference(before2, f2, db1, b);
    JudgesAlike(a, b, f1, f2);
    VerdictHasCode(a, Some(f1));
    JudgedReference(a, f1);
    JudgedReference(b, f2);
    assert Judge(b, Some(f2)).Apply? == Judge(a, Some(f1)).Apply? by {
      SameVerdictsApply(Judge(a, Some(f1)), Judge(b, Some(f2)));
    }
  }

  lemma SameVerdictsApply(v1: Verdict, v2: Verdict)
    requires SameVerdict(v1, v2)
    ensures v1.Apply? == v2.Apply?
  {
  }

  lemma SettledAlike(policy: Policy, a: Transaction, w1: Wallet, v1: Verdict, s: Stamp, j: nat,
                     b: Transaction, w2: Wallet, v2: Verdict, t: Stamp, i: nat)
    requires Normalised(policy) && Minted(s) && Minted(t)
    requires Alike(a, b) && Open(a) && Open(b) && a.kind.IsReversal() && b.kind.IsReversal()
    requires SameHoldings(w1, w2) && SoundWallet(w1) && SoundWallet(w2)
    requires SameVerdict(v1, v2) && !v1.Wait? && NonZero(v1)
    ensures var x, y := SettleVisit(policy, a, w1, v1, s, j), SettleSubmit(policy, b, w2, v2, t, i);
            && x.Ok? && y.Ok? && SameEffect(x.value, y.value)
            && (x.value.row.status.Processed? ==>
                  v1.Apply? && v2.Apply? && x.value.row.resolvedReferenceId == v1.reference.id
                  && y.value.row.resolvedReferenceId == v2.reference.id)
  {
    hide Park, KeepWaiting, SettleReversal, Alike, Open, SameHoldings, SoundWallet, NonZero, SameEffect;
    ReversalAlike(a, true, w1, v1, KeepWaiting(policy, a, w1, s.now, j), s.entryId, s.now,
                  b, false, w2, v2, Park(policy, b, w2, t.now, i), t.entryId, t.now);
  }

  lemma VisitUnfolds(policy: Policy, db: Db, id: string, stamp: Stamp, jitter: nat)
    requires Normalised(policy) && Claimable(db, id) && Visit(policy, db, id, stamp, jitter).Settled?
    ensures id in db.transactions && db.transactions[id].walletId in db.wallets
    ensures var row := db.transactions[id];
            SettleVisit(policy, row, db.wallets[row.walletId], Resolve(db.transactions, row), stamp, jitter)
            == Ok(Visit(policy, db, id, stamp, jitter).eff)
  {
    hide Resolve, SettleVisit, Fresh;
  }

  lemma JudgesAlike(a: Transaction, b: Transaction, x: Transaction, y: Transaction)
    requires Alike(a, b) && SameEnd(x, y) && x.status.IsTerminal() && x.id != "" && y.id != ""
    ensures SameVerdict(Judge(a, Some(x)), Judge(b, Some(y))) && !Judge(a, Some(x)).Wait?
  {
    JudgeAlike(a, b, x, y);
  }

  lemma AlikeFields(a: Transaction, b: Transaction)
    requires Alike(a, b)
    ensures a.kind == b.kind && a.walletId == b.walletId && a.providerId == b.providerId
            && a.referenceExternalId == b.referenceExternalId
  {
  }

  lemma WalletsAlike(before1: Db, f1: Transaction, x: Db, before2: Db, f2: Transaction, y: Db, wallet: string)
    requires JustAdded(before1, f1, x) && JustAdded(before2, f2, y) && SameBooks(x, y) && wallet in y.wallets
    ensures wallet in x.wallets && SameHoldings(x.wallets[wallet], y.wallets[wallet])
    ensures SoundWallet(x.wallets[wallet]) && SoundWallet(y.wallets[wallet])
  {
    hide Inv;
    RowsHaveTheirIds(x);
    RowsHaveTheirIds(y);
  }

  /** A sound state whose last step stored one new row. */
  ghost predicate JustAdded(before: Db, t: Transaction, after: Db) {
    && Inv(before) && Inv(after)
    && t.id !in before.transactions && after.transactions == before.transactions[t.id := t]
    && t.id != "" && t.origin.External? && t.resolvedReferenceId != t.id
  }

  lemma EndsAlike(a: Transaction, b: Transaction)
    requires SameEnd(a, b)
    ensures a.origin == b.origin && a.providerId == b.providerId && a.externalId == b.externalId
  {
  }

  lemma NewRowReference(id: string, p: Request, at: Instant)
    requires NewExternal(id, p, at).Ok?
    ensures NewExternal(id, p, at).value.providerId == p.providerId
    ensures NewExternal(id, p, at).value.referenceExternalId == p.referenceExternalId
  {
  }

  /** Parking the reversal first changes nothing about its reference. */
  lemma ReferenceEitherWay(policy: Policy, db: Db, reversal: Request, reference: Request,
                           s1: Stamp, j1: nat, s2: Stamp, j2: nat, t1: Stamp, i1: nat)
    requires Normalised(policy) && Inv(db) && Minted(s2) && Minted(t1)
    requires reversal.kind.IsReversal() && reversal.providerId == reference.providerId
    requires reversal.referenceExternalId == reference.externalId
    requires Submit(policy, db, Ok(reversal), s1, j1).Settled? && Submit(policy, db, Ok(reference), t1, i1).Settled?
    requires var db1 := After(db, Submit(policy, db, Ok(reversal), s1, j1), s1);
             var a2 := Submit(policy, db1, Ok(reference), s2, j2);
             a2.Settled? && a2.eff.row.status.IsTerminal()
    ensures var a1, b1 := Submit(policy, db, Ok(reversal), s1, j1), Submit(policy, db, Ok(reference), t1, i1);
            var a2 := Submit(policy, After(db, a1, s1), Ok(reference), s2, j2);
            && a1.eff.row.status.PendingReference? && SameEffect(a2.eff, b1.eff)
            && SameBooks(After(After(db, a1, s1), a2, s2), After(db, b1, t1))
  {
    hide Inv, Submit, SameBooks, Recorded, Sound, Alike, SameEffect, Open, IsBusiness;
    var a1, b1 := Submit(policy, db, Ok(reversal), s1, j1), Submit(policy, db, Ok(reference), t1, i1);
    SubmitUnfolds(policy, db, reference, t1, i1);
    EarlyReversalParks(policy, db, reversal, s1, j1);
    SubmittedIsStored(policy, db, reversal, s1, j1);
    var db1 := After(db, a1, s1);
    var a2 := Submit(policy, db1, Ok(reference), s2, j2);
    SubmittedIsStored(policy, db1, reference, s2, j2);
    SubmittedIsStored(policy, db, reference, t1, i1);
    ReferenceAlike(policy, db, a1.eff, s1, reference, s2, j2, t1, i1);
    BooksReflexive(db);
    StillBooks(db, a1.eff, s1, db);
    SubmitWalletStays(policy, db1, reference, s2, j2);
    BooksAlike(db1, a2.eff, s2, db, b1.eff, t1);
  }

  /**
   * Reversal, reference, one worker visit; or reference, reversal: whenever the
   * reference ends terminal both orders leave the same balances, versions and ledger
   * movements, and both operations end with the same status, code and balance.
   */
  lemma OutOfOrderIsConfluent(policy: Policy, db: Db, reversal: Request, reference: Request,
                              s1: Stamp, j1: nat, s2: Stamp, j2: nat, s3: Stamp, j3: nat,
                              t1: Stamp, i1: nat, t2: Stamp, i2: nat)
    requires Normalised(policy) && Inv(db) && Minted(s2) && Minted(s3) && Minted(t1) && Minted(t2)
    requires reversal.kind.IsReversal() && reversal.providerId == reference.providerId
    requires reversal.referenceExternalId == reference.externalId
    requires Submit(policy, db, Ok(reversal), s1, j1).Settled?
    requires var db1 := After(db, Submit(policy, db, Ok(reversal), s1, j1), s1);
             var a2 := Submit(policy, db1, Ok(reference), s2, j2);
             var db2 := After(db1, a2, s2);
             a2.Settled? && a2.eff.row.status.IsTerminal()
             && (Claimable(db2, s1.transactionId) ==> Visit(policy, db2, s1.transactionId, s3, j3).Settled?)
    requires var b1 := Submit(policy, db, Ok(reference), t1, i1);
             b1.Settled? && Submit(policy, After(db, b1, t1), Ok(reversal), t2, i2).Settled?
    ensures var db1 := After(db, Submit(policy, db, Ok(reversal), s1, j1), s1);
            var a2 := Submit(policy, db1, Ok(reference), s2, j2);
            var db2 := After(db1, a2, s2);
            var b1 := Submit(policy, db, Ok(reference), t1, i1);
            var ordered := After(db, b1, t1);
            var b2 := Submit(policy, ordered, Ok(reversal), t2, i2);
            && Claimable(db2, s1.transactionId)
            && var a3 := Visit(policy, db2, s1.transactionId, s3, j3);
               && SameBooks(After(db2, a3, s3), After(ordered, b2, t2))
               && SameEnd(a3.eff.row, b2.eff.row) && SameEnd(a2.eff.row, b1.eff.row)
               && (a3.eff.row.status.Processed? ==>
                     a3.eff.row.resolvedReferenceId == a2.eff.row.id && b2.eff.row.resolvedReferenceId == b1.eff.row.id)
  {
    hide Inv, Submit, Visit, SameBooks, Recorded, Sound, Alike, SameMove, SameEnd, Open, IsBusiness, Resolve,
      SettleSubmit, SettleVisit, FindByBusinessId, NewExternal;
    var a1, b1 := Submit(policy, db, Ok(reversal), s1, j1), Submit(policy, db, Ok(reference), t1, i1);
    var db1 := After(db, a1, s1);
    var a2 := Submit(policy, db1, Ok(reference), s2, j2);
    var db2, ordered := After(db1, a2, s2), After(db, b1, t1);
    SubmittedIsStored(policy, db, reversal, s1, j1);
    SubmittedIsStored(policy, db1, reference, s2, j2);
    SubmittedIsStored(policy, db, reference, t1, i1);
    ReferenceEitherWay(policy, db, reversal, reference, s1, j1, s2, j2, t1, i1);
    var id := s1.transactionId;
    assert db2.transactions[id] == a1.eff.row;
    ParkedIsClaimable(db2, id);
    var a3 := Visit(policy, db2, id, s3, j3);
    var b2 := Submit(policy, ordered, Ok(reversal), t2, i2);
    SubmittedIsStored(policy, ordered, reversal, t2, i2);
    SubmitUnfolds(policy, db, reversal, s1, j1);
    SubmitUnfolds(policy, ordered, reversal, t2, i2);
    NewRowsAlike(reversal, s1, t2);
    AlikeTransitive(a1.eff.row, NewExternal(id, reversal, s1.now).value,
                    NewExternal(t2.transactionId, reversal, t2.now).value);
    BusinessPair(a2.eff.row, reference.providerId, reference.externalId);
    assert "" !in db.transactions && "" !in db1.transactions by { RowsHaveTheirIds(db); RowsHaveTheirIds(db1); }
    assert Inv(db2) && Inv(ordered);
    RowsHaveTheirIds(db2);
    RowsHaveTheirIds(ordered);
    ReferenceIsTerminalAlike(a2.eff.row, b1.eff.row);
    VisitUnfolds(policy, db2, id, s3, j3);
    NewRowShape(t2.transactionId, reversal, t2.now);
    NewRowReference(t2.transactionId, reversal, t2.now);
    LateReversalAlike(policy, db1, a2.eff.row, db2, a1.eff.row, s3, j3, a3.eff,
                      db, b1.eff.row, ordered, NewExternal(t2.transactionId, reversal, t2.now).value, t2, i2, b2.eff);
    VisitIsSound(policy, db2, id, s3, j3);
    SoundIsShort(db2, a3.eff, s3);
    BooksAlike(db2, a3.eff, s3, ordered, b2.eff, t2);
  }

  lemma ReferenceIsTerminalAlike(a: Transaction, b: Transaction)
    requires SameEnd(a, b)
    ensures a.status == b.status && a.kind == b.kind
  {
  }

  lemma BusinessPair(t: Transaction, p: string, e: string)
    requires IsBusiness(t, p, e)
    ensures t.origin.External? && t.providerId == p && t.externalId == e
  {
  }

  lemma AlikeTransitive(a: Transaction, b: Transaction, c: Transaction)
    requires Alike(a, b) && Alike(b, c)
    ensures Alike(a, c)
  {
  }

  lemma BooksReflexive(a: Db)
    ensures SameBooks(a, a)
  {
  }

  lemma SubmitWalletStays(policy: Policy, db: Db, p: Request, stamp: Stamp, jitter: nat)
    requires Normalised(policy) && Inv(db) && Submit(policy, db, Ok(p), stamp, jitter).Settled?
    ensures p.walletId in db.wallets && Submit(policy, db, Ok(p), stamp, jitter).eff.row.walletId == p.walletId
  {
    SubmitUnfolds(policy, db, p, stamp, jitter);
    SubmitIsSound(policy, db, Ok(p), stamp, jitter);
  }

  lemma ParkedIsClaimable(db: Db, id: string)
    requires Inv(db) && id in db.transactions && db.transactions[id].status.PendingReference?
    ensures Claimable(db, id)
  {
    assert RowFits(db.transactions[id], db.wallets);
  }
}
