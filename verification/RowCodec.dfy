/**
 * An operation as a table row: absent values are NULL, one currency serves both
 * amounts, and instants are kept to the microsecond.
 */
module RowCodec {
  import opened Base
  import opened Money
  import opened Domain
  import opened Tables
  import opened ExactlyOnce

  /** The columns; the currency of the observed balance is not one of them. */
  datatype Columns = Columns(
    id: string,
    origin: Origin,
    kind: Kind,
    status: Status,
    walletId: string,
    playerId: string,
    amountMinor: int64,
    currency: string,
    providerId: Option<string>,
    externalId: Option<string>,
    idempotencyKey: Option<string>,
    payloadHash: Option<string>,
    roundId: Option<string>,
    gameId: Option<string>,
    referenceExternalId: Option<string>,
    resolvedReferenceId: Option<string>,
    attempts: nat,
    nextAttemptAt: Option<Instant>,
    deadlineAt: Option<Instant>,
    failureCode: Option<Code>,
    balanceAfterMinor: Option<int64>,
    createdAt: Instant,
    updatedAt: Instant)

  /** Instants are counted in nanoseconds; a column holds whole microseconds. */
  const MICROSECOND := 1000

  /** The instant a column keeps: the part below a microsecond is cut off. */
  function Micro(at: Instant): (m: Instant)
    ensures m % MICROSECOND == 0 && m <= at < m + MICROSECOND
  {
    at - at % MICROSECOND
  }

  function Nullable(s: string): Option<string> { if s == "" then None else Some(s) }

  function NullableTime(at: Instant): Option<Instant> { if at == 0 then None else Some(Micro(at)) }

  function NullableCode(code: Code): Option<Code> { if code == NoCode then None else Some(code) }

  function NullableMinor(m: Money): Option<int64> { if m.IsInitialised() then Some(m.minor) else None }

  function Deref<T>(o: Option<T>, absent: T): T { if o.None? then absent else o.value }

  /** What an insert writes. */
  function Encode(t: Transaction): Columns {
    Columns(t.id, t.origin, t.kind, t.status, t.walletId, t.playerId, t.money.minor, t.money.currency,
            Nullable(t.providerId), Nullable(t.externalId), Nullable(t.idempotencyKey), Nullable(t.payloadHash),
            Nullable(t.roundId), Nullable(t.gameId), Nullable(t.referenceExternalId), Nullable(t.resolvedReferenceId),
            t.attempts, NullableTime(t.nextAttemptAt), NullableTime(t.deadlineAt), NullableCode(t.failureCode),
            NullableMinor(t.balanceAfter), Micro(t.createdAt), Micro(t.updatedAt))
  }

  predicate IsNullable(column: Option<string>, s: string) {
    (s == "" && column.None?) || (s != "" && column == Some(s))
  }

  predicate IsInstant(column: Option<Instant>, at: Instant) {
    (at == 0 && column.None?) || (at != 0 && column.Some? && column.value <= at < column.value + 1000)
  }

  /**
   * Every field is kept in the column of its own name: text unless empty, instants to the
   * microsecond, codes and balances if set.
   */
  lemma ColumnByColumn(t: Transaction)
    ensures var c := Encode(t);
            && c.id == t.id && c.origin == t.origin && c.kind == t.kind && c.status == t.status
            && c.walletId == t.walletId && c.playerId == t.playerId
            && c.amountMinor == t.money.minor && c.currency == t.money.currency
            && IsNullable(c.providerId, t.providerId) && IsNullable(c.externalId, t.externalId)
            && IsNullable(c.idempotencyKey, t.idempotencyKey) && IsNullable(c.payloadHash, t.payloadHash)
            && IsNullable(c.roundId, t.roundId) && IsNullable(c.gameId, t.gameId)
            && IsNullable(c.referenceExternalId, t.referenceExternalId)
            && IsNullable(c.resolvedReferenceId, t.resolvedReferenceId)
            && c.attempts == t.attempts && IsInstant(c.nextAttemptAt, t.nextAttemptAt)
            && IsInstant(c.deadlineAt, t.deadlineAt)
            && c.failureCode == (if t.failureCode == NoCode then None else Some(t.failureCode))
            && c.balanceAfterMinor == (if t.balanceAfter.currency == "" then None else Some(t.balanceAfter.minor))
            && c.createdAt <= t.createdAt < c.createdAt + 1000 && c.updatedAt <= t.updatedAt < c.updatedAt + 1000
  {
  }

  /** What an update writes: the eight columns a transition may change. */
  function Overwrite(c: Columns, t: Transaction): Columns {
    c.(status := t.status, resolvedReferenceId := Nullable(t.resolvedReferenceId), attempts := t.attempts,
       nextAttemptAt := NullableTime(t.nextAttemptAt), deadlineAt := NullableTime(t.deadlineAt),
       failureCode := NullableCode(t.failureCode), balanceAfterMinor := NullableMinor(t.balanceAfter),
       updatedAt := Micro(t.updatedAt))
  }

  /** Rebuilds an operation from storage; a row with an impossible shape stops here. */
  function Rehydrate(t: Transaction): Result<Transaction> {
    if t.id == "" || t.walletId == "" || t.playerId == "" then Err(Domain(InvalidIdentifier))
    else if t.createdAt == 0 || t.updatedAt == 0 then Err(Domain(InvalidTimestamp))
    else
      var _ :- t.kind.CheckAmount(t.money);
      match t.origin
      case Internal =>
        if !t.kind.OpeningCredit? then Err(Domain(InvalidKind))
        else if t.providerId != "" || t.externalId != "" || t.idempotencyKey != "" || t.payloadHash != ""
                || t.roundId != "" || t.gameId != "" || t.referenceExternalId != ""
        then Err(Domain(InvalidKind))
        else Ok(t)
      case External =>
        if t.kind.OpeningCredit? then Err(Domain(InvalidKind))
        else if t.providerId == "" || t.externalId == "" || t.idempotencyKey == "" || t.payloadHash == ""
                || t.roundId == "" || t.gameId == ""
        then Err(Domain(InvalidIdentifier))
        else if t.kind.IsReversal() && t.referenceExternalId == "" then Err(Domain(MissingReference))
        else if !t.kind.IsReversal() && t.referenceExternalId != "" then Err(Domain(UnexpectedReference))
        else Ok(t)
  }

  function Scan(c: Columns): Result<Transaction> {
    if c.currency == "" then Err(Domain(InvalidCurrency))
    else
      Rehydrate(Transaction(
        c.id, c.origin, c.kind, c.status, c.walletId, c.playerId, Money(c.amountMinor, c.currency),
        Deref(c.providerId, ""), Deref(c.externalId, ""), Deref(c.idempotencyKey, ""), Deref(c.payloadHash, ""),
        Deref(c.roundId, ""), Deref(c.gameId, ""), Deref(c.referenceExternalId, ""), Deref(c.resolvedReferenceId, ""),
        Deref(c.failureCode, NoCode), c.attempts, Deref(c.nextAttemptAt, 0), Deref(c.deadlineAt, 0),
        if c.balanceAfterMinor.None? then UNSET else Money(c.balanceAfterMinor.value, c.currency),
        c.createdAt, c.updatedAt))
  }

  /** The observed balance can be rebuilt without a currency of its own. */
  predicate Recoverable(t: Transaction) {
    t.balanceAfter == UNSET || (t.balanceAfter.IsInitialised() && t.balanceAfter.currency == t.money.currency)
  }

  /** The observed balance as its one column gives it back. */
  function Recovered(t: Transaction): Money {
    if t.balanceAfter.IsInitialised() then Money(t.balanceAfter.minor, t.money.currency) else UNSET
  }

  /** The operation with every instant cut to the microsecond. */
  function Cut(t: Transaction): Transaction {
    t.(nextAttemptAt := Micro(t.nextAttemptAt), deadlineAt := Micro(t.deadlineAt),
       createdAt := Micro(t.createdAt), updatedAt := Micro(t.updatedAt))
  }

  predicate IsWhole(at: Instant) { at % MICROSECOND == 0 }

  predicate WholeInstants(t: Transaction) {
    IsWhole(t.nextAttemptAt) && IsWhole(t.deadlineAt) && IsWhole(t.createdAt) && IsWhole(t.updatedAt)
  }

  lemma CutIsWhole(t: Transaction)
    ensures WholeInstants(Cut(t)) && (WholeInstants(t) <==> Cut(t) == t)
    ensures Cut(Cut(t)) == Cut(t)
  {
  }

  /** Reading a written row gives the operation cut to the microsecond, with its balance in its own currency. */
  lemma ScanIsRehydration(t: Transaction)
    requires t.money.IsInitialised()
    ensures var back := Cut(t).(balanceAfter := Recovered(t));
            Scan(Encode(t)) == Rehydrate(back)
  {
  }

  lemma RehydratesItself(t: Transaction, u: Transaction)
    requires u == t.(balanceAfter := u.balanceAfter)
    ensures Rehydrate(t).Ok? <==> Rehydrate(u).Ok?
    ensures Rehydrate(t).Ok? ==> Rehydrate(t) == Ok(t) && Rehydrate(u) == Ok(u)
  {
  }

  /** What comes back is the operation cut to the microsecond, iff the cut one has a sound shape and one currency. */
  lemma ReadsBackCut(t: Transaction)
    ensures Scan(Encode(t)) == Ok(Cut(t)) <==> Rehydrate(Cut(t)).Ok? && Recoverable(t)
  {
    hide Encode, Scan, Rehydrate;
    var back := Cut(t).(balanceAfter := Recovered(t));
    NoCurrencyNoRow(t);
    RehydratesItself(Cut(t), back);
    if t.money.IsInitialised() { ScanIsRehydration(t); }
  }

  lemma NoCurrencyNoRow(t: Transaction)
    ensures !t.money.IsInitialised() ==> Scan(Encode(t)).Err? && Rehydrate(Cut(t)).Err?
  {
  }

  lemma RehydrationReturnsItsInput(t: Transaction)
    ensures Rehydrate(t).Ok? ==> Rehydrate(t) == Ok(t)
  {
  }

  lemma ScanIsWhole(t: Transaction)
    ensures Scan(Encode(t)).Ok? ==> WholeInstants(Scan(Encode(t)).value) && Recoverable(Scan(Encode(t)).value)
                                    && Rehydrate(Scan(Encode(t)).value).Ok?
  {
    hide Rehydrate, Encode, Scan;
    NoCurrencyNoRow(t);
    if t.money.IsInitialised() {
      ScanIsRehydration(t);
      RehydrationReturnsItsInput(
        Cut(t).(balanceAfter := Recovered(t)));
    }
  }

  /**
   * Writing and reading gives the same value iff the shape is sound, one currency holds, and every
   * instant is a whole microsecond.
   */
  lemma RoundTrip(t: Transaction)
    ensures Scan(Encode(t)) == Ok(t) <==> Rehydrate(t).Ok? && Recoverable(t) && WholeInstants(t)
  {
    hide Encode, Scan, Rehydrate, Micro;
    CutIsWhole(t);
    ReadsBackCut(t);
    ScanIsWhole(t);
  }

  /** What was read is written and read again unchanged. */
  lemma ReadingIsStable(t: Transaction)
    ensures Scan(Encode(t)).Ok? ==> Scan(Encode(Scan(Encode(t)).value)) == Scan(Encode(t))
  {
    hide Encode, Scan, Rehydrate, WholeInstants;
    ScanIsWhole(t);
    if Scan(Encode(t)).Ok? { RoundTrip(Scan(Encode(t)).value); }
  }

  /** A loss created one nanosecond past a microsecond: sound, and not what comes back. */
  const LATE_LOSS := Transaction("t", External, Loss, Pending, "w", "p", Money(0, "EUR"), "provider", "x", "k", "h",
                                 "round", "game",
                                 "", "", NoCode, 0, 0, 0, UNSET, 1_000_001, 1_000_001)

  lemma NanosecondsAreLost()
    ensures Rehydrate(LATE_LOSS) == Ok(LATE_LOSS) && Recoverable(LATE_LOSS)
    ensures Scan(Encode(LATE_LOSS)) == Ok(LATE_LOSS.(createdAt := 1_000_000, updatedAt := 1_000_000))
    ensures Scan(Encode(LATE_LOSS)) != Ok(LATE_LOSS)
  {
    hide Encode, Scan;
    assert Cut(LATE_LOSS) == LATE_LOSS.(createdAt := 1_000_000, updatedAt := 1_000_000);
    ReadsBackCut(LATE_LOSS);
  }

  /**
   * Once the clock is past its first microsecond, every stored row reads back cut, and exactly iff
   * its instants are whole.
   */
  lemma StoredRowsReadBackCut(db: Db, id: string)
    requires Inv(db) && id in db.transactions
    ensures var t := db.transactions[id];
            && (Scan(Encode(t)) == Ok(Cut(t)) <==> Micro(t.createdAt) != 0 && Micro(t.updatedAt) != 0)
            && (Scan(Encode(t)) == Ok(t) <==> WholeInstants(t))
  {
    hide BooksBalance, LogComplete, LedgerExplained, Unique, ReversalsResolve, Encode, Scan, Micro;
    var t := db.transactions[id];
    assert RowFits(t, db.wallets);
    WalletIdIsSet(db, t.walletId);
    CutIsWhole(t);
    ReadsBackCut(t);
    RoundTrip(t);
  }

  lemma WalletIdIsSet(db: Db, wallet: string)
    requires Inv(db) && wallet in db.wallets
    ensures wallet != ""
  {
  }

  /** Updating the changed columns leaves the row exactly as inserting the whole value would. */
  lemma OverwriteIsInsert(stored: Transaction, t: Transaction)
    requires stored.Identity() == t.Identity()
    ensures Overwrite(Encode(stored), t) == Encode(t)
  {
    IdentityKeeps(stored, t);
    assert stored.Identity().playerId == stored.playerId && t.Identity().playerId == t.playerId;
    assert stored.Identity().roundId == stored.roundId && t.Identity().roundId == t.roundId;
    assert stored.Identity().gameId == stored.gameId && t.Identity().gameId == t.gameId;
    assert stored.Identity().referenceExternalId == stored.referenceExternalId;
    assert t.Identity().referenceExternalId == t.referenceExternalId;
    assert stored.Identity().createdAt == stored.createdAt && t.Identity().createdAt == t.createdAt;
  }

  /** Every transition of the state machine, so every value an update is ever given. */
  datatype Transit =
    | Park(at: Instant, nextAt: Instant, deadline: Instant)
    | Reschedule(at: Instant, nextAt: Instant)
    | Link(reference: string, at: Instant)
    | Process(observed: Money, at: Instant)
    | Reject(code: Code, at: Instant)
    | Fail(code: Code, at: Instant)

  function Transition(t: Transaction, x: Transit): Result<Transaction> {
    match x
    case Park(at, nextAt, deadline) => t.MarkPendingReference(at, nextAt, deadline)
    case Reschedule(at, nextAt) => t.RescheduleReference(at, nextAt)
    case Link(reference, at) => t.ResolveReference(reference, at)
    case Process(observed, at) => t.MarkProcessed(observed, at)
    case Reject(code, at) => t.Reject(code, at)
    case Fail(code, at) => t.Fail(code, at)
  }

  function Transitions(t: Transaction, xs: seq<Transit>): Result<Transaction>
    decreases |xs|
  {
    if xs == [] then Ok(t)
    else
      var next :- Transition(t, xs[0]);
      Transitions(next, xs[1..])
  }

  /**
   * After any transitions the update writes exactly the row an insert would, the status
   * moved along allowed edges only, a terminal value went nowhere, and attempts only grew.
   */
  lemma {:induction false} TransitionsUpdateWhole(t: Transaction, xs: seq<Transit>)
    requires Transitions(t, xs).Ok?
    ensures var u := Transitions(t, xs).value;
            && u.Identity() == t.Identity()
            && Overwrite(Encode(t), u) == Encode(u)
            && (t.status.IsTerminal() ==> xs == [])
            && (u.status == t.status || AllowedTransition(t.status, u.status))
            && t.attempts <= u.attempts
            && (t.status.PendingReference? ==> u.deadlineAt == t.deadlineAt)
    decreases |xs|
  {
    hide Encode, Overwrite;
    if xs != [] {
      var next := Transition(t, xs[0]).value;
      OneTransition(t, xs[0]);
      TransitionsUpdateWhole(next, xs[1..]);
    }
    OverwriteIsInsert(t, Transitions(t, xs).value);
  }

  lemma OneTransition(t: Transaction, x: Transit)
    requires Transition(t, x).Ok?
    ensures var u := Transition(t, x).value;
            && u.Identity() == t.Identity() && !t.status.IsTerminal()
            && (u.status == t.status || AllowedTransition(t.status, u.status))
            && t.attempts <= u.attempts
            && (t.status.PendingReference? ==> u.deadlineAt == t.deadlineAt)
  {
  }
}
