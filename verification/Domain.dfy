/** The financial aggregate: wallets, ledger entries, operations and the events they raise. */
module Domain {
  import opened Base
  import opened Money

  /** An instant; 0 is the instant that was never set. */
  type Instant = int

  /* ---- ledger ---- */

  datatype Direction = Debit | Credit {
    function Opposite(): Direction {
      if Debit? then Credit else Debit
    }
  }

  datatype Entry = Entry(
    id: string,
    walletId: string,
    transactionId: string,
    direction: Direction,
    amount: Money,
    before: Money,
    after: Money,
    createdAt: Instant)
  {
    /** What the entry adds to the balance. */
    function Signed(): int {
      if direction.Debit? then 0 - amount.minor else amount.minor
    }
  }

  function ApplyDirection(d: Direction, balance: Money, amount: Money): Result<Money> {
    if d.Debit? then balance.Sub(amount) else balance.Add(amount)
  }

  /** Checks an entry's shape and arithmetic, both when it is made and when it is read back. */
  function NewEntry(e: Entry): (r: Result<Entry>)
    ensures r.Ok? <==>
              && e.id != "" && e.walletId != "" && e.transactionId != "" && e.createdAt != 0
              && e.amount.minor > 0 && e.after.minor == e.before.minor + e.Signed()
              && e.amount.currency == e.before.currency == e.after.currency != ""
    ensures r.Ok? ==> r.value == e
    ensures r.Err? ==> r.error.Domain?
  {
    if e.id == "" || e.walletId == "" || e.transactionId == "" then Err(Domain(InvalidIdentifier))
    else if e.createdAt == 0 then Err(Domain(InvalidTimestamp))
    else if !e.amount.IsInitialised() || e.amount.minor <= 0 then Err(Domain(NonPositiveAmount))
    else if !e.before.IsInitialised() || !e.after.IsInitialised() then Err(Domain(InvalidCurrency))
    else if e.before.currency != e.amount.currency || e.after.currency != e.amount.currency
    then Err(Domain(CurrencyMismatch))
    else
      var expected :- ApplyDirection(e.direction, e.before, e.amount);
      if expected != e.after then Err(Domain(InconsistentEntry)) else Ok(e)
  }

  /* ---- wallet ---- */

  datatype Wallet = Wallet(
    id: string,
    playerId: string,
    balance: Money,
    version: int64,
    createdAt: Instant,
    updatedAt: Instant)

  datatype Movement = Movement(wallet: Wallet, entry: Entry)

  datatype Opening = Opening(wallet: Wallet, entry: Option<Entry>)

  /** A wallet as every constructor and every stored row leaves it. */
  predicate SoundWallet(w: Wallet) {
    && w.id != "" && w.playerId != "" && w.balance.IsInitialised()
    && 0 <= w.balance.minor && 1 <= w.version && w.createdAt != 0 && w.updatedAt != 0
  }

  function OpenWallet(id: string, playerId: string, initial: Money, txId: string, entryId: string, at: Instant)
    : (r: Result<Opening>)
    ensures r.Ok? <==>
              && id != "" && playerId != "" && at != 0 && initial.IsInitialised() && 0 <= initial.minor
              && (initial.minor > 0 ==> txId != "" && entryId != "")
    ensures r.Ok? ==>
              && SoundWallet(r.value.wallet) && r.value.wallet.version == 1
              && r.value.wallet.balance == initial
              && (r.value.entry.Some? <==> initial.minor > 0)
              && (r.value.entry.Some? ==>
                    r.value.entry.value == Entry(entryId, id, txId, Credit, initial, Money(0, initial.currency),
                                                 initial, at))
    ensures r.Err? ==> r.error.Domain?
  {
    if id == "" || playerId == "" then Err(Domain(InvalidIdentifier))
    else if at == 0 then Err(Domain(InvalidTimestamp))
    else if !initial.IsInitialised() then Err(Domain(InvalidCurrency))
    else if initial.minor < 0 then Err(Domain(NegativeAmount))
    else
      var wallet := Wallet(id, playerId, initial, 1, at, at);
      if initial.minor == 0 then Ok(Opening(wallet, None))
      else
        var entry :- NewEntry(Entry(entryId, id, txId, Credit, initial, Money(0, initial.currency), initial, at));
        Ok(Opening(wallet, Some(entry)))
  }

  /** What a caller has to supply for a movement to be judged on the balance alone. */
  predicate WellPosed(w: Wallet, entryId: string, txId: string, amount: Money, at: Instant) {
    && entryId != "" && txId != "" && at != 0
    && amount.minor > 0 && amount.currency == w.balance.currency
  }

  /**
   * Moves money. On a sound wallet a debit fails exactly when the balance is too
   * small and never by overflow, a credit fails exactly when int64 is too small,
   * and the entry's own check of the arithmetic never disagrees.
   */
  function Move(w: Wallet, d: Direction, entryId: string, txId: string, amount: Money, at: Instant)
    : (r: Result<Movement>)
    ensures r.Err? ==> r.error.Domain? && r.error.code != NoCode
    ensures r.Ok? ==> WellPosed(w, entryId, txId, amount, at) && Moved(w, d, entryId, txId, amount, at, r.value)
    ensures SoundWallet(w) && WellPosed(w, entryId, txId, amount, at) ==>
              && (d.Debit? ==> if amount.minor <= w.balance.minor then r.Ok?
                               else r == Err(Domain(InsufficientFunds)))
              && (d.Credit? ==> if w.balance.minor + amount.minor <= MAX_INT64 then r.Ok?
                                else r == Err(Domain(AmountOverflow)))
  {
    if w.id == "" then Err(Domain(InvalidIdentifier))
    else if at == 0 then Err(Domain(InvalidTimestamp))
    else if !amount.IsInitialised() || amount.minor <= 0 then Err(Domain(NonPositiveAmount))
    else if amount.currency != w.balance.currency then Err(Domain(CurrencyMismatch))
    else
      var after :- ApplyDirection(d, w.balance, amount);
      if after.minor < 0 then Err(Domain(InsufficientFunds))
      else
        var entry :- NewEntry(Entry(entryId, w.id, txId, d, amount, w.balance, after, at));
        Ok(Movement(w.(balance := after, version := Wrap64(w.version + 1), updatedAt := at), entry))
  }

  /** A movement of an amount from a wallet: nothing created, nothing lost. */
  predicate Moved(w: Wallet, d: Direction, entryId: string, txId: string, amount: Money, at: Instant, m: Movement) {
    && m.entry == Entry(entryId, w.id, txId, d, amount, w.balance, m.wallet.balance, at)
    && m.wallet == w.(balance := m.wallet.balance, version := Wrap64(w.version + 1), updatedAt := at)
    && m.wallet.balance.currency == w.balance.currency
    && m.wallet.balance.minor == w.balance.minor + m.entry.Signed()
    && 0 <= m.wallet.balance.minor
  }

  /* ---- operations ---- */

  datatype Kind = OpeningCredit | Bet | Win | Loss | Refund | Rollback {

    predicate IsReversal() { Refund? || Rollback? }

    predicate MovesMoney() { !Loss? }

    /** The way an operation of this kind moves money; a rollback has none of its own. */
    function Direction(): Option<Direction> {
      match this
      case OpeningCredit | Win | Refund => Some(Credit)
      case Bet => Some(Debit)
      case Rollback | Loss => None
    }

    predicate CanReverse(target: Kind) {
      || (Refund? && target.Bet?)
      || (Rollback? && (target.Bet? || target.Win? || target.Refund?))
    }

    function CheckAmount(m: Money): Result<()> {
      if !m.IsInitialised() then Err(Domain(InvalidCurrency))
      else if Loss? then if m.minor != 0 then Err(Domain(InvalidAmountForKind)) else Ok(())
      else if m.minor <= 0 then Err(Domain(InvalidAmountForKind)) else Ok(())
    }
  }

  function ReversalDirection(target: Kind): Result<Direction> {
    match target.Direction()
    case None => Err(Domain(ReferenceNotReversible))
    case Some(d) => Ok(d.Opposite())
  }

  datatype Origin = Internal | External

  datatype Status = Pending | PendingReference | Processed | Rejected | Failed {
    predicate IsTerminal() { Processed? || Rejected? || Failed? }
  }

  /** The state machine's edges; terminal states have none. */
  predicate AllowedTransition(a: Status, b: Status) {
    || (a.Pending? && !b.Pending?)
    || (a.PendingReference? && b.IsTerminal())
  }

  datatype Transaction = Transaction(
    id: string,
    origin: Origin,
    kind: Kind,
    status: Status,
    walletId: string,
    playerId: string,
    money: Money,
    providerId: string,
    externalId: string,
    idempotencyKey: string,
    payloadHash: string,
    roundId: string,
    gameId: string,
    referenceExternalId: string,
    resolvedReferenceId: string,
    failureCode: Code,
    attempts: nat,
    nextAttemptAt: Instant,
    deadlineAt: Instant,
    balanceAfter: Money,
    createdAt: Instant,
    updatedAt: Instant)
  {
    /** The columns no transition may touch, with the others blanked out. */
    function Identity(): Transaction {
      this.(status := Pending, resolvedReferenceId := "", failureCode := NoCode, attempts := 0,
            nextAttemptAt := 0, deadlineAt := 0, balanceAfter := UNSET, updatedAt := 0)
    }

    function Transition(to: Status, at: Instant): (r: Result<Transaction>)
      ensures r.Ok? <==> id != "" && at != 0 && AllowedTransition(status, to)
      ensures r.Ok? ==> r.value == this.(status := to, updatedAt := at)
      ensures r.Err? ==> r.error.Domain?
    {
      if id == "" then Err(Domain(InvalidIdentifier))
      else if at == 0 then Err(Domain(InvalidTimestamp))
      else if !AllowedTransition(status, to) then Err(Domain(InvalidTransition))
      else Ok(this.(status := to, updatedAt := at))
    }

    function MarkPendingReference(at: Instant, nextAt: Instant, deadline: Instant): Result<Transaction> {
      if !kind.IsReversal() then Err(Domain(InvalidTransition))
      else if nextAt == 0 || deadline == 0 then Err(Domain(InvalidTimestamp))
      else
        var next :- Transition(PendingReference, at);
        Ok(next.(attempts := attempts + 1, nextAttemptAt := nextAt, deadlineAt := deadline))
    }

    function RescheduleReference(at: Instant, nextAt: Instant): Result<Transaction> {
      if !status.PendingReference? then Err(Domain(InvalidTransition))
      else if at == 0 || nextAt == 0 then Err(Domain(InvalidTimestamp))
      else Ok(this.(attempts := attempts + 1, nextAttemptAt := nextAt, updatedAt := at))
    }

    predicate DeadlinePassed(now: Instant) { deadlineAt != 0 && deadlineAt <= now }

    function ResolveReference(reference: string, at: Instant): Result<Transaction> {
      if !kind.IsReversal() then Err(Domain(UnexpectedReference))
      else if reference == "" then Err(Domain(InvalidIdentifier))
      else if status.IsTerminal() then Err(Domain(InvalidTransition))
      else if at == 0 then Err(Domain(InvalidTimestamp))
      else Ok(this.(resolvedReferenceId := reference, updatedAt := at))
    }

    function MarkProcessed(observed: Money, at: Instant): Result<Transaction> {
      if !observed.IsInitialised() then Err(Domain(InvalidCurrency))
      else if money.IsInitialised() && observed.currency != money.currency then Err(Domain(CurrencyMismatch))
      else
        var next :- Transition(Processed, at);
        Ok(next.(balanceAfter := observed))
    }

    function Reject(code: Code, at: Instant): Result<Transaction> {
      if code == NoCode then Err(Domain(InvalidStatus))
      else
        var next :- Transition(Rejected, at);
        Ok(next.(failureCode := code))
    }

    function Fail(code: Code, at: Instant): Result<Transaction> {
      if code == NoCode then Err(Domain(InvalidStatus))
      else
        var next :- Transition(Failed, at);
        Ok(next.(failureCode := code))
    }
  }

  function NewOpening(id: string, walletId: string, playerId: string, money: Money, at: Instant): Result<Transaction> {
    if id == "" || walletId == "" || playerId == "" then Err(Domain(InvalidIdentifier))
    else if at == 0 then Err(Domain(InvalidTimestamp))
    else
      var _ :- OpeningCredit.CheckAmount(money);
      Ok(Transaction(id, Internal, OpeningCredit, Processed, walletId, playerId, money,
                     "", "", "", "", "", "", "", "", NoCode, 0, 0, 0, money, at, at))
  }

  /** An operation as a provider submits it, parsed. */
  datatype Request = Request(
    idempotencyKey: string,
    payloadHash: string,
    providerId: string,
    externalId: string,
    playerId: string,
    walletId: string,
    roundId: string,
    gameId: string,
    kind: Kind,
    money: Money,
    referenceExternalId: string)

  function NewExternal(id: string, p: Request, at: Instant): Result<Transaction> {
    if p.kind.OpeningCredit? then Err(Domain(InvalidKind))
    else if id == "" || p.providerId == "" || p.externalId == "" || p.idempotencyKey == "" || p.payloadHash == ""
            || p.walletId == "" || p.playerId == "" || p.roundId == "" || p.gameId == ""
    then Err(Domain(InvalidIdentifier))
    else if at == 0 then Err(Domain(InvalidTimestamp))
    else
      var _ :- p.kind.CheckAmount(p.money);
      if p.kind.IsReversal() && p.referenceExternalId == "" then Err(Domain(MissingReference))
      else if !p.kind.IsReversal() && p.referenceExternalId != "" then Err(Domain(UnexpectedReference))
      else Ok(Transaction(id, External, p.kind, Pending, p.walletId, p.playerId, p.money,
                          p.providerId, p.externalId, p.idempotencyKey, p.payloadHash, p.roundId, p.gameId,
                          p.referenceExternalId, "", NoCode, 0, 0, 0, UNSET, at, at))
  }

  /* ---- events ---- */

  datatype TransactionFact = TransactionFact(
    transactionId: string,
    kind: Kind,
    status: Status,
    walletId: string,
    playerId: string,
    money: Money,
    providerId: string,
    externalId: string,
    roundId: string,
    gameId: string,
    failureCode: Code,
    balanceAfter: Option<Money>)

  datatype Event =
    | TransactionProcessed(fact: TransactionFact, occurredAt: Instant)
    | TransactionRejected(fact: TransactionFact, occurredAt: Instant)
    | TransactionPendingReference(
        fact: TransactionFact, referenceExternalId: string, attempts: int, deadlineAt: Instant, occurredAt: Instant)
    | BalanceChanged(
        walletId: string, transactionId: string, direction: Direction, amount: Money,
        before: Money, after: Money, walletVersion: int64, occurredAt: Instant)

  function Fact(t: Transaction): TransactionFact {
    TransactionFact(t.id, t.kind, t.status, t.walletId, t.playerId, t.money, t.providerId, t.externalId,
                    t.roundId, t.gameId, t.failureCode,
                    if t.balanceAfter.IsInitialised() then Some(t.balanceAfter) else None)
  }

  function Sealed(aggregate: string, e: Event): Result<Event> {
    if aggregate == "" then Err(Domain(InvalidIdentifier))
    else if e.occurredAt == 0 then Err(Domain(InvalidTimestamp))
    else Ok(e)
  }

  function NewProcessed(t: Transaction): Result<Event> {
    if !t.status.Processed? then Err(Domain(InvalidStatus))
    else Sealed(t.id, TransactionProcessed(Fact(t), t.updatedAt))
  }

  function NewRejected(t: Transaction): Result<Event> {
    if !t.status.Rejected? || t.failureCode == NoCode then Err(Domain(InvalidStatus))
    else Sealed(t.id, TransactionRejected(Fact(t), t.updatedAt))
  }

  function NewPendingReference(t: Transaction): Result<Event> {
    if !t.status.PendingReference? then Err(Domain(InvalidStatus))
    else Sealed(t.id,
                TransactionPendingReference(Fact(t), t.referenceExternalId, t.attempts, t.deadlineAt, t.updatedAt))
  }

  function Change(wallet: Wallet, e: Entry): Event {
    BalanceChanged(wallet.id, e.transactionId, e.direction, e.amount, e.before, e.after, wallet.version, e.createdAt)
  }

  function NewBalanceChanged(wallet: Wallet, e: Entry): Result<Event> {
    if wallet.id == "" || e.walletId != wallet.id then Err(Domain(InvalidIdentifier))
    else if e.after != wallet.balance then Err(Domain(InconsistentEntry))
    else Sealed(wallet.id, Change(wallet, e))
  }

  /** The events a finished step records, when its parts agree with each other. */
  function EventsForOutcome(t: Transaction, m: Option<Movement>): Result<seq<Event>> {
    match t.status
    case Processed =>
      var processed :- NewProcessed(t);
      if m.None? then Ok([processed])
      else
        var changed :- NewBalanceChanged(m.value.wallet, m.value.entry);
        Ok([processed, changed])
    case Rejected =>
      var rejected :- NewRejected(t);
      Ok([rejected])
    case PendingReference =>
      var waiting :- NewPendingReference(t);
      Ok([waiting])
    case _ => Ok([])
  }
}
