/** What a submission or a worker visit decides, from the rows and the wallet it read. */
module Decisions {
  import opened Base
  import opened Money
  import opened Domain
  import opened Tables
  import opened Steps

  /* ---- waiting ---- */

  /** How long a reversal waits for what it undoes; durations are int64. */
  datatype Policy = Policy(maxAttempts: int, baseBackoff: int64, maxBackoff: int64, ttl: int64)

  predicate Normalised(p: Policy) {
    1 <= p.maxAttempts && 0 < p.baseBackoff <= p.maxBackoff && 0 < p.ttl
  }

  /** In nanoseconds. */
  const SECOND: int64 := 1_000_000_000

  const DEFAULT_POLICY := Policy(8, SECOND, 30 * SECOND, 120 * SECOND)

  /** Whatever is configured, the policy in force is normalised; a normalised one is left alone. */
  function Normalise(p: Policy): (r: Policy)
    ensures Normalised(r)
    ensures Normalised(p) <==> r == p
  {
    var base := if p.baseBackoff <= 0 then DEFAULT_POLICY.baseBackoff else p.baseBackoff;
    Policy(
      if p.maxAttempts < 1 then DEFAULT_POLICY.maxAttempts else p.maxAttempts,
      base,
      if p.maxBackoff >= base then p.maxBackoff
      else if DEFAULT_POLICY.maxBackoff < base then base else DEFAULT_POLICY.maxBackoff,
      if p.ttl <= 0 then DEFAULT_POLICY.ttl else p.ttl)
  }

  /** Every setting that makes no sense is replaced by its own default: 8 attempts, 1 s, 30 s or the base, 120 s. */
  lemma NormalisedSettingBySetting(p: Policy)
    ensures var r := Normalise(p);
            && r.maxAttempts == (if p.maxAttempts < 1 then 8 else p.maxAttempts)
            && r.baseBackoff == (if p.baseBackoff <= 0 then 1_000_000_000 else p.baseBackoff)
            && (if r.baseBackoff <= p.maxBackoff then r.maxBackoff == p.maxBackoff
                else r.maxBackoff == if r.baseBackoff <= 30_000_000_000 then 30_000_000_000 else r.baseBackoff)
            && r.ttl == (if p.ttl <= 0 then 120_000_000_000 else p.ttl)
  {
  }

  function Doubled(n: nat): (r: nat)
    ensures r >= 1
  {
    if n == 0 then 1 else 2 * Doubled(n - 1)
  }

  /** base << min(attempt-1, 16) in wrapping int64, capped. */
  function Window(p: Policy, attempt: int): int
    requires 1 <= attempt
  {
    var window := Wrap64(p.baseBackoff * Doubled(if attempt - 1 < 16 then attempt - 1 else 16));
    if window > p.maxBackoff || window <= 0 then p.maxBackoff else window
  }

  /** Half the window, and a jitter of at most the other half. */
  function NextAttemptAt(p: Policy, now: Instant, attempt: int, jitter: nat): (at: Instant)
    requires Normalised(p) && 1 <= attempt
    ensures now + Window(p, attempt) / 2 <= at <= now + p.maxBackoff
    ensures Window(p, attempt) >= 2 ==> now < at
  {
    var half := Window(p, attempt) / 2;
    now + half + jitter % (half + 1)
  }

  /** Every wait from half the window to twice that half is drawn for some jitter. */
  lemma EveryWaitIsDrawn(p: Policy, now: Instant, attempt: int, wait: nat)
    requires Normalised(p) && 1 <= attempt && Window(p, attempt) / 2 <= wait <= 2 * (Window(p, attempt) / 2)
    ensures NextAttemptAt(p, now, attempt, wait - Window(p, attempt) / 2) == now + wait
  {
    hide Window;
    var half := Window(p, attempt) / 2;
    SmallIsItsRemainder(wait - half, half + 1);
  }

  lemma SmallIsItsRemainder(x: nat, m: nat)
    requires x < m
    ensures x % m == x
  {
  }

  /** base << n, before it is cut to 64 bits. */
  function Shifted(base: int, n: nat): int { base * Doubled(n) }

  lemma ShiftedStep(base: int, n: nat)
    ensures Shifted(base, 0) == base && Shifted(base, n + 1) == 2 * Shifted(base, n)
  {
    var d := Doubled(n);
    assert base * (2 * d) == 2 * (base * d);
  }

  lemma {:induction false} ShiftedBounds(base: int, n: nat, m: nat)
    requires 0 < base && n <= m
    ensures base <= Shifted(base, n) <= Shifted(base, m)
  {
    hide Shifted;
    ShiftedStep(base, n);
    if n < m {
      ShiftedBounds(base, n, m - 1);
      ShiftedStep(base, m - 1);
    } else if n > 0 {
      ShiftedBounds(base, n - 1, n - 1);
      ShiftedStep(base, n - 1);
    }
  }

  function Shift(attempt: int): nat
    requires 1 <= attempt
  {
    if attempt - 1 < 16 then attempt - 1 else 16
  }

  lemma WindowIs(p: Policy, attempt: int)
    requires Normalised(p) && 1 <= attempt && 0 < Shifted(p.baseBackoff, Shift(attempt)) <= MAX_INT64
    ensures var x := Shifted(p.baseBackoff, Shift(attempt));
            Window(p, attempt) == if x > p.maxBackoff then p.maxBackoff else x
  {
  }

  /** While the largest shift fits 64 bits, the window doubles with each attempt until it is capped. */
  lemma WindowDoublesUntilCapped(p: Policy, attempt: int)
    requires Normalised(p) && 1 <= attempt && Shifted(p.baseBackoff, 16) <= MAX_INT64
    ensures Window(p, 1) == p.baseBackoff
    ensures Window(p, attempt) <= Window(p, attempt + 1)
    ensures attempt <= 16 && 2 * Window(p, attempt) <= p.maxBackoff ==> Window(p, attempt + 1) == 2 * Window(p, attempt)
  {
    hide Shifted, Window;
    var k, k' := Shift(attempt), Shift(attempt + 1);
    ShiftedBounds(p.baseBackoff, k, k');
    ShiftedBounds(p.baseBackoff, k', 16);
    ShiftedBounds(p.baseBackoff, 0, 16);
    WindowIs(p, 1);
    WindowIs(p, attempt);
    WindowIs(p, attempt + 1);
    ShiftedStep(p.baseBackoff, k);
  }

  /** Doubling keeps a window even, also when it wraps. */
  lemma DoubledWindowIsEven(base: int64, attempt: int)
    requires 2 <= attempt
    ensures Wrap64(base * Doubled(if attempt - 1 < 16 then attempt - 1 else 16)) % 2 == 0
  {
    var k := if attempt - 1 < 16 then attempt - 1 else 16;
    var d := Doubled(k - 1);
    assert base * (2 * d) == 2 * (base * d);
    EvenWraps(base * d);
  }

  lemma EvenWraps(y: int)
    ensures Wrap64(2 * y) % 2 == 0
  {
    if !InInt64(2 * y) {
      var q := (2 * y + TWO_TO_63) / TWO_TO_64;
      assert Wrap64(2 * y) == 2 * y - q * TWO_TO_64;
    }
  }

  /** Waits are strictly positive exactly when the base backoff is at least two units. */
  lemma WaitsArePositive(p: Policy)
    requires Normalised(p)
    ensures (forall now, attempt: int, jitter: nat :: 1 <= attempt ==> now < NextAttemptAt(p, now, attempt, jitter))
            <==> 2 <= p.baseBackoff
  {
    if 2 <= p.baseBackoff {
      forall now: Instant, attempt: int, jitter: nat | 1 <= attempt
        ensures now < NextAttemptAt(p, now, attempt, jitter)
      {
        if attempt == 1 {
          assert p.baseBackoff * Doubled(0) == p.baseBackoff;
        } else {
          DoubledWindowIsEven(p.baseBackoff, attempt);
        }
      }
    } else {
      assert Window(p, 1) == 1;
      assert !(0 < NextAttemptAt(p, 0, 1, 0));
    }
  }

  /* ---- resolving a reference ---- */

  datatype Verdict =
    | Wait
    | Apply(reference: Transaction, direction: Direction)
    | Refuse(code: Code)

  /** The first field a reversal and its reference do not share makes them disagree. */
  predicate Disagree(reversal: Transaction, reference: Transaction) {
    || reversal.playerId != reference.playerId
    || reversal.walletId != reference.walletId
    || reversal.money.currency != reference.money.currency
    || reversal.roundId != reference.roundId
  }

  /** What the reference row alone says, before asking whether it was already reversed. */
  function Judge(reversal: Transaction, found: Option<Transaction>): Verdict {
    match found
    case None => Wait
    case Some(reference) =>
      match reference.status
      case Pending | PendingReference => Wait
      case Rejected | Failed => Refuse(ReferenceNotReversible)
      case Processed =>
        if !reversal.kind.CanReverse(reference.kind) then Refuse(ReferenceNotReversible)
        else if Disagree(reversal, reference) then Refuse(ReferenceMismatch)
        else if reversal.money != reference.money then Refuse(ReferenceAmountMismatch)
        else Apply(reference, ReversalDirection(reference.kind).Extract())
  }

  ghost function Resolve(rows: Rows, reversal: Transaction): Verdict {
    var v := Judge(reversal, FindByBusinessId(rows, reversal.providerId, reversal.referenceExternalId));
    if v.Apply? && !Unreversed(rows, v.reference.id) then Refuse(AlreadyReversed) else v
  }

  /* ---- settling ---- */

  function Finish(t: Transaction, known: bool, from: Wallet, m: Option<Movement>): Effect {
    Effect(t, known, from, m, EventsOf(t, known, m))
  }

  function RejectWith(row: Transaction, known: bool, from: Wallet, code: Code, at: Instant): Result<Effect> {
    var rejected :- row.Reject(code, at);
    Ok(Finish(rejected, known, from, None))
  }

  /** Moves back what the reference moved; a debit that does not fit has its own code. */
  function Undo(row: Transaction, from: Wallet, v: Verdict, entryId: string, at: Instant)
    : Result<(Transaction, Movement)>
    requires v.Apply?
  {
    match Move(from, v.direction, entryId, row.id, row.money, at)
    case Err(e) =>
      Err(if v.direction.Debit? && e == Domain(InsufficientFunds) then Domain(ReversalExceedsBalance) else e)
    case Ok(m) =>
      var resolved :- row.ResolveReference(v.reference.id, at);
      var applied :- resolved.MarkProcessed(m.wallet.balance, at);
      Ok((applied, m))
  }

  function SettleReversal(row: Transaction, known: bool, from: Wallet, v: Verdict, waiting: Result<Effect>,
                          entryId: string, at: Instant): Result<Effect>
  {
    match v
    case Wait => waiting
    case Refuse(code) => RejectWith(row, known, from, code, at)
    case Apply(_, _) =>
      match Undo(row, from, v, entryId, at)
      case Ok((applied, m)) => Ok(Finish(applied, known, from, Some(m)))
      case Err(e) => if e.Domain? then RejectWith(row, known, from, e.code, at) else Err(e)
  }

  function Park(policy: Policy, row: Transaction, from: Wallet, at: Instant, jitter: nat): Result<Effect>
    requires Normalised(policy)
  {
    var parked :- row.MarkPendingReference(at, NextAttemptAt(policy, at, 1, jitter), at + policy.ttl);
    Ok(Finish(parked, false, from, None))
  }

  /** A bet or a win on the balance, or a loss that moves nothing. */
  function SettleDirect(row: Transaction, from: Wallet, entryId: string, at: Instant): Result<Effect> {
    if !row.kind.MovesMoney() then
      var applied :- row.MarkProcessed(from.balance, at);
      Ok(Finish(applied, false, from, None))
    else
      match Move(from, if row.kind.Bet? then Debit else Credit, entryId, row.id, row.money, at)
      case Err(e) => if e.Domain? then RejectWith(row, false, from, e.code, at) else Err(e)
      case Ok(m) =>
        var applied :- row.MarkProcessed(m.wallet.balance, at);
        Ok(Finish(applied, false, from, Some(m)))
  }

  function SettleSubmit(policy: Policy, row: Transaction, from: Wallet, v: Verdict, stamp: Stamp, jitter: nat)
    : Result<Effect>
    requires Normalised(policy)
  {
    if row.kind.IsReversal()
    then SettleReversal(row, false, from, v, Park(policy, row, from, stamp.now, jitter), stamp.entryId, stamp.now)
    else SettleDirect(row, from, stamp.entryId, stamp.now)
  }

  /** Still not usable: give up when the wait is over, otherwise come back later. */
  function KeepWaiting(policy: Policy, row: Transaction, from: Wallet, at: Instant, jitter: nat): Result<Effect>
    requires Normalised(policy)
  {
    if row.DeadlinePassed(at) || row.attempts >= policy.maxAttempts
    then RejectWith(row, true, from, ReferenceNotFound, at)
    else
      var later :- row.RescheduleReference(at, NextAttemptAt(policy, at, row.attempts + 1, jitter));
      Ok(Finish(later, true, from, None))
  }

  function SettleVisit(policy: Policy, row: Transaction, from: Wallet, v: Verdict, stamp: Stamp, jitter: nat)
    : Result<Effect>
    requires Normalised(policy)
  {
    SettleReversal(row, true, from, v, KeepWaiting(policy, row, from, stamp.now, jitter), stamp.entryId, stamp.now)
  }

  /* ---- every decision is proper ---- */

  /** A freshly built external operation for an existing wallet and its player. */
  predicate PendingRow(row: Transaction, wallets: map<string, Wallet>) {
    && row.id != "" && row.playerId != "" && row.createdAt != 0 && row.updatedAt != 0 && row.money.IsInitialised()
    && row.walletId in wallets && wallets[row.walletId].playerId == row.playerId
    && row.origin.External? && !row.kind.OpeningCredit? && row.status.Pending?
    && SchemaAccepts(row)
    && row.resolvedReferenceId == "" && row.attempts == 0 && row.nextAttemptAt == 0 && row.deadlineAt == 0
    && row.balanceAfter == UNSET
  }

  /** Every field of a new row is the request's own. */
  predicate Carries(row: Transaction, p: Request) {
    && row.kind == p.kind && row.walletId == p.walletId && row.playerId == p.playerId && row.money == p.money
    && row.providerId == p.providerId && row.externalId == p.externalId && row.idempotencyKey == p.idempotencyKey
    && row.payloadHash == p.payloadHash && row.roundId == p.roundId && row.gameId == p.gameId
    && row.referenceExternalId == p.referenceExternalId
  }

  /**
   * A request becomes an operation iff it is complete: every id set, the amount right for its kind,
   * a reference iff it reverses.
   */
  lemma RequestAccepted(id: string, p: Request, at: Instant)
    ensures NewExternal(id, p, at).Ok?
            <==>
            && id != "" && at != 0 && p.providerId != "" && p.externalId != "" && p.idempotencyKey != ""
            && p.payloadHash != "" && p.walletId != "" && p.playerId != "" && p.roundId != "" && p.gameId != ""
            && p.money.IsInitialised() && !p.kind.OpeningCredit?
            && (if p.kind.Loss? then p.money.minor == 0 else 0 < p.money.minor)
            && (p.kind.IsReversal() <==> p.referenceExternalId != "")
    ensures var r := NewExternal(id, p, at);
            if r.Ok? then r.value.id == id && r.value.status.Pending? && Carries(r.value, p)
                          && r.value.createdAt == r.value.updatedAt == at
            else r.error.Domain?
  {
  }

  lemma NewRowIsPending(id: string, p: Request, at: Instant, wallets: map<string, Wallet>)
    requires NewExternal(id, p, at).Ok? && p.walletId in wallets && wallets[p.walletId].playerId == p.playerId
    ensures PendingRow(NewExternal(id, p, at).value, wallets)
  {
  }

  /** The row a unit of work starts from: a new one, or a parked one exactly as stored. */
  predicate Startable(rows: Rows, wallets: map<string, Wallet>, row: Transaction, known: bool) {
    if known then row.id in rows && rows[row.id] == row && row.status.PendingReference? && RowFits(row, wallets)
    else PendingRow(row, wallets)
  }

  /** A verdict to apply rests on a stored, processed reference. */
  predicate Grounded(rows: Rows, row: Transaction, v: Verdict) {
    v.Apply? ==>
      && v.reference.id in rows && rows[v.reference.id] == v.reference && v.reference.id != ""
      && IsBusiness(v.reference, row.providerId, row.referenceExternalId)
      && v == Judge(row, Some(v.reference))
  }

  lemma ResolveIsGrounded(db: Db, row: Transaction)
    requires TransactionsFit(db)
    ensures Grounded(db.transactions, row, Resolve(db.transactions, row))
  {
  }

  predicate NonZero(v: Verdict) { v.Refuse? ==> v.code != NoCode }

  lemma VerdictHasCode(row: Transaction, found: Option<Transaction>)
    ensures NonZero(Judge(row, found))
  {
  }

  lemma RejectionIsProper(db: Db, row: Transaction, known: bool, from: Wallet, code: Code, at: Instant)
    requires Startable(db.transactions, db.wallets, row, known) && code != NoCode
    ensures RejectWith(row, known, from, code, at).Ok? <==> at != 0
    ensures at != 0 ==> Proper(db, RejectWith(row, known, from, code, at).value)
  {
  }

  lemma ParkIsProper(policy: Policy, db: Db, row: Transaction, from: Wallet, at: Instant, jitter: nat)
    requires Normalised(policy) && PendingRow(row, db.wallets) && row.kind.IsReversal()
    ensures Park(policy, row, from, at, jitter).Ok? ==> Proper(db, Park(policy, row, from, at, jitter).value)
  {
  }

  lemma KeepWaitingIsProper(policy: Policy, db: Db, row: Transaction, from: Wallet, at: Instant, jitter: nat)
    requires Normalised(policy) && Startable(db.transactions, db.wallets, row, true)
    ensures KeepWaiting(policy, row, from, at, jitter).Ok? ==>
              Proper(db, KeepWaiting(policy, row, from, at, jitter).value)
  {
    if row.DeadlinePassed(at) || row.attempts >= policy.maxAttempts {
      RejectionIsProper(db, row, true, from, ReferenceNotFound, at);
    }
  }

  lemma UndoIsProper(db: Db, row: Transaction, known: bool, from: Wallet, v: Verdict, entryId: string, at: Instant)
    requires Startable(db.transactions, db.wallets, row, known) && row.kind.IsReversal()
    requires v.Apply? && Grounded(db.transactions, row, v)
    requires SoundWallet(from) && from.id == row.walletId
    requires Undo(row, from, v, entryId, at).Ok?
    ensures var (t, m) := Undo(row, from, v, entryId, at).value;
            Proper(db, Finish(t, known, from, Some(m)))
  {
    hide SchemaAccepts;
    var (t, m) := Undo(row, from, v, entryId, at).value;
    assert SchemaAccepts(t) by { UndoneRowAccepted(row, from, v, entryId, at); }
    assert Undoes(t, db.transactions[t.resolvedReferenceId]);
    assert DirectionOf(db.transactions, t) == Some(v.direction);
  }

  lemma UndoneRowAccepted(row: Transaction, from: Wallet, v: Verdict, entryId: string, at: Instant)
    requires v.Apply? && Undo(row, from, v, entryId, at).Ok?
    requires SchemaAccepts(row) && !row.status.IsTerminal()
    ensures SchemaAccepts(Undo(row, from, v, entryId, at).value.0)
  {
  }

  lemma DirectIsProper(db: Db, row: Transaction, from: Wallet, entryId: string, at: Instant)
    requires PendingRow(row, db.wallets) && !row.kind.IsReversal()
    requires SoundWallet(from) && from.id == row.walletId
    requires SettleDirect(row, from, entryId, at).Ok?
    ensures Proper(db, SettleDirect(row, from, entryId, at).value)
  {
    if row.kind.MovesMoney() {
      match Move(from, if row.kind.Bet? then Debit else Credit, entryId, row.id, row.money, at)
      case Err(e) => RejectionIsProper(db, row, false, from, e.code, at);
      case Ok(m) =>
    }
  }

  /** Whatever a submission or a visit decides, it is proper for the rows it read. */
  lemma ReversalIsProper(db: Db, row: Transaction, known: bool, from: Wallet, v: Verdict, waiting: Result<Effect>,
                         entryId: string, at: Instant)
    requires Startable(db.transactions, db.wallets, row, known) && row.kind.IsReversal()
    requires Grounded(db.transactions, row, v) && NonZero(v)
    requires SoundWallet(from) && from.id == row.walletId
    requires waiting.Ok? ==> Proper(db, waiting.value) && waiting.value.move.None?
    ensures var r := SettleReversal(row, known, from, v, waiting, entryId, at);
            r.Ok? ==> Proper(db, r.value)
  {
    hide Startable, Proper;
    match v
    case Wait =>
    case Refuse(code) => RejectionIsProper(db, row, known, from, code, at);
    case Apply(_, _) =>
      var undone := Undo(row, from, v, entryId, at);
      if undone.Ok? {
        UndoIsProper(db, row, known, from, v, entryId, at);
      } else {
        UndoFailsByRule(row, from, v, entryId, at);
        RejectionIsProper(db, row, known, from, undone.error.code, at);
      }
  }

  lemma UndoFailsByRule(row: Transaction, from: Wallet, v: Verdict, entryId: string, at: Instant)
    requires v.Apply?
    ensures var u := Undo(row, from, v, entryId, at);
            u.Err? ==> u.error.Domain? && u.error.code != NoCode
  {
  }

  lemma SubmitIsProper(policy: Policy, db: Db, row: Transaction, from: Wallet, v: Verdict, stamp: Stamp, jitter: nat)
    requires Normalised(policy) && PendingRow(row, db.wallets)
    requires Grounded(db.transactions, row, v) && NonZero(v)
    requires SoundWallet(from) && from.id == row.walletId
    ensures var r := SettleSubmit(policy, row, from, v, stamp, jitter);
            r.Ok? ==> Proper(db, r.value)
  {
    hide Proper, PendingRow;
    if row.kind.IsReversal() {
      if Park(policy, row, from, stamp.now, jitter).Ok? { ParkIsProper(policy, db, row, from, stamp.now, jitter); }
      assert Startable(db.transactions, db.wallets, row, false);
      ReversalIsProper(db, row, false, from, v, Park(policy, row, from, stamp.now, jitter), stamp.entryId, stamp.now);
    } else {
      var r := SettleDirect(row, from, stamp.entryId, stamp.now);
      if r.Ok? { DirectIsProper(db, row, from, stamp.entryId, stamp.now); }
    }
  }

  lemma VisitIsProper(policy: Policy, db: Db, row: Transaction, from: Wallet, v: Verdict, stamp: Stamp, jitter: nat)
    requires Normalised(policy) && Startable(db.transactions, db.wallets, row, true)
    requires Grounded(db.transactions, row, v) && NonZero(v)
    requires SoundWallet(from) && from.id == row.walletId
    ensures var r := SettleVisit(policy, row, from, v, stamp, jitter);
            r.Ok? ==> Proper(db, r.value)
  {
    hide Proper;
    KeepWaitingIsProper(policy, db, row, from, stamp.now, jitter);
    assert row.kind.IsReversal();
    ReversalIsProper(db, row, true, from, v, KeepWaiting(policy, row, from, stamp.now, jitter), stamp.entryId,
                     stamp.now);
  }

  /* ---- what is recorded ---- */

  /** A reversal always ends in a recorded outcome: it parks, it is refused, or it applies. */
  lemma ReversalIsRecorded(policy: Policy, row: Transaction, from: Wallet, v: Verdict, stamp: Stamp, jitter: nat)
    requires Normalised(policy) && 0 < stamp.now && NonZero(v)
    requires row.kind.IsReversal() && row.id != "" && row.status.Pending?
    ensures SettleSubmit(policy, row, from, v, stamp, jitter).Ok?
  {
    hide EventsOf, Undo, Window;
    if v.Apply? { UndoFailsByRule(row, from, v, stamp.entryId, stamp.now); }
    WindowIsPositive(policy, 1);
  }

  lemma WindowIsPositive(policy: Policy, attempt: int)
    requires Normalised(policy) && 1 <= attempt
    ensures 0 < Window(policy, attempt) <= policy.maxBackoff
  {
  }

  /** Every refusal of a well-formed operation is recorded, except that of a loss in another currency. */
  lemma OnlyStrayLossIsUnrecorded(policy: Policy, row: Transaction, from: Wallet, v: Verdict, stamp: Stamp, jitter: nat)
    requires Normalised(policy) && 0 < stamp.now && NonZero(v) && SoundWallet(from)
    requires row.id != "" && row.status.Pending? && row.money.IsInitialised()
    ensures SettleSubmit(policy, row, from, v, stamp, jitter).Err?
            <==> row.kind.Loss? && row.money.currency != from.balance.currency
  {
    hide EventsOf, SettleReversal, Park;
    if row.kind.IsReversal() {
      ReversalIsRecorded(policy, row, from, v, stamp, jitter);
    }
  }
}
