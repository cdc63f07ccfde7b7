/**
 * Many units of work at once, one statement at a time: every read sees what is
 * committed at that moment, every write waits for whoever holds the row or the key.
 */
module Interleaving {
  import opened Base
  import opened Money
  import opened Domain
  import opened Commands
  import opened Tables
  import opened Steps
  import opened Decisions
  import opened Serial
  import opened Openings
  import opened Queue
  import opened Runs

  datatype Job = SubmitJob(request: Request) | VisitJob(claimed: Transaction)

  /** Why a delivery has nothing to write: its operation is stored already, or a domain rule refused it. */
  datatype Because = AlreadyStored(row: Transaction) | RefusedFor(error: Error)

  /**
   * How far a unit of work has come. A delivery is Arriving until it has claimed its
   * message, and Absorbed when nothing but its inbox record remains to be written. In
   * Writing, `done` counts the writes: the row, the balance, the entry, the events; one
   * that moves no money skips from 0 to 3.
   */
  datatype Phase =
    | Arriving
    | Absorbed(because: Because)
    | Begun
    | Ready(row: Transaction)
    | Holding(row: Transaction, from: Wallet)
    | Judged(row: Transaction, from: Wallet, v: Verdict)
    | Writing(row: Transaction, from: Wallet, v: Verdict, eff: Effect, done: nat)

  /** A unit of work; a delivery names the message it handles. */
  datatype Txn = Txn(job: Job, message: Option<(string, string)>, stamp: Stamp, jitter: nat, phase: Phase)

  /* ---- one statement ---- */

  datatype Progress = End | Go(next: Txn) | CommitNow

  function Decide(policy: Policy, t: Txn, row: Transaction, from: Wallet, v: Verdict): Result<Effect>
    requires Normalised(policy)
  {
    match t.job
    case SubmitJob(_) => SettleSubmit(policy, row, from, v, t.stamp, t.jitter)
    case VisitJob(_) => SettleVisit(policy, row, from, v, t.stamp, t.jitter)
  }

  /** A domain refusal ends a submission, but a delivery records it as handled. */
  function Failing(t: Txn, e: Error): Progress {
    if t.message.Some? && e.Domain? then Go(t.(phase := Absorbed(RefusedFor(e)))) else End
  }

  function Settling(policy: Policy, t: Txn, row: Transaction, from: Wallet, v: Verdict): Progress
    requires Normalised(policy)
  {
    match Decide(policy, t, row, from, v)
    case Err(e) => Failing(t, e)
    case Ok(eff) => Go(t.(phase := Writing(row, from, v, eff, 0)))
  }

  /** The insert that unique keys admit, or the update that the terminal guard admits. */
  ghost predicate RowWritable(rows: Rows, eff: Effect) {
    if eff.known then eff.row.id in rows && !rows[eff.row.id].status.IsTerminal() else FreshIdentity(rows, eff.row)
  }

  ghost function Write(db: Db, t: Txn): Progress
    requires t.phase.Writing?
  {
    var eff, done := t.phase.eff, t.phase.done;
    if done == 0 then
      if !RowWritable(db.transactions, eff) then End
      else Go(t.(phase := t.phase.(done := if eff.move.Some? then 1 else 3)))
    else if done == 1 then
      if eff.row.walletId !in db.wallets || db.wallets[eff.row.walletId].version != eff.from.version
         || eff.from.version == MAX_INT64
      then End
      else Go(t.(phase := t.phase.(done := 2)))
    else if done == 2 then
      if eff.move.Some? && !FreshEntry(db.ledger, eff.move.value.entry.id) then End
      else Go(t.(phase := t.phase.(done := 3)))
    else if done == 3 then
      if !FreshEvents(db.outbox, eff.events, t.stamp) then End else Go(t.(phase := t.phase.(done := 4)))
    else CommitNow
  }

  /** What the next statement does when nothing makes it wait. */
  ghost function Statement(policy: Policy, db: Db, t: Txn): Progress
    requires Normalised(policy)
  {
    match t.phase
    case Arriving =>
      if t.message.None? || t.message.value in db.inbox then End else Go(t.(phase := Begun))
    case Absorbed(_) => CommitNow
    case Begun =>
      if t.job.VisitJob? then End
      else
        (match FindByBusinessId(db.transactions, t.job.request.providerId, t.job.request.externalId)
         case Some(stored) =>
           if t.message.Some? && Replay(stored, t.job.request).Replayed?
           then Go(t.(phase := Absorbed(AlreadyStored(stored))))
           else End
         case None =>
           match NewExternal(t.stamp.transactionId, t.job.request, t.stamp.now)
           case Err(e) => Failing(t, e)
           case Ok(row) => Go(t.(phase := Ready(row))))
    case Ready(row) =>
      if row.walletId !in db.wallets || (t.job.SubmitJob? && db.wallets[row.walletId].playerId != row.playerId) then End
      else Go(t.(phase := Holding(row, db.wallets[row.walletId])))
    case Holding(row, from) =>
      if row.kind.IsReversal() then
        var found := FindByBusinessId(db.transactions, row.providerId, row.referenceExternalId);
        Go(t.(phase := Judged(row, from, Judge(row, found))))
      else Settling(policy, t, row, from, Wait)
    case Judged(row, from, v) =>
      Settling(policy, t, row, from,
               if v.Apply? && !Unreversed(db.transactions, v.reference.id) then Refuse(AlreadyReversed) else v)
    case Writing(_, _, _, _, _) => Write(db, t)
  }

  /** What a unit of work leaves committed: its effect, if it came to one, and its message as handled. */
  ghost function Outcome(db: Db, t: Txn): Db
    requires t.phase.Writing? ==> |t.phase.eff.events| <= 2
  {
    var after := if t.phase.Writing? then Commit(db, t.phase.eff, t.stamp) else db;
    if t.message.Some? && t.job.SubmitJob? then Mark(after, t.message.value, t.job.request.payloadHash, t.stamp.now)
    else after
  }

  /* ---- what live units of work hold against each other ---- */

  predicate Claimed(t: Txn) { t.message.Some? && !t.phase.Arriving? }

  predicate Inserted(t: Txn) { t.phase.Writing? && t.phase.done >= 1 && !t.phase.eff.known }
  predicate Updated(t: Txn) { t.phase.Writing? && t.phase.done >= 2 && t.phase.eff.move.Some? }
  predicate Appended(t: Txn) { t.phase.Writing? && t.phase.done >= 3 && t.phase.eff.move.Some? }
  predicate Logged(t: Txn) { t.phase.Writing? && t.phase.done >= 4 }

  /** The wallet row a unit of work has locked: by reading it for update, or by writing it. */
  function Held(locking: bool, t: Txn): Option<string> {
    if (t.phase.Holding? || t.phase.Judged? || t.phase.Writing?) && (locking || Updated(t))
    then Some(t.phase.row.walletId)
    else None
  }

  predicate KeysClash(a: Transaction, b: Transaction) {
    a.id == b.id || SameBusiness(a, b) || SameBusiness(b, a) || SameKey(a, b)
  }

  function EventKeys(t: Txn): set<string>
    requires t.phase.Writing?
  {
    if |t.phase.eff.events| == 0 then {}
    else if |t.phase.eff.events| == 1 then {t.stamp.firstEvent}
    else {t.stamp.firstEvent, t.stamp.secondEvent}
  }

  /** Neither holds a row or an uncommitted key that the other has too. */
  predicate Compatible(locking: bool, a: Txn, b: Txn) {
    && (Held(locking, a).Some? ==> Held(locking, a) != Held(locking, b))
    && (a.job.VisitJob? && b.job.VisitJob? ==> a.job.claimed.id != b.job.claimed.id)
    && (Inserted(a) && Inserted(b) ==> !KeysClash(a.phase.eff.row, b.phase.eff.row))
    && (Appended(a) && Appended(b) ==> a.phase.eff.move.value.entry.id != b.phase.eff.move.value.entry.id)
    && (Logged(a) && Logged(b) ==> EventKeys(a) !! EventKeys(b))
    && (Claimed(a) && Claimed(b) ==> a.message != b.message)
  }

  predicate OpeningClear(o: Opened, stamp: Stamp, t: Txn) {
    o.credit.Some? ==>
      && (Inserted(t) ==> t.phase.eff.row.id != o.credit.value.0.id)
      && (Appended(t) ==> t.phase.eff.move.value.entry.id != o.credit.value.1.id)
      && (Logged(t) ==> stamp.firstEvent !in EventKeys(t) && stamp.secondEvent !in EventKeys(t))
  }

  /* ---- the system ---- */

  datatype System = System(db: Db, live: map<string, Txn>)

  datatype Turn =
    | BeginSubmit(tid: string, request: Request, stamp: Stamp, jitter: nat)
    | BeginDelivery(tid: string, message: (string, string), request: Request, stamp: Stamp, jitter: nat)
    | BeginVisit(tid: string, id: string, stamp: Stamp, jitter: nat)
    | Advance(tid: string)
    | Crash(tid: string)
    | OpenNow(playerId: string, initial: Money, walletId: string, stamp: Stamp)
    | PublishNow(outbox: seq<OutboxRow>)
    | AbsorbNow(message: (string, string), command: SubmitCommand, now: Instant)

  /** Whoever is in the way has to finish first. */
  predicate Unblocked(locking: bool, s: System, tid: string, t: Txn) {
    forall o :: o in s.live && o != tid ==> Compatible(locking, t, s.live[o]) && Compatible(locking, s.live[o], t)
  }

  function Enter(locking: bool, s: System, tid: string, t: Txn): System {
    if Unblocked(locking, s, tid, t) then s.(live := s.live[tid := t]) else s
  }

  ghost function Step(policy: Policy, locking: bool, s: System, e: Turn): System
    requires Normalised(policy)
  {
    match e
    case BeginSubmit(tid, request, stamp, jitter) =>
      if tid in s.live then s else Enter(locking, s, tid, Txn(SubmitJob(request), None, stamp, jitter, Begun))
    case BeginDelivery(tid, message, request, stamp, jitter) =>
      if tid in s.live || stamp.now <= 0 then s
      else Enter(locking, s, tid, Txn(SubmitJob(request), Some(message), stamp, jitter, Arriving))
    case BeginVisit(tid, id, stamp, jitter) =>
      if tid in s.live || !Due(s.db, id, stamp.now) then s
      else Enter(locking, s, tid,
                 Txn(VisitJob(s.db.transactions[id]), None, stamp, jitter, Ready(s.db.transactions[id])))
    case Advance(tid) =>
      if tid !in s.live then s
      else
        var t := s.live[tid];
        (match Statement(policy, s.db, t)
         case End => s.(live := s.live - {tid})
         case Go(next) => Enter(locking, s, tid, next)
         case CommitNow =>
           if t.phase.Writing? && |t.phase.eff.events| > 2 then s else System(Outcome(s.db, t), s.live - {tid}))
    case Crash(tid) => s.(live := s.live - {tid})
    case OpenNow(playerId, initial, walletId, stamp) =>
      var o := Open(playerId, initial, walletId, stamp);
      if o.Ok? && OpeningAdmitted(s.db, o.value, stamp)
         && (forall t :: t in s.live ==> OpeningClear(o.value, stamp, s.live[t]))
      then s.(db := CommitOpening(s.db, o.value, stamp))
      else s
    case PublishNow(outbox) => if Republished(s.db.outbox, outbox) then s.(db := s.db.(outbox := outbox)) else s
    case AbsorbNow(message, command, now) =>
      if Parse(command).Ok? || now == 0 || message in s.db.inbox
         || (exists t :: t in s.live && Claimed(s.live[t]) && s.live[t].message == Some(message))
      then s
      else s.(db := Mark(s.db, message, PayloadHash(command), now))
  }

  ghost function History(policy: Policy, locking: bool, s: System, es: seq<Turn>): System
    requires Normalised(policy)
    decreases |es|
  {
    if es == [] then s else History(policy, locking, Step(policy, locking, s, es[0]), es[1..])
  }

  lemma {:induction false} HistoryConcat(policy: Policy, locking: bool, s: System, a: seq<Turn>, b: seq<Turn>)
    requires Normalised(policy)
    ensures History(policy, locking, s, a + b) == History(policy, locking, History(policy, locking, s, a), b)
    decreases |a|
  {
    hide Step;
    if a == [] {
      assert a + b == b;
    } else {
      assert (a + b)[0] == a[0] && (a + b)[1..] == a[1..] + b;
      HistoryConcat(policy, locking, Step(policy, locking, s, a[0]), a[1..], b);
    }
  }

  /* ---- what stays true of a live unit of work ---- */

  /** The row is the one the job is about; a claimed row is still as it was claimed. */
  predicate Starts(t: Txn, row: Transaction) {
    match t.job
    case SubmitJob(p) => NewExternal(t.stamp.transactionId, p, t.stamp.now) == Ok(row)
    case VisitJob(claimed) => row == claimed
  }

  predicate ClaimStands(db: Db, t: Txn) {
    t.job.VisitJob? ==>
      && t.job.claimed.id in db.transactions && db.transactions[t.job.claimed.id] == t.job.claimed
      && t.job.claimed.status.PendingReference? && t.job.claimed.nextAttemptAt <= t.stamp.now
  }

  /** A claimed message has been handled by nobody else. */
  predicate MessageStands(db: Db, t: Txn) {
    t.message.Some? ==> t.job.SubmitJob? && 0 < t.stamp.now && (Claimed(t) ==> t.message.value !in db.inbox)
  }

  /** A loss in another currency than its wallet's: the one refusal of a well-formed operation that leaves no record. */
  predicate StrayLoss(db: Db, p: Request, e: Error) {
    && p.kind.Loss? && e == Domain(CurrencyMismatch)
    && p.walletId in db.wallets && db.wallets[p.walletId].playerId == p.playerId
    && db.wallets[p.walletId].balance.currency != p.money.currency
  }

  /** A refusal that no later commit can lift. */
  predicate LastingRefusal(db: Db, t: Txn, e: Error) {
    t.job.SubmitJob? && e.Domain? &&
    var row := NewExternal(t.stamp.transactionId, t.job.request, t.stamp.now);
    row == Err(e) || (row.Ok? && StrayLoss(db, t.job.request, e))
  }

  /** Why the delivery was absorbed is still true. */
  predicate StillAbsorbed(db: Db, t: Txn, because: Because) {
    match because
    case AlreadyStored(row) =>
      && t.job.SubmitJob? && row.id in db.transactions && db.transactions[row.id].Identity() == row.Identity()
      && IsBusiness(row, t.job.request.providerId, t.job.request.externalId) && Replay(row, t.job.request).Replayed?
    case RefusedFor(e) => LastingRefusal(db, t, e)
  }

  /** The wallet was read from some committed state; it may have moved on since. */
  predicate WalletRead(db: Db, row: Transaction, from: Wallet) {
    && row.walletId in db.wallets && from.id == row.walletId && SoundWallet(from)
    && WalletAdvances(from, db.wallets[row.walletId]) && db.wallets[row.walletId].playerId == row.playerId
  }

  /** While the wallet has not moved, nobody has undone what this undoes. */
  ghost predicate StillUndone(db: Db, eff: Effect) {
    eff.move.Some? && eff.row.kind.IsReversal()
    && eff.row.walletId in db.wallets && db.wallets[eff.row.walletId] == eff.from ==>
      Unreversed(db.transactions, eff.row.resolvedReferenceId)
  }

  ghost predicate Written(db: Db, eff: Effect, stamp: Stamp, done: nat) {
    && (done >= 1 && !eff.known ==> FreshIdentity(db.transactions, eff.row))
    && (done >= 2 && eff.move.Some? ==>
          && eff.row.walletId in db.wallets && db.wallets[eff.row.walletId] == eff.from && eff.from.version < MAX_INT64)
    && (done >= 3 && eff.move.Some? ==> FreshEntry(db.ledger, eff.move.value.entry.id))
    && (done >= 4 ==> FreshEvents(db.outbox, eff.events, stamp))
  }

  ghost predicate LiveOk(policy: Policy, db: Db, t: Txn)
    requires Normalised(policy)
  {
    && ClaimStands(db, t) && MessageStands(db, t)
    && match t.phase
       case Arriving => t.message.Some?
       case Absorbed(because) => t.message.Some? && StillAbsorbed(db, t, because)
       case Begun => t.job.SubmitJob?
       case Ready(row) => Starts(t, row)
       case Holding(row, from) => Starts(t, row) && WalletRead(db, row, from)
       case Judged(row, from, v) =>
         Starts(t, row) && WalletRead(db, row, from) && Grounded(db.transactions, row, v) && NonZero(v)
         && row.kind.IsReversal()
       case Writing(row, from, v, eff, done) =>
         && Starts(t, row) && WalletRead(db, row, from) && Grounded(db.transactions, row, v) && NonZero(v)
         && Decide(policy, t, row, from, v) == Ok(eff)
         && StillUndone(db, eff) && Written(db, eff, t.stamp, done)
  }

  ghost predicate AllCompatible(locking: bool, live: map<string, Txn>) {
    forall a, b :: a in live && b in live && a != b ==> Compatible(locking, live[a], live[b])
  }

  ghost predicate SystemOk(policy: Policy, locking: bool, s: System)
    requires Normalised(policy)
  {
    && Inv(s.db)
    && (forall tid :: tid in s.live ==> LiveOk(policy, s.db, s.live[tid]))
    && AllCompatible(locking, s.live)
  }
}
