/**
 * With the wallet lock every interleaving is a run of the one-at-a-time model: each
 * commit is the step that model would take from the state committed at that moment,
 * but for two cases with exact conditions: a reversal that saw no usable reference
 * when one has since ended on another wallet, and a refused delivery whose business
 * pair has since been stored with other content.
 */
module Refinement {
  import opened Base
  import opened Money
  import opened Domain
  import opened Commands
  import opened Tables
  import opened Steps
  import opened Decisions
  import opened Serial
  import opened Openings
  import opened Queue
  import opened Runs
  import opened Interleaving
  import opened Guards
  import opened Locking
  import opened ExactlyOnce

  /* ---- reversals that were not aware ---- */

  /** The reference a reversal names has ended on another wallet. */
  ghost predicate Missed(db: Db, row: Transaction) {
    var found := FindByBusinessId(db.transactions, row.providerId, row.referenceExternalId);
    found.Some? && found.value.walletId != row.walletId && found.value.status.IsTerminal()
  }

  /** What looking again would have said: never to apply, never to wait, never "not found". */
  lemma MissedIsRefused(db: Db, row: Transaction)
    requires Missed(db, row)
    ensures var found := FindByBusinessId(db.transactions, row.providerId, row.referenceExternalId).value;
            Resolve(db.transactions, row)
            == Refuse(if found.status.Processed? && row.kind.CanReverse(found.kind) then ReferenceMismatch
                      else ReferenceNotReversible)
  {
    hide FindByBusinessId, Unreversed;
  }

  /**
   * A reversal acts unaware iff it decided to wait and its reference has ended by the
   * time it commits; and then the reference is on another wallet.
   */
  lemma UnawareExactly(db: Db, row: Transaction, v: Verdict)
    requires ResolvedRight(db, row, v)
    ensures var found := FindByBusinessId(db.transactions, row.providerId, row.referenceExternalId);
            && (v != Resolve(db.transactions, row) <==> v.Wait? && found.Some? && found.value.status.IsTerminal())
            && (v != Resolve(db.transactions, row) ==> Missed(db, row))
  {
    hide FindByBusinessId, Unreversed;
  }

  /** A reversal that goes on waiting, its reference having ended on another wallet. */
  ghost function Unaware(policy: Policy, db: Db, t: Txn, row: Transaction): Answer
    requires Normalised(policy)
  {
    if row.walletId in db.wallets && row.kind.IsReversal() && Missed(db, row)
    then Guarded(db, Decide(policy, t, row, db.wallets[row.walletId], Wait), t.stamp)
    else Refused(NotFound)
  }

  /**
   * Acting unaware only delays: no money moves, a submission parks, a visit waits on or
   * gives up as not found. Being aware would have rejected the reversal at once, under
   * another code, so the two rows always differ.
   */
  lemma UnawareOnlyDelays(policy: Policy, db: Db, t: Txn, row: Transaction, from: Wallet)
    requires Normalised(policy) && Missed(db, row) && row.kind.IsReversal() && 0 < t.stamp.now && row.id != ""
    requires if t.job.VisitJob? then row.status.PendingReference? else row.status.Pending?
    ensures var unaware := Decide(policy, t, row, from, Wait);
            var aware := Decide(policy, t, row, from, Resolve(db.transactions, row));
            && unaware.Ok? && unaware.value.move.None?
            && (t.job.SubmitJob? ==> unaware.value.row.status.PendingReference?)
            && (t.job.VisitJob? ==>
                  if row.DeadlinePassed(t.stamp.now) || row.attempts >= policy.maxAttempts
                  then unaware.value.row.status.Rejected? && unaware.value.row.failureCode == ReferenceNotFound
                  else unaware.value.row.status.PendingReference? && unaware.value.row.attempts == row.attempts + 1)
            && aware.Ok? && aware.value.move.None? && aware.value.row.status.Rejected?
            && aware.value.row.failureCode != ReferenceNotFound
            && aware.value.row != unaware.value.row
  {
    hide Missed, Resolve, EventsOf, Window;
    MissedIsRefused(db, row);
    WindowIsPositive(policy, if t.job.VisitJob? then row.attempts + 1 else 1);
  }

  /* ---- deliveries that were overtaken ---- */

  /** The request's pair is stored already, with other content or under another key. */
  ghost predicate Conflicting(db: Db, p: Request) {
    var found := FindByBusinessId(db.transactions, p.providerId, p.externalId);
    found.Some? && Serial.Replay(found.value, p).Refused?
  }

  /** No submission of this request can be served, now or later. */
  predicate Unservable(db: Db, p: Request, stamp: Stamp) {
    var row := NewExternal(stamp.transactionId, p, stamp.now);
    row.Err? || StrayLoss(db, p, Domain(CurrencyMismatch))
  }

  /** A delivered request: its effect and its record, its record alone after a domain refusal, or nothing. */
  ghost function Received(policy: Policy, db: Db, p: Request, message: (string, string), stamp: Stamp, jitter: nat): Db
    requires Normalised(policy)
  {
    var a := Submit(policy, db, Ok(p), stamp, jitter);
    if message in db.inbox || (a.Refused? && !a.error.Domain?) then db
    else Mark(After(db, a, stamp), message, p.payloadHash, stamp.now)
  }

  /* ---- the one-at-a-time actions ---- */

  /** What a commit can be; a submission may arrive in a message. */
  datatype Legal =
    | Submitted(request: Request, message: Option<(string, string)>, stamp: Stamp, jitter: nat)
    | Visited(id: string, stamp: Stamp, jitter: nat)
    | SubmittedUnaware(request: Request, message: Option<(string, string)>, stamp: Stamp, jitter: nat)
    | VisitedUnaware(id: string, stamp: Stamp, jitter: nat)
    | Overtaken(request: Request, message: Option<(string, string)>, stamp: Stamp, jitter: nat)
    | Unusable(command: SubmitCommand, handled: (string, string), now: Instant)
    | OpenedWallet(playerId: string, initial: Money, walletId: string, stamp: Stamp)
    | Published(outbox: seq<OutboxRow>)

  /** The message, if there is one, is recorded as handled with whatever was done. */
  ghost function Noted(db: Db, message: Option<(string, string)>, hash: string, now: Instant): Db {
    if message.None? then db else Mark(db, message.value, hash, now)
  }

  predicate Unseen(db: Db, message: Option<(string, string)>) {
    message.Some? ==> message.value !in db.inbox
  }

  /** The action on the database; one whose condition does not hold does nothing. */
  ghost function Take(policy: Policy, db: Db, l: Legal): Db
    requires Normalised(policy)
  {
    match l
    case Submitted(p, message, stamp, jitter) =>
      if message.Some? then Received(policy, db, p, message.value, stamp, jitter)
      else After(db, Submit(policy, db, Ok(p), stamp, jitter), stamp)
    case Visited(id, stamp, jitter) =>
      if Due(db, id, stamp.now) then After(db, Visit(policy, db, id, stamp, jitter), stamp) else db
    case SubmittedUnaware(p, message, stamp, jitter) =>
      var row := NewExternal(stamp.transactionId, p, stamp.now);
      if row.Err? || !Unseen(db, message) || FindByBusinessId(db.transactions, p.providerId, p.externalId).Some? then db
      else
        Noted(After(db, Unaware(policy, db, Txn(SubmitJob(p), message, stamp, jitter, Begun), row.value), stamp),
              message, p.payloadHash, stamp.now)
    case VisitedUnaware(id, stamp, jitter) =>
      if !Due(db, id, stamp.now) then db
      else
        var row := db.transactions[id];
        After(db, Unaware(policy, db, Txn(VisitJob(row), None, stamp, jitter, Begun), row), stamp)
    case Overtaken(p, message, stamp, jitter) =>
      if message.None? || !Unseen(db, message) || !Conflicting(db, p) || !Unservable(db, p, stamp) then db
      else Mark(db, message.value, p.payloadHash, stamp.now)
    case Unusable(command, message, now) =>
      if message in db.inbox || Parse(command).Ok? then db else Mark(db, message, PayloadHash(command), now)
    case OpenedWallet(playerId, initial, walletId, stamp) =>
      Next(policy, db, OpenAction(playerId, initial, walletId, stamp))
    case Published(outbox) => Next(policy, db, PublishAction(outbox))
  }

  ghost function TakeAll(policy: Policy, db: Db, ls: seq<Legal>): Db
    requires Normalised(policy)
    decreases |ls|
  {
    if ls == [] then db else TakeAll(policy, Take(policy, db, ls[0]), ls[1..])
  }

  /** The action a unit of work's commit is. */
  ghost function CommittedBy(db: Db, t: Txn): Legal {
    match t.job
    case SubmitJob(p) =>
      if t.phase.Writing? then
        if t.phase.row.kind.IsReversal() && t.phase.v != Resolve(db.transactions, t.phase.row)
        then SubmittedUnaware(p, t.message, t.stamp, t.jitter)
        else Submitted(p, t.message, t.stamp, t.jitter)
      else if Conflicting(db, p) then Overtaken(p, t.message, t.stamp, t.jitter)
      else Submitted(p, t.message, t.stamp, t.jitter)
    case VisitJob(row) =>
      if t.phase.Writing? && t.phase.row.kind.IsReversal() && t.phase.v != Resolve(db.transactions, t.phase.row)
      then VisitedUnaware(row.id, t.stamp, t.jitter)
      else Visited(row.id, t.stamp, t.jitter)
  }

  /** The action a turn commits, if it commits one. */
  ghost function Committed(policy: Policy, s: System, e: Turn): seq<Legal>
    requires Normalised(policy)
  {
    match e
    case Advance(tid) =>
      if tid in s.live && Statement(policy, s.db, s.live[tid]).CommitNow? then [CommittedBy(s.db, s.live[tid])] else []
    case OpenNow(playerId, initial, walletId, stamp) =>
      if Step(policy, true, s, e).db == s.db then [] else [OpenedWallet(playerId, initial, walletId, stamp)]
    case PublishNow(outbox) => [Published(outbox)]
    case AbsorbNow(message, command, now) =>
      if Step(policy, true, s, e).db == s.db then [] else [Unusable(command, message, now)]
    case _ => []
  }

  ghost function Serialised(policy: Policy, s: System, es: seq<Turn>): seq<Legal>
    requires Normalised(policy)
    decreases |es|
  {
    if es == [] then []
    else Committed(policy, s, es[0]) + Serialised(policy, Step(policy, true, s, es[0]), es[1..])
  }

  /* ---- the actions are the serial model's ---- */

  /** A received request is the serial delivery of any command that parses to it. */
  lemma DeliveredIsDelivery(policy: Policy, db: Db, consumer: string, id: string, command: SubmitCommand, stamp: Stamp,
                            jitter: nat)
    requires Normalised(policy)
    ensures Parse(command).Ok? ==>
              Take(policy, db, Submitted(Parse(command).value, Some((consumer, id)), stamp, jitter))
              == Deliver(policy, db, consumer, Envelope.Request(id, command), stamp, jitter).0
    ensures Parse(command).Err? ==>
              Take(policy, db, Unusable(command, (consumer, id), stamp.now))
              == Deliver(policy, db, consumer, Envelope.Request(id, command), stamp, jitter).0
  {
    hide Submit, PayloadHash, Commit, Parse;
    if Parse(command).Err? { UnparsableIsRefused(policy, db, Parse(command), stamp, jitter); }
  }

  lemma UnparsableIsRefused(policy: Policy, db: Db, parsed: Result<Request>, stamp: Stamp, jitter: nat)
    requires Normalised(policy) && parsed.Err?
    ensures Submit(policy, db, parsed, stamp, jitter) == Refused(parsed.error)
  {
  }

  /** The decision about to be committed is the one the state committed now calls for. */
  lemma CommitIsDecidedNow(policy: Policy, db: Db, t: Txn)
    requires Normalised(policy) && Inv(db) && LiveOk(policy, db, t) && UpToDate(db, t)
    requires t.phase.Writing? && t.phase.done >= 4
    ensures var row, v := t.phase.row, t.phase.v;
            && row.walletId in db.wallets
            && Guarded(db, Decide(policy, t, row, db.wallets[row.walletId], v), t.stamp) == Settled(t.phase.eff)
            && (row.kind.IsReversal() ==> ResolvedRight(db, row, v))
  {
    hide Inv, Grounded, NonZero, WalletRead, Starts, ClaimStands, Decide, ResolvedRight, Proper, Current, Fresh,
      StillUndone, FreshIdentity, FreshEntry, FreshEvents;
    ReadyToCommitIsSound(policy, db, t);
    DecisionFollows(policy, t, t.phase.row, t.phase.from, t.phase.v);
  }

  lemma SubmitCommitsSerially(policy: Policy, db: Db, t: Txn)
    requires Normalised(policy) && Inv(db) && LiveOk(policy, db, t) && UpToDate(db, t)
    requires t.phase.Writing? && t.phase.done >= 4 && t.job.SubmitJob?
    ensures |t.phase.eff.events| <= 2 && Take(policy, db, CommittedBy(db, t)) == Outcome(db, t)
    ensures CommittedBy(db, t).Submitted? ==>
              Submit(policy, db, Ok(t.job.request), t.stamp, t.jitter) == Settled(t.phase.eff)
  {
    hide Inv, LiveOk, UpToDate, Sound, Resolve, Missed, Guarded, SettleReversal, SettleDirect, Park, Commit,
      FindByBusinessId, NewExternal, Mark, ResolvedRight;
    var p, row, v := t.job.request, t.phase.row, t.phase.v;
    ReadyToCommitIsSound(policy, db, t);
    SoundIsShort(db, t.phase.eff, t.stamp);
    StillNew(policy, db, t);
    CommitIsDecidedNow(policy, db, t);
    NewRowWallet(db, p, t.stamp);
    assert Unseen(db, t.message) by { assert MessageStands(db, t) by { MessageIsUnseen(policy, db, t); } }
    if row.kind.IsReversal() {
      UnawareExactly(db, row, v);
    } else {
      DirectIgnoresVerdict(policy, row, db.wallets[row.walletId], v, Resolve(db.transactions, row), t.stamp, t.jitter);
    }
  }

  lemma NewRowWallet(db: Db, p: Request, stamp: Stamp)
    requires NewRow(db, p, stamp).Ok?
    ensures NewExternal(stamp.transactionId, p, stamp.now) == NewRow(db, p, stamp)
    ensures NewRow(db, p, stamp).value.walletId == p.walletId && NewRow(db, p, stamp).value.kind == p.kind
  {
    NewRowShape(stamp.transactionId, p, stamp.now);
  }

  lemma DirectIgnoresVerdict(policy: Policy, row: Transaction, from: Wallet, v: Verdict, w: Verdict, stamp: Stamp,
                             jitter: nat)
    requires Normalised(policy) && !row.kind.IsReversal()
    ensures SettleSubmit(policy, row, from, v, stamp, jitter) == SettleSubmit(policy, row, from, w, stamp, jitter)
  {
  }

  lemma VisitCommitsSerially(policy: Policy, db: Db, t: Txn)
    requires Normalised(policy) && Inv(db) && LiveOk(policy, db, t) && UpToDate(db, t)
    requires t.phase.Writing? && t.phase.done >= 4 && t.job.VisitJob?
    ensures |t.phase.eff.events| <= 2 && Take(policy, db, CommittedBy(db, t)) == Outcome(db, t)
    ensures CommittedBy(db, t).Visited? ==>
              Claimable(db, t.job.claimed.id)
              && Visit(policy, db, t.job.claimed.id, t.stamp, t.jitter) == Settled(t.phase.eff)
  {
    hide Inv, UpToDate, Sound, Resolve, Missed, Guarded, SettleVisit, Commit, Grounded, Written, StillUndone,
      WalletRead, ResolvedRight;
    ReadyToCommitIsSound(policy, db, t);
    SoundIsShort(db, t.phase.eff, t.stamp);
    CommitIsDecidedNow(policy, db, t);
    ClaimedIsReversal(db, t.job.claimed.id);
    UnawareExactly(db, t.phase.row, t.phase.v);
  }

  lemma ClaimedIsReversal(db: Db, id: string)
    requires Inv(db)
    ensures id in db.transactions && db.transactions[id].status.PendingReference? ==>
              db.transactions[id].kind.IsReversal()
  {
    if id in db.transactions { assert RowFits(db.transactions[id], db.wallets); }
  }

  /** A request that cannot be served is refused by a domain rule, unless its pair is stored. */
  lemma UnservableIsRefused(policy: Policy, db: Db, p: Request, stamp: Stamp, jitter: nat)
    requires Normalised(policy) && Inv(db) && 0 < stamp.now && Unservable(db, p, stamp)
    requires FindByBusinessId(db.transactions, p.providerId, p.externalId).None?
    ensures var a := Submit(policy, db, Ok(p), stamp, jitter); a.Refused? && a.error.Domain?
  {
    hide Inv, FindByBusinessId, NewExternal, SettleSubmit, Resolve;
    NewRowFails(stamp.transactionId, p, stamp.now);
    var row := NewExternal(stamp.transactionId, p, stamp.now);
    if row.Ok? {
      RequestAccepted(stamp.transactionId, p, stamp.now);
      assert SoundWallet(db.wallets[p.walletId]) by { WalletIsSound(db, p.walletId); }
      StrayLossIsMismatch(policy, row.value, db.wallets[p.walletId], Resolve(db.transactions, row.value), stamp,
                          jitter);
    }
  }

  /** The operation was decided, and an id it was handed is taken. */
  ghost predicate Clashing(policy: Policy, db: Db, p: Request, stamp: Stamp, jitter: nat)
    requires Normalised(policy) && NewRow(db, p, stamp).Ok?
  {
    var row := NewRow(db, p, stamp).value;
    var decided := SettleSubmit(policy, row, db.wallets[p.walletId], Resolve(db.transactions, row), stamp, jitter);
    decided.Ok? && !Fresh(db, decided.value, stamp)
  }

  /**
   * A new operation leaves no record iff the request makes none, its wallet is missing
   * or another player's, it is a loss in another currency, or an id is taken. Every
   * other refusal is recorded.
   */
  lemma UnrecordedExactly(policy: Policy, db: Db, p: Request, stamp: Stamp, jitter: nat)
    requires Normalised(policy) && Inv(db) && 0 < stamp.now
    requires FindByBusinessId(db.transactions, p.providerId, p.externalId).None?
    ensures Submit(policy, db, Ok(p), stamp, jitter).Refused?
            <==>
            || NewExternal(stamp.transactionId, p, stamp.now).Err?
            || p.walletId !in db.wallets || db.wallets[p.walletId].playerId != p.playerId
            || StrayLoss(db, p, Domain(CurrencyMismatch))
            || Clashing(policy, db, p, stamp, jitter)
  {
    hide Inv, Resolve, SettleSubmit, Fresh, Refusal, FindByBusinessId, NewExternal;
    var made := NewRow(db, p, stamp);
    if made.Ok? {
      NewRowWallet(db, p, stamp);
      RequestAccepted(stamp.transactionId, p, stamp.now);
      WalletIsSound(db, p.walletId);
      ResolveHasCode(db.transactions, made.value);
      OnlyStrayLossIsUnrecorded(policy, made.value, db.wallets[p.walletId], Resolve(db.transactions, made.value), stamp,
                                jitter);
    }
  }

  lemma WalletIsSound(db: Db, wallet: string)
    requires Inv(db)
    ensures wallet in db.wallets ==> SoundWallet(db.wallets[wallet])
  {
  }

  /**
   * A delivery that wrote nothing but its record did what the serial delivery does at
   * commit, iff its business pair is not by then stored with other content or under
   * another key; if it is, the request could not be served anyway.
   */
  lemma AbsorbedCommitsSerially(policy: Policy, db: Db, t: Txn)
    requires Normalised(policy) && Inv(db) && LiveOk(policy, db, t) && t.phase.Absorbed?
    ensures t.job.SubmitJob? && t.message.Some? && t.message.value !in db.inbox
    ensures Take(policy, db, Submitted(t.job.request, t.message, t.stamp, t.jitter)) == Outcome(db, t)
            <==> !Conflicting(db, t.job.request)
    ensures Conflicting(db, t.job.request) ==> Unservable(db, t.job.request, t.stamp)
    ensures Take(policy, db, CommittedBy(db, t)) == Outcome(db, t)
  {
    hide Inv, FindByBusinessId, NewExternal, Submit, StrayLoss;
    var p, found := t.job.request,
        FindByBusinessId(db.transactions, t.job.request.providerId, t.job.request.externalId);
    match t.phase.because
    case AlreadyStored(row) =>
      StoredIsReplayed(policy, db, t, row);
    case RefusedFor(e) =>
      LastingIsUnservable(db, t, e);
      if found.None? {
        UnservableIsRefused(policy, db, p, t.stamp, t.jitter);
      } else {
        FoundIsReplayed(policy, db, p, t.stamp, t.jitter);
      }
  }

  lemma LastingIsUnservable(db: Db, t: Txn, e: Error)
    requires LastingRefusal(db, t, e)
    ensures Unservable(db, t.job.request, t.stamp)
  {
  }

  lemma FoundIsReplayed(policy: Policy, db: Db, p: Request, stamp: Stamp, jitter: nat)
    requires Normalised(policy)
    ensures var found := FindByBusinessId(db.transactions, p.providerId, p.externalId);
            found.Some? ==> Submit(policy, db, Ok(p), stamp, jitter) == Serial.Replay(found.value, p)
  {
    hide FindByBusinessId;
  }

  lemma StoredIsReplayed(policy: Policy, db: Db, t: Txn, row: Transaction)
    requires Normalised(policy) && Inv(db) && t.phase.Absorbed? && StillAbsorbed(db, t, AlreadyStored(row))
    ensures !Conflicting(db, t.job.request)
    ensures Submit(policy, db, Ok(t.job.request), t.stamp, t.jitter) == Replayed(db.transactions[row.id])
  {
    hide BooksBalance, LogComplete, LedgerExplained, ReversalsResolve, RowFits, FindByBusinessId, Unique;
    IdentityKeeps(db.transactions[row.id], row);
    FoundIsUnique(db.transactions, row.id);
    FoundIsReplayed(policy, db, t.job.request, t.stamp, t.jitter);
  }

  /* ---- the refinement ---- */

  lemma CommitIsSerial(policy: Policy, s: System, tid: string)
    requires Normalised(policy) && LockedOk(policy, s) && tid in s.live
    requires Statement(policy, s.db, s.live[tid]).CommitNow?
    ensures Step(policy, true, s, Advance(tid)).db == Take(policy, s.db, CommittedBy(s.db, s.live[tid]))
  {
    hide Inv, LiveOk, Statement, Compatible, Commit, UpToDate, AllCompatible, Take, CommittedBy, Outcome;
    var t := s.live[tid];
    OnlyTheFinishedCommit(policy, s.db, t);
    if t.phase.Absorbed? { AbsorbedCommitsSerially(policy, s.db, t); }
    else if t.job.SubmitJob? { SubmitCommitsSerially(policy, s.db, t); }
    else { VisitCommitsSerially(policy, s.db, t); }
  }

  /** The serial step a commit would be if its reads could not be out of date. */
  ghost function Aware(t: Txn): Legal {
    match t.job
    case SubmitJob(p) => Submitted(p, t.message, t.stamp, t.jitter)
    case VisitJob(row) => Visited(row.id, t.stamp, t.jitter)
  }

  predicate IsUnaware(l: Legal) { l.SubmittedUnaware? || l.VisitedUnaware? }

  /** An unaware decision is one of two rows, and the aware one is a third. */
  lemma UnawareRows(policy: Policy, db: Db, t: Txn)
    requires Normalised(policy) && Inv(db) && LiveOk(policy, db, t) && UpToDate(db, t) && 0 < t.stamp.now
    requires t.phase.Writing? && t.phase.done >= 4 && IsUnaware(CommittedBy(db, t))
    ensures var row := t.phase.row;
            var aware := Decide(policy, t, row, db.wallets[row.walletId], Resolve(db.transactions, row));
            && row.walletId in db.wallets && aware.Ok? && aware.value.row.id == t.phase.eff.row.id == row.id
            && aware.value.row != t.phase.eff.row && t.phase.eff.row != row
            && (t.job.VisitJob? ==> row == t.job.claimed && row.id in db.transactions && db.transactions[row.id] == row)
            && t.phase.eff.known == t.job.VisitJob?
  {
    hide Inv, Resolve, Missed, Decide, ResolvedRight, Guarded, SchemaAccepts, Written, StillUndone, Grounded;
    var row := t.phase.row;
    CommitIsDecidedNow(policy, db, t);
    UnawareExactly(db, row, t.phase.v);
    RowStarts(policy, db, t);
    UnawareOnlyDelays(policy, db, t, row, db.wallets[row.walletId]);
    DecisionFollows(policy, t, row, db.wallets[row.walletId], Resolve(db.transactions, row));
    DecisionFollows(policy, t, row, t.phase.from, t.phase.v);
  }

  lemma RowStarts(policy: Policy, db: Db, t: Txn)
    requires Normalised(policy) && Inv(db) && LiveOk(policy, db, t) && t.phase.Writing?
    ensures t.phase.row.id != ""
            && (if t.job.VisitJob? then t.phase.row.status.PendingReference? else t.phase.row.status.Pending?)
  {
    hide Inv, Grounded, NonZero, NewExternal, WalletRead, Written, StillUndone, Decide;
    if t.job.SubmitJob? {
      RequestAccepted(t.stamp.transactionId, t.job.request, t.stamp.now);
    } else {
      StoredRowIsNamed(db, t.job.claimed.id);
    }
  }

  lemma StoredRowIsNamed(db: Db, id: string)
    requires Inv(db) && id in db.transactions
    ensures id != ""
  {
    hide BooksBalance, LogComplete, LedgerExplained, ReversalsResolve, Unique, SchemaAccepts;
    assert RowFits(db.transactions[id], db.wallets);
  }

  /** A commit is the serial step of its moment iff it is not unaware. */
  lemma SerialUnlessUnaware(policy: Policy, db: Db, t: Txn)
    requires Normalised(policy) && Inv(db) && LiveOk(policy, db, t) && UpToDate(db, t) && 0 < t.stamp.now
    requires t.phase.Writing? && t.phase.done >= 4
    ensures |t.phase.eff.events| <= 2
    ensures Take(policy, db, Aware(t)) == Outcome(db, t) <==> !IsUnaware(CommittedBy(db, t))
  {
    hide Inv, LiveOk, UpToDate, Resolve, Missed, SettleSubmit, SettleVisit, Guarded, FindByBusinessId, NewExternal,
      Recorded;
    if t.job.SubmitJob? { SubmitCommitsSerially(policy, db, t); } else { VisitCommitsSerially(policy, db, t); }
    if IsUnaware(CommittedBy(db, t)) { UnawareDiffers(policy, db, t); }
  }

  lemma UnawareDiffers(policy: Policy, db: Db, t: Txn)
    requires Normalised(policy) && Inv(db) && LiveOk(policy, db, t) && UpToDate(db, t) && 0 < t.stamp.now
    requires t.phase.Writing? && t.phase.done >= 4 && IsUnaware(CommittedBy(db, t))
    ensures |t.phase.eff.events| <= 2
    ensures Take(policy, db, Aware(t)) != Outcome(db, t)
  {
    hide Inv, LiveOk, UpToDate, Resolve, Missed, SettleSubmit, SettleVisit, FindByBusinessId, NewExternal, Recorded,
      Sound, Fresh, Refusal;
    UnawareRows(policy, db, t);
    ReadyToCommitIsSound(policy, db, t);
    SoundIsShort(db, t.phase.eff, t.stamp);
    var id := t.phase.eff.row.id;
    assert Outcome(db, t).transactions[id] == t.phase.eff.row;
    if t.job.SubmitJob? {
      StillNew(policy, db, t);
      NewRowWallet(db, t.job.request, t.stamp);
      UnseenCommit(db, t.phase.eff, t.stamp);
    }
  }

  lemma UnseenCommit(db: Db, eff: Effect, stamp: Stamp)
    requires Sound(db, eff, stamp)
    ensures !eff.known ==> eff.row.id !in db.transactions
  {
    if !eff.known { UnseenRow(db, eff, stamp); }
  }

  /** Whatever a turn does to the database, the one-at-a-time model does in the same place. */
  lemma TurnIsSerial(policy: Policy, s: System, e: Turn)
    requires Normalised(policy) && LockedOk(policy, s)
    ensures Step(policy, true, s, e).db == TakeAll(policy, s.db, Committed(policy, s, e))
  {
    hide Inv, LiveOk, Statement, Compatible, Commit, Open, UpToDate, AllCompatible, Take, CommittedBy, OpeningAdmitted,
      CommitOpening, Republished, Due, Outcome, Parse, PayloadHash;
    var ls := Committed(policy, s, e);
    assert |ls| == 1 ==> ls[1..] == [];
    match e
    case Advance(tid) =>
      if tid in s.live && Statement(policy, s.db, s.live[tid]).CommitNow? { CommitIsSerial(policy, s, tid); }
    case OpenNow(playerId, initial, walletId, stamp) =>
      if ls != [] {
        assert Take(policy, s.db, ls[0]) == Next(policy, s.db, OpenAction(playerId, initial, walletId, stamp)) by {
          TakeOpened(policy, s.db, ls[0]);
        }
      }
    case PublishNow(outbox) => TakePublished(policy, s.db, ls[0]);
    case AbsorbNow(message, command, now) => if ls != [] { TakeUnusable(policy, s.db, ls[0]); }
    case BeginSubmit(_, _, _, _) =>
    case BeginDelivery(_, _, _, _, _) =>
    case BeginVisit(_, _, _, _) =>
    case Crash(_) =>
  }

  lemma TakeUnusable(policy: Policy, db: Db, l: Legal)
    requires Normalised(policy) && l.Unusable?
    ensures Take(policy, db, l)
            == if l.handled in db.inbox || Parse(l.command).Ok? then db
            else Mark(db, l.handled, PayloadHash(l.command), l.now)
  {
  }

  lemma TakeOpened(policy: Policy, db: Db, l: Legal)
    requires Normalised(policy) && l.OpenedWallet?
    ensures Take(policy, db, l) == Next(policy, db, OpenAction(l.playerId, l.initial, l.walletId, l.stamp))
  {
  }

  lemma TakePublished(policy: Policy, db: Db, l: Legal)
    requires Normalised(policy) && l.Published?
    ensures Take(policy, db, l) == Next(policy, db, PublishAction(l.outbox))
  {
  }

  lemma {:induction false} TakeAllConcat(policy: Policy, db: Db, a: seq<Legal>, b: seq<Legal>)
    requires Normalised(policy)
    ensures TakeAll(policy, db, a + b) == TakeAll(policy, TakeAll(policy, db, a), b)
    decreases |a|
  {
    hide Take;
    if a == [] {
      assert a + b == b;
    } else {
      assert (a + b)[0] == a[0] && (a + b)[1..] == a[1..] + b;
      TakeAllConcat(policy, Take(policy, db, a[0]), a[1..], b);
    }
  }

  /**
   * Every interleaving under the wallet lock refines the one-at-a-time model: the
   * database it ends with is the one that model reaches by taking the committed
   * actions one after another, in commit order.
   */
  lemma {:induction false} EveryInterleavingIsSerial(policy: Policy, s: System, es: seq<Turn>)
    requires Normalised(policy) && LockedOk(policy, s)
    ensures LockedOk(policy, History(policy, true, s, es))
    ensures History(policy, true, s, es).db == TakeAll(policy, s.db, Serialised(policy, s, es))
    decreases |es|
  {
    hide LockedOk, Step, Committed, Take;
    if es != [] {
      var next := Step(policy, true, s, es[0]);
      LockedStepKeeps(policy, s, es[0]);
      TurnIsSerial(policy, s, es[0]);
      EveryInterleavingIsSerial(policy, next, es[1..]);
      TakeAllConcat(policy, s.db, Committed(policy, s, es[0]), Serialised(policy, next, es[1..]));
    }
  }

  /** In particular from the empty database. */
  lemma FromNothing(policy: Policy, es: seq<Turn>)
    requires Normalised(policy)
    ensures var s := System(EMPTY, map[]);
            var end := History(policy, true, s, es).db;
            Inv(end) && end == TakeAll(policy, EMPTY, Serialised(policy, s, es))
  {
    hide Inv, History, Serialised, TakeAll;
    EmptyIsSound();
    IdleIsLocked(policy, EMPTY);
    EveryInterleavingIsSerial(policy, System(EMPTY, map[]), es);
    EveryInterleavingIsSound(policy, true, System(EMPTY, map[]), es);
  }
}
