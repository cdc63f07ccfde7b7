/** The entry points: units of work with bounded retry, over a database other instances also use. */
module Ports {
  import opened Base
  import opened Money
  import opened MoneyText
  import opened Domain
  import opened Commands
  import opened Tables
  import opened Steps
  import opened Decisions
  import opened Serial
  import opened Openings
  import opened Queue
  import opened Runs
  import opened ExactlyOnce
  import opened Storage
  import opened UseCases
  import opened Outcomes

  /** Worth trying again: the database could not order two writers, or a version moved. */
  predicate Transient(e: Error) {
    e == SerializationFailure || e == VersionMismatch
  }

  /** Other instances commit, lock and release what they like; callers know no more than this contract says. */
  method OthersCommit(store: Store)
    requires Inv(store.View())
    modifies store
    ensures Inv(store.View()) && Extends(old(store.View()), store.View())
  {
    store.heldRows := *;
    ExtendsReflexive(store.View());
  }

  /** Whether the database accepts the commit; it may refuse one that did nothing wrong. */
  method TryCommit() returns (refused: Option<Error>)
    ensures refused.Some? ==> refused.value == SerializationFailure || refused.value == Unavailable
  {
    var serialization: bool, connection: bool := *, *;
    if serialization { return Some(SerializationFailure); }
    if connection { return Some(Unavailable); }
    return None;
  }

  /* ---- tries ---- */

  /** What became of a try: it was committed, the database denied its commit, or it had refused already. */
  datatype Fate = Granted | Denied(error: Error) | SelfRefused(error: Error)

  function FailureOf(f: Fate): Option<Error> {
    match f
    case Granted => None
    case Denied(e) => Some(e)
    case SelfRefused(e) => Some(e)
  }

  /** A try fails for its own refusal and no other, or because the database denied the commit. */
  predicate Fits(f: Fate, own: Option<Error>) {
    match f
    case Granted => own.None?
    case Denied(e) => own.None? && (e == SerializationFailure || e == Unavailable)
    case SelfRefused(e) => own == Some(e)
  }

  /** The fate of a try that refused with this, or else came to this commit. */
  function FateOf(own: Option<Error>, denied: Option<Error>): (f: Fate)
    ensures denied.None? || denied.value == SerializationFailure || denied.value == Unavailable ==> Fits(f, own)
    ensures FailureOf(f) == if own.Some? then own else denied
  {
    if own.Some? then SelfRefused(own.value) else if denied.Some? then Denied(denied.value) else Granted
  }

  /** One try of a unit of work: the state it began on, its fate, and what it saw. */
  datatype Try<T> = Try(begun: Db, fate: Fate, saw: T)

  /** A try is followed by another only if the database could not order it, or a version had moved. */
  predicate IsRetried(f: Fate) { FailureOf(f) == Some(SerializationFailure) || FailureOf(f) == Some(VersionMismatch) }

  /** The state before the i-th of these. */
  function Prior<T>(from: Db, tries: seq<Try<T>>, i: nat): Db
    requires i <= |tries|
  {
    if i == 0 then from else tries[i - 1].begun
  }

  /** Each try began on what was committed by then, and every one but the last failed for a transient reason. */
  ghost predicate InSequence<T>(from: Db, tries: seq<Try<T>>) {
    && (forall i :: 0 <= i < |tries| ==> Inv(tries[i].begun) && Extends(Prior(from, tries, i), tries[i].begun))
    && (forall i :: 0 <= i < |tries| - 1 ==> IsRetried(tries[i].fate))
  }

  lemma OneMoreTry<T>(from: Db, tries: seq<Try<T>>, t: Try<T>)
    requires InSequence(from, tries) && Inv(t.begun) && Extends(Prior(from, tries, |tries|), t.begun)
    requires tries != [] ==> IsRetried(tries[|tries| - 1].fate)
    ensures InSequence(from, tries + [t])
  {
    hide Inv, Extends, Prior;
    var more := tries + [t];
    forall i | 0 <= i < |more|
      ensures Inv(more[i].begun) && Extends(Prior(from, more, i), more[i].begun)
    {
      PriorStays(from, tries, t, i);
      if i < |tries| { assert more[i] == tries[i]; }
    }
    forall i | 0 <= i < |more| - 1
      ensures IsRetried(more[i].fate)
    {
      assert more[i] == tries[i];
    }
  }

  lemma PriorStays<T>(from: Db, tries: seq<Try<T>>, t: Try<T>, i: nat)
    requires i <= |tries|
    ensures Prior(from, tries + [t], i) == Prior(from, tries, i)
  {
  }

  /** Every try began on a state that extends the one it all began on. */
  lemma {:induction false} TryBegan<T>(from: Db, tries: seq<Try<T>>, n: nat)
    requires InSequence(from, tries) && n < |tries|
    ensures Extends(from, tries[n].begun)
  {
    hide Inv, Extends;
    assert Extends(Prior(from, tries, n), tries[n].begun);
    if 0 < n {
      TryBegan(from, tries, n - 1);
      ExtendsTransitive(from, tries[n - 1].begun, tries[n].begun);
    }
  }

  lemma NoTries<T>(from: Db, tries: seq<Try<T>>)
    requires tries == []
    ensures InSequence(from, tries) && Prior(from, tries, 0) == from
  {
  }

  lemma SoundIsSane(db: Db)
    requires Inv(db)
    ensures Sane(db)
  {
    hide RowFits, Unique, ReversalsResolve, LogComplete;
    forall id | id in db.wallets
      ensures BooksBalance(db.(inbox := map[]), db.wallets[id])
    {
      assert BooksBalance(db, db.wallets[id]);
    }
    forall id | id in db.transactions
      ensures db.transactions[id].id == id && RowFits(db.transactions[id], db.wallets)
    {
    }
  }

  /* ---- submitting over HTTP ---- */

  /** The answer once a uniqueness rule has refused: from what is stored by now, if it is there. */
  ghost function SecondLook(db: Db, parsed: Result<Request>, e: Error): Answer {
    if e == Conflict(IdempotencyKeyRule) then Refused(e)
    else match parsed
         case Err(bad) => Refused(bad)
         case Ok(p) =>
           match FindByBusinessId(db.transactions, p.providerId, p.externalId)
           case None => Refused(e)
           case Some(stored) => Replay(stored, p)
  }

  /**
   * A key held by another operation is final. After any other conflict the stored row of
   * the pair answers: other content, then another key, is a conflict of its own, and the
   * same submission is replayed; with no such row the first conflict stands.
   */
  lemma SecondLookByTable(db: Db, p: Request, e: Error, stored: Option<Transaction>)
    requires Inv(db) && e.Conflict? && IsTheReference(db.transactions, p.providerId, p.externalId, stored)
    ensures SecondLook(db, Ok(p), e)
            == if e.rule == IdempotencyKeyRule || stored.None? then Refused(e)
               else if stored.value.payloadHash != p.payloadHash then Refused(Conflict(DifferentContent))
               else if stored.value.idempotencyKey != p.idempotencyKey then Refused(Conflict(DifferentKey))
               else Replayed(stored.value)
  {
    hide Inv, FindByBusinessId;
    RowsAreNamed(db);
    if stored.Some? { FoundIsUnique(db.transactions, stored.value.id); }
  }

  method AnswerConflict(store: Store, command: SubmitCommand, e: Error) returns (r: Result<SubmitResult>)
    requires Inv(store.View())
    ensures r == match SecondLook(store.View(), Parse(command), e)
                 case Replayed(t) => Ok(SubmitResult(t, t.balanceAfter, true))
                 case Refused(refusal) => Err(refusal)
                 case Settled(_) => r
  {
    hide Inv, Parse, Unique;
    if e == Conflict(IdempotencyKeyRule) { return Err(e); }
    var parsed := ParseCommand(command);
    if parsed.Err? { return Err(parsed.error); }
    assert Unique(store.transactions) by { UniqueRows(store.View()); }
    var existing := store.FindByBusinessID(parsed.value.providerId, parsed.value.externalId);
    if existing.Err? { return Err(e); }
    r := ReplayStored(existing.value, parsed.value);
  }

  lemma UniqueRows(db: Db)
    requires Inv(db)
    ensures Unique(db.transactions)
  {
  }

  /**
   * The loser of a race for one business pair finds the winner's row whenever it looks
   * again, and so answers exactly as a submission arriving then would.
   */
  lemma LoserAnswersLikeALatecomer(policy: Policy, db: Db, later: Db, command: SubmitCommand, winner: string,
                                   stamp: Stamp, jitter: nat)
    requires Normalised(policy) && Inv(db) && Inv(later) && Extends(db, later) && Parse(command).Ok?
    requires winner in db.transactions && IsBusiness(db.transactions[winner], command.providerId, command.externalId)
    ensures SecondLook(later, Parse(command), Conflict(BusinessIdentity))
            == Submit(policy, later, Parse(command), stamp, jitter)
    ensures winner in later.transactions && RowAdvances(db.transactions[winner], later.transactions[winner])
    ensures var a := SecondLook(later, Parse(command), Conflict(BusinessIdentity));
            a.Replayed? ==> a.stored == later.transactions[winner]
  {
    hide Inv, Parse, PayloadHash, Unique, FindByBusinessId;
    assert RowAdvances(db.transactions[winner], later.transactions[winner]);
    IdentityKeeps(db.transactions[winner], later.transactions[winner]);
    UniqueRows(later);
    FoundIsUnique(later.transactions, winner);
    ParsedPair(command);
  }

  lemma ParsedPair(command: SubmitCommand)
    ensures Parse(command).Ok? ==> Parse(command).value.providerId == command.providerId
                                   && Parse(command).value.externalId == command.externalId
  {
  }

  function OwnError(a: Answer): Option<Error> { if a.Refused? then Some(a.error) else None }

  /** Each try failed for what the serial model refuses there, or was denied. */
  ghost predicate SubmitTries(policy: Policy, tries: seq<Try<()>>, command: SubmitCommand, stamps: seq<Stamp>,
                              jitter: nat)
    requires Normalised(policy)
  {
    && |tries| <= |stamps|
    && forall i :: 0 <= i < |tries| ==>
         Fits(tries[i].fate, OwnError(Submit(policy, tries[i].begun, Parse(command), stamps[i], jitter)))
  }

  /** How a submission ends whose last try was this. */
  ghost predicate Executed(policy: Policy, t: Try<()>, after: Db, command: SubmitCommand, stamp: Stamp, jitter: nat,
                           r: Result<SubmitResult>)
    requires Normalised(policy)
  {
    match t.fate
    case Granted => r.Ok? && Does(t.begun, after, Submit(policy, t.begun, Parse(command), stamp, jitter), stamp, r)
    case Denied(e) => r == Err(e) && after == t.begun
    case SelfRefused(e) =>
      if !e.Conflict? then r == Err(e) && after == t.begun
      else
        && Inv(after) && Extends(t.begun, after)
        && r == match SecondLook(after, Parse(command), e)
                case Replayed(stored) => Ok(SubmitResult(stored, stored.balanceAfter, true))
                case Refused(refusal) => Err(refusal)
                case Settled(_) => r
  }

  /** Submits: retried while the failure is transient, each try on fresh state; all of it commits or none. */
  method Execute(store: Store, policy: Policy, command: SubmitCommand, stamps: seq<Stamp>, jitter: nat)
    returns (r: Result<SubmitResult>, ghost tries: seq<Try<()>>)
    requires Normalised(policy) && Inv(store.View()) && 1 <= |stamps|
    modifies store
    ensures 1 <= |tries| && InSequence(old(store.View()), tries) && SubmitTries(policy, tries, command, stamps, jitter)
    ensures Executed(policy, tries[|tries| - 1], store.View(), command, stamps[|tries| - 1], jitter, r)
    ensures IsRetried(tries[|tries| - 1].fate) ==> |tries| == |stamps|
    ensures Inv(store.View()) && Extends(tries[|tries| - 1].begun, store.View())
  {
    hide Inv, Sane, Extends, Submit, Parse, SecondLook, Does, Prior, InSequence, Fits, FateOf, SubmitTries, Executed,
      IsRetried;
    r, tries := Err(Unavailable), [];
    var n := 0;
    ExtendsReflexive(store.View());
    NoTries(store.View(), tries);
    NoSubmits(policy, command, stamps, jitter);
    while n < |stamps|
      invariant n == |tries| <= |stamps| && InSequence(old(store.View()), tries)
      invariant SubmitTries(policy, tries, command, stamps, jitter)
      invariant Inv(store.View()) && store.View() == Prior(old(store.View()), tries, n)
      invariant 0 < n ==>
                  && IsRetried(tries[n - 1].fate) && store.View() == tries[n - 1].begun
                  && Executed(policy, tries[n - 1], store.View(), command, stamps[n - 1], jitter, r)
      modifies store
    {
      OthersCommit(store);
      ghost var begun := store.View();
      var start := store.View();
      ExtendsReflexive(begun);
      SoundIsSane(begun);
      ghost var a := Submit(policy, begun, Parse(command), stamps[n], jitter);
      r := ExecuteIn(store, policy, command, stamps[n], jitter);
      n := n + 1;
      var own, denied := if r.Err? then Some(r.error) else None, None;
      if r.Ok? { denied := TryCommit(); }
      ghost var t := Try(begun, FateOf(own, denied), ());
      AnswersOwn(begun, store.View(), a, stamps[n - 1], r);
      OneMoreSubmit(policy, tries, t, command, stamps, jitter);
      OneMoreTry(old(store.View()), tries, t);
      tries := tries + [t];
      LastBegun(old(store.View()), tries);
      TransientIsRetried(t.fate);
      if r.Ok? && denied.None? {
        AnsweredKeeps(policy, begun, store.View(), Parse(command), stamps[n - 1], jitter, r);
        WasGranted(policy, t, store.View(), command, stamps[n - 1], jitter, r);
        return;
      }
      var failure := if own.Some? then own.value else denied.value;
      r := Err(failure);
      store.Restore(start);
      if !Transient(failure) {
        if failure.Conflict? {
          OthersCommit(store);
          r := AnswerConflict(store, command, failure);
        }
        WasNot(policy, t, own, store.View(), command, stamps[n - 1], jitter, r);
        return;
      }
      WasNot(policy, t, own, store.View(), command, stamps[n - 1], jitter, r);
    }
    ExtendsReflexive(store.View());
  }

  lemma NoSubmits(policy: Policy, command: SubmitCommand, stamps: seq<Stamp>, jitter: nat)
    requires Normalised(policy)
    ensures SubmitTries(policy, [], command, stamps, jitter)
  {
  }

  lemma OneMoreSubmit(policy: Policy, tries: seq<Try<()>>, t: Try<()>, command: SubmitCommand, stamps: seq<Stamp>,
                      jitter: nat)
    requires Normalised(policy) && SubmitTries(policy, tries, command, stamps, jitter) && |tries| < |stamps|
    requires Fits(t.fate, OwnError(Submit(policy, t.begun, Parse(command), stamps[|tries|], jitter)))
    ensures SubmitTries(policy, tries + [t], command, stamps, jitter)
  {
    hide Fits, Submit, Parse;
  }

  lemma TransientIsRetried(f: Fate)
    ensures IsRetried(f) <==> FailureOf(f).Some? && Transient(FailureOf(f).value)
  {
  }

  lemma WasGranted(policy: Policy, t: Try<()>, after: Db, command: SubmitCommand, stamp: Stamp, jitter: nat,
                   r: Result<SubmitResult>)
    requires Normalised(policy) && FailureOf(t.fate).None? && r.Ok?
    requires Does(t.begun, after, Submit(policy, t.begun, Parse(command), stamp, jitter), stamp, r)
    ensures Executed(policy, t, after, command, stamp, jitter, r)
  {
    hide Does, Submit, Parse;
  }

  lemma WasNot(policy: Policy, t: Try<()>, own: Option<Error>, after: Db, command: SubmitCommand, stamp: Stamp,
               jitter: nat, r: Result<SubmitResult>)
    requires Normalised(policy) && FailureOf(t.fate).Some? && Fits(t.fate, own)
    requires var e := FailureOf(t.fate).value;
             if !e.Conflict? then r == Err(e) && after == t.begun
             else
               && Inv(after) && Extends(t.begun, after)
               && r == match SecondLook(after, Parse(command), e)
                       case Replayed(stored) => Ok(SubmitResult(stored, stored.balanceAfter, true))
                       case Refused(refusal) => Err(refusal)
                       case Settled(_) => r
    ensures Executed(policy, t, after, command, stamp, jitter, r)
  {
    hide Inv, Extends, SecondLook, Parse, Does, Submit;
  }

  lemma LastBegun<T>(from: Db, tries: seq<Try<T>>)
    requires tries != []
    ensures Prior(from, tries, |tries|) == tries[|tries| - 1].begun
  {
  }

  lemma AnswersOwn(before: Db, after: Db, a: Answer, stamp: Stamp, r: Result<SubmitResult>)
    requires Does(before, after, a, stamp, r)
    ensures OwnError(a) == if r.Err? then Some(r.error) else None
  {
  }

  lemma AnsweredKeeps(policy: Policy, begun: Db, after: Db, parsed: Result<Request>, stamp: Stamp, jitter: nat,
                      r: Result<SubmitResult>)
    requires Normalised(policy) && Inv(begun) && r.Ok?
    requires Does(begun, after, Submit(policy, begun, parsed, stamp, jitter), stamp, r)
    ensures Inv(after) && Extends(begun, after)
  {
    hide Inv, Submit, Sound, Extends;
    SubmitIsSound(policy, begun, parsed, stamp, jitter);
    AnswerKeeps(policy, begun, Submit(policy, begun, parsed, stamp, jitter), stamp);
  }

  /* ---- the worker ---- */

  /** What a try of a pass saw: the rows others held, and the reversal it claimed. */
  datatype Sight = Sight(held: set<string>, found: Option<Transaction>)

  type Look = Try<Sight>

  /** What a committed try did: every due reversal was held by others, or the longest-due of the rest was visited. */
  ghost predicate Visited(policy: Policy, l: Look, after: Db, stamp: Stamp, jitter: nat)
    requires Normalised(policy)
  {
    match l.saw.found
    case None => after == l.begun && OldestDue(l.begun.transactions, stamp.now, l.saw.held, None)
    case Some(t) =>
      && IsClaimed(l, t, stamp.now)
      && Visit(policy, l.begun, t.id, stamp, jitter).Settled?
      && after == After(l.begun, Visit(policy, l.begun, t.id, stamp, jitter), stamp)
  }

  /** The longest-due reversal that nobody held. */
  ghost predicate IsClaimed(l: Look, t: Transaction, now: Instant) {
    && OldestDue(l.begun.transactions, now, l.saw.held, Some(t)) && t.id !in l.saw.held
    && Due(l.begun, t.id, now) && l.begun.transactions[t.id] == t
  }

  /** A try claims as it should, and fails only for what the visit refuses, or because it was denied. */
  ghost predicate LookFits(policy: Policy, l: Look, stamp: Stamp, jitter: nat)
    requires Normalised(policy)
  {
    match l.saw.found
    case None => OldestDue(l.begun.transactions, stamp.now, l.saw.held, None) && Fits(l.fate, None)
    case Some(t) =>
      IsClaimed(l, t, stamp.now) && Fits(l.fate, OwnError(Visit(policy, l.begun, t.id, stamp, jitter)))
  }

  lemma ClaimedIsDue(db: Db, now: Instant, held: set<string>, due: Option<Transaction>)
    requires Inv(db) && OldestDue(db.transactions, now, held, due) && due.Some?
    ensures Due(db, due.value.id, now) && db.transactions[due.value.id] == due.value && due.value.id !in held
  {
    hide BooksBalance, LogComplete, LedgerExplained, Unique, ReversalsResolve, SchemaAccepts, StatusFits;
    var id :| id in db.transactions && id !in held && db.transactions[id] == due.value;
    assert RowFits(db.transactions[id], db.wallets);
  }

  lemma VisitKeeps(policy: Policy, db: Db, after: Db, id: string, stamp: Stamp, jitter: nat, r: Result<SubmitResult>)
    requires Normalised(policy) && Inv(db) && Claimable(db, id) && r.Ok?
    requires Does(db, after, Visit(policy, db, id, stamp, jitter), stamp, r)
    ensures var a := Visit(policy, db, id, stamp, jitter);
            a.Settled? && after == After(db, a, stamp) && Inv(after) && Extends(db, after)
  {
    hide Inv, Visit, Sound, Extends;
    VisitIsSound(policy, db, id, stamp, jitter);
    AnswerKeeps(policy, db, Visit(policy, db, id, stamp, jitter), stamp);
    VisitNeverReplays(policy, db, id, stamp, jitter);
  }

  lemma VisitNeverReplays(policy: Policy, db: Db, id: string, stamp: Stamp, jitter: nat)
    requires Normalised(policy) && Claimable(db, id)
    ensures !Visit(policy, db, id, stamp, jitter).Replayed?
  {
    hide Resolve, SettleVisit, Fresh, Refusal;
  }

  /** Some try of a pass found work. */
  predicate FoundWork(looks: seq<Look>) {
    exists i :: 0 <= i < |looks| && looks[i].saw.found.Some?
  }

  /** The committed try of a pass found nothing, although an earlier one had. */
  predicate Misleads(looks: seq<Look>) {
    looks != [] && looks[|looks| - 1].saw.found.None? && FoundWork(looks[..|looks| - 1])
  }

  /** `worked` and the committed try disagree iff the pass misleads. */
  lemma WorkedMisleadsExactly(looks: seq<Look>)
    requires looks != []
    ensures (FoundWork(looks) <==> looks[|looks| - 1].saw.found.Some?) <==> !Misleads(looks)
  {
    var front := looks[..|looks| - 1];
    if FoundWork(front) {
      var i :| 0 <= i < |front| && front[i].saw.found.Some?;
      assert looks[i].saw.found.Some?;
    }
    if FoundWork(looks) && looks[|looks| - 1].saw.found.None? {
      var i :| 0 <= i < |looks| && looks[i].saw.found.Some?;
      assert front[i].saw.found.Some?;
    }
  }

  /** What the tries of one pass saw, and how they ended. */
  ghost predicate TriesFit(policy: Policy, from: Db, looks: seq<Look>, stamps: seq<Stamp>, jitter: nat)
    requires Normalised(policy)
  {
    && |looks| <= |stamps| && InSequence(from, looks)
    && forall i :: 0 <= i < |looks| ==> LookFits(policy, looks[i], stamps[i], jitter)
  }

  lemma LooksGrow(policy: Policy, from: Db, looks: seq<Look>, stamps: seq<Stamp>, jitter: nat, l: Look)
    requires Normalised(policy) && TriesFit(policy, from, looks, stamps, jitter) && |looks| < |stamps|
    requires Inv(l.begun) && Extends(Prior(from, looks, |looks|), l.begun)
    requires LookFits(policy, l, stamps[|looks|], jitter)
    requires looks != [] ==> IsRetried(looks[|looks| - 1].fate)
    ensures TriesFit(policy, from, looks + [l], stamps, jitter)
  {
    hide Inv, Extends, Prior, LookFits, InSequence;
    OneMoreTry(from, looks, l);
  }

  /**
   * One reversal is the first to claim, and the visit to it settles; another instance's
   * visit leaves, at the second try, nothing due but what somebody holds.
   */
  ghost predicate CanMislead(policy: Policy, db: Db, t: Transaction, theirs: Stamp, jitter: nat, first: set<string>,
                             second: set<string>, stamps: seq<Stamp>, mine: nat)
    requires Normalised(policy)
  {
    && |stamps| == 2 && OldestDue(db.transactions, stamps[0].now, first, Some(t)) && t.id !in first
    && Due(db, t.id, stamps[0].now) && db.transactions[t.id] == t
    && (forall id :: id in db.transactions && id != t.id && id !in second ==>
          !IsDue(db.transactions[id], stamps[1].now))
    && Visit(policy, db, t.id, stamps[0], mine).Settled?
    && var a := Visit(policy, db, t.id, theirs, jitter);
       a.Settled? && (t.id in second || !IsDue(a.eff.row, stamps[1].now))
  }

  /**
   * A pass that misleads can happen: its first try claims the reversal and is denied its
   * commit, another instance visits it, and the second try finds nothing to claim.
   */
  lemma PassCanMislead(policy: Policy, db: Db, t: Transaction, theirs: Stamp, jitter: nat, first: set<string>,
                       second: set<string>, stamps: seq<Stamp>, mine: nat)
    requires Normalised(policy) && Inv(db) && CanMislead(policy, db, t, theirs, jitter, first, second, stamps, mine)
    ensures var after := After(db, Visit(policy, db, t.id, theirs, jitter), theirs);
            var looks := [Try(db, Denied(SerializationFailure), Sight(first, Some(t))),
                          Try(after, Granted, Sight(second, None))];
            TriesFit(policy, db, looks, stamps, mine) && Misleads(looks)
  {
    hide Inv, Extends, Visit, Sound;
    VisitIsSound(policy, db, t.id, theirs, jitter);
    var a := Visit(policy, db, t.id, theirs, jitter);
    AnswerKeeps(policy, db, a, theirs);
    SoundIsShort(db, a.eff, theirs);
    ExtendsReflexive(db);
    var after := After(db, a, theirs);
    var looks := [Try(db, Denied(SerializationFailure), Sight(first, Some(t))),
                  Try(after, Granted, Sight(second, None))];
    assert looks[..1][0].saw.found.Some?;
  }

  /**
   * One pass of the worker. `worked` outlives a try that was rolled back: it says that
   * some try found work, whether or not the committed one did.
   */
  method HandleOne(store: Store, policy: Policy, stamps: seq<Stamp>, jitter: nat)
    returns (worked: bool, failed: Option<Error>, ghost looks: seq<Look>)
    requires Normalised(policy) && Inv(store.View()) && 1 <= |stamps|
    modifies store
    ensures 1 <= |looks| <= |stamps| && TriesFit(policy, old(store.View()), looks, stamps, jitter)
    ensures Inv(store.View()) && Extends(old(store.View()), store.View())
    ensures Extends(looks[|looks| - 1].begun, store.View())
    ensures worked <==> FoundWork(looks)
    ensures failed == FailureOf(looks[|looks| - 1].fate)
    ensures failed.None? ==>
              && Visited(policy, looks[|looks| - 1], store.View(), stamps[|looks| - 1], jitter)
              && (looks[|looks| - 1].saw.found.None? ==> looks[|looks| - 1].saw.held == store.heldRows)
    ensures failed.Some? ==>
              store.View() == looks[|looks| - 1].begun && (Transient(failed.value) ==> |looks| == |stamps|)
  {
    hide Inv, Sane, Extends, Visit, OldestDue, TriesFit, FoundWork, Visited, Claimable, Does, LookFits, Prior, Fits;
    worked, failed, looks := false, Some(Unavailable), [];
    var tries := 0;
    ExtendsReflexive(store.View());
    NoLooks(policy, store.View(), stamps, jitter);
    while tries < |stamps|
      invariant tries == |looks| <= |stamps| && TriesFit(policy, old(store.View()), looks, stamps, jitter)
      invariant Inv(store.View()) && Extends(old(store.View()), store.View())
      invariant store.View() == Prior(old(store.View()), looks, tries)
      invariant worked <==> FoundWork(looks)
      invariant 0 < tries ==>
                  && IsRetried(looks[tries - 1].fate) && failed == FailureOf(looks[tries - 1].fate)
                  && store.View() == looks[tries - 1].begun
      modifies store
    {
      ghost var earlier := store.View();
      OthersCommit(store);
      ghost var now := store.View();
      var start := store.View();
      ExtendsTransitive(old(store.View()), earlier, now);
      ExtendsReflexive(now);
      var claimed := store.ClaimDueReference(stamps[tries].now);
      ghost var saw := Sight(store.heldRows, claimed);
      var own, denied: Option<Error> := None, None;
      if claimed.Some? {
        worked := true;
        var pending := claimed.value;
        ClaimedIsDue(now, stamps[tries].now, saw.held, claimed);
        SoundIsSane(now);
        var r := VisitOne(store, policy, pending, stamps[tries], jitter);
        VisitsOwn(policy, now, store.View(), pending.id, stamps[tries], jitter, r);
        if r.Err? { own := Some(r.error); }
      }
      if own.None? { denied := TryCommit(); }
      ghost var l := Try(now, FateOf(own, denied), saw);
      FoundMore(looks, l);
      LookIs(policy, l, store.View(), stamps[tries], jitter, own, denied);
      LooksGrow(policy, old(store.View()), looks, stamps, jitter, l);
      looks := looks + [l];
      tries := tries + 1;
      failed := if own.Some? then own else denied;
      if failed.None? {
        ExtendsTransitive(old(store.View()), now, store.View());
        return;
      }
      store.Restore(start);
      LastBegun(old(store.View()), looks);
      if !Transient(failed.value) { return; }
    }
    ExtendsReflexive(store.View());
  }

  lemma NoLooks(policy: Policy, from: Db, stamps: seq<Stamp>, jitter: nat)
    requires Normalised(policy)
    ensures TriesFit(policy, from, [], stamps, jitter) && !FoundWork([]) && Prior<Sight>(from, [], 0) == from
  {
  }

  /** A visit that answers keeps the invariant; one that errs refused for that. */
  lemma VisitsOwn(policy: Policy, db: Db, after: Db, id: string, stamp: Stamp, jitter: nat, r: Result<SubmitResult>)
    requires Normalised(policy) && Inv(db) && Claimable(db, id)
    requires Does(db, after, Visit(policy, db, id, stamp, jitter), stamp, r)
    ensures OwnError(Visit(policy, db, id, stamp, jitter)) == if r.Err? then Some(r.error) else None
    ensures var a := Visit(policy, db, id, stamp, jitter);
            r.Ok? ==> a.Settled? && after == After(db, a, stamp) && Inv(after) && Extends(db, after)
  {
    hide Inv, Visit, Extends;
    AnswersOwn(db, after, Visit(policy, db, id, stamp, jitter), stamp, r);
    if r.Ok? { VisitKeeps(policy, db, after, id, stamp, jitter, r); }
  }

  lemma LookIs(policy: Policy, l: Look, after: Db, stamp: Stamp, jitter: nat, own: Option<Error>, denied: Option<Error>)
    requires Normalised(policy) && Inv(l.begun) && OldestDue(l.begun.transactions, stamp.now, l.saw.held, l.saw.found)
    requires l.fate == FateOf(own, denied)
    requires Fits(FateOf(None, denied), None)
    requires l.saw.found.None? ==> own.None? && after == l.begun
    requires l.saw.found.Some? && Claimable(l.begun, l.saw.found.value.id) ==>
               var a := Visit(policy, l.begun, l.saw.found.value.id, stamp, jitter);
               own == OwnError(a) && (own.None? ==> a.Settled? && after == After(l.begun, a, stamp))
    ensures LookFits(policy, l, stamp, jitter)
    ensures l.fate.Granted? ==> Visited(policy, l, after, stamp, jitter)
  {
    hide Inv, OldestDue, Visit;
    if l.saw.found.Some? { ClaimedIsDue(l.begun, stamp.now, l.saw.held, l.saw.found); }
  }

  lemma FoundMore(looks: seq<Look>, l: Look)
    ensures FoundWork(looks + [l]) <==> FoundWork(looks) || l.saw.found.Some?
  {
    var all := looks + [l];
    if FoundWork(looks) {
      var i :| 0 <= i < |looks| && looks[i].saw.found.Some?;
      assert all[i].saw.found.Some?;
    }
    assert all[|looks|] == l;
  }

  /** A pass of a batch that reported work: what its tries saw, what it left, and the stamp it committed under. */
  datatype Pass = Pass(looks: seq<Look>, after: Db, stamp: Stamp)

  function Last(p: Pass): Look
    requires p.looks != []
  {
    p.looks[|p.looks| - 1]
  }

  ghost predicate PassFits(policy: Policy, p: Pass, jitter: nat)
    requires Normalised(policy)
  {
    p.looks != [] && FoundWork(p.looks) && Visited(policy, Last(p), p.after, p.stamp, jitter)
  }

  /** Each pass committed on what the one before it left, or on more. */
  ghost predicate InTurn(from: Db, passes: seq<Pass>) {
    forall i :: 0 <= i < |passes| ==>
      passes[i].looks != [] && Extends(LeftBefore(from, passes, i), Last(passes[i]).begun)
  }

  function LeftBefore(from: Db, passes: seq<Pass>, i: nat): Db
    requires i <= |passes|
  {
    if i == 0 then from else passes[i - 1].after
  }

  lemma OneMoreInTurn(from: Db, passes: seq<Pass>, p: Pass)
    requires InTurn(from, passes) && p.looks != [] && Extends(LeftBefore(from, passes, |passes|), Last(p).begun)
    ensures InTurn(from, passes + [p])
  {
    hide Extends;
    var more := passes + [p];
    forall i | 0 <= i < |more|
      ensures more[i].looks != [] && Extends(LeftBefore(from, more, i), Last(more[i]).begun)
    {
      assert LeftBefore(from, more, i) == LeftBefore(from, passes, i);
      assert i < |passes| ==> more[i] == passes[i];
    }
  }

  /** How many passes of a batch committed a visit. */
  function CommittedVisits(passes: seq<Pass>): nat {
    if passes == [] then 0
    else
      var p := passes[|passes| - 1];
      CommittedVisits(passes[..|passes| - 1]) + (if p.looks != [] && Last(p).saw.found.Some? then 1 else 0)
  }

  function MisleadingPasses(passes: seq<Pass>): nat {
    if passes == [] then 0
    else MisleadingPasses(passes[..|passes| - 1]) + (if Misleads(passes[|passes| - 1].looks) then 1 else 0)
  }

  /** The passes a batch counts are those that committed a visit and those that mislead, and no others. */
  lemma {:induction false} CountedPasses(passes: seq<Pass>)
    requires forall i :: 0 <= i < |passes| ==> passes[i].looks != [] && FoundWork(passes[i].looks)
    ensures |passes| == CommittedVisits(passes) + MisleadingPasses(passes)
  {
    if passes != [] {
      CountedPasses(passes[..|passes| - 1]);
      WorkedMisleadsExactly(passes[|passes| - 1].looks);
    }
  }

  /** One batch: each item in its own unit of work, with ids of its own, until there is nothing to claim. */
  method RunOnce(store: Store, policy: Policy, batchSize: nat, stamps: seq<seq<Stamp>>, jitter: nat)
    returns (handled: nat, failed: Option<Error>, ghost passes: seq<Pass>, ghost last: seq<Look>)
    requires Normalised(policy) && Inv(store.View())
    requires |stamps| == batchSize && forall i :: 0 <= i < |stamps| ==> 1 <= |stamps[i]|
    modifies store
    ensures Inv(store.View()) && Extends(old(store.View()), store.View())
    ensures handled <= batchSize && |passes| == handled
    ensures forall i :: 0 <= i < |passes| ==> PassFits(policy, passes[i], jitter)
    ensures InTurn(old(store.View()), passes)
    ensures handled == CommittedVisits(passes) + MisleadingPasses(passes)
    ensures failed.Some? ==>
              && handled < batchSize && last != []
              && TriesFit(policy, LeftBefore(old(store.View()), passes, handled), last, stamps[handled], jitter)
              && failed == FailureOf(last[|last| - 1].fate)
              && (IsRetried(last[|last| - 1].fate) ==> |last| == |stamps[handled]|)
    ensures failed.None? && handled < batchSize ==>
              exists s :: s in stamps[handled] && OldestDue(store.transactions, s.now, store.heldRows, None)
  {
    hide Inv, Extends, Visit, OldestDue, Visited, CommittedVisits, MisleadingPasses, Misleads, FoundWork, InTurn,
      TriesFit;
    handled, failed, passes, last := 0, None, [], [];
    ExtendsReflexive(store.View());
    NoPasses(store.View());
    while handled < batchSize
      invariant handled <= batchSize && Inv(store.View()) && Extends(old(store.View()), store.View())
      invariant |passes| == handled && handled == CommittedVisits(passes) + MisleadingPasses(passes)
      invariant store.View() == LeftBefore(old(store.View()), passes, |passes|)
      invariant InTurn(old(store.View()), passes)
      invariant forall i :: 0 <= i < |passes| ==> PassFits(policy, passes[i], jitter)
      modifies store
      decreases batchSize - handled
    {
      ghost var before := store.View();
      var worked, error, looks := HandleOne(store, policy, stamps[handled], jitter);
      ExtendsTransitive(old(store.View()), before, store.View());
      if error.Some? { return handled, error, passes, looks; }
      ghost var stamp := stamps[handled][|looks| - 1];
      if !worked {
        NothingToClaim(policy, looks, store.View(), stamp, jitter);
        assert OldestDue(store.transactions, stamp.now, store.heldRows, None);
        return;
      }
      LastLookBegan(policy, before, looks, stamps[handled], jitter);
      ghost var pass := Pass(looks, store.View(), stamp);
      OneMoreInTurn(old(store.View()), passes, pass);
      passes := passes + [pass];
      CountedPasses(passes);
      handled := handled + 1;
    }
  }

  lemma NoPasses(from: Db)
    ensures InTurn(from, [])
    ensures CommittedVisits([]) == 0 && MisleadingPasses([]) == 0
  {
  }

  lemma NothingToClaim(policy: Policy, looks: seq<Look>, after: Db, stamp: Stamp, jitter: nat)
    requires Normalised(policy) && looks != [] && !FoundWork(looks)
    requires Visited(policy, looks[|looks| - 1], after, stamp, jitter)
    ensures looks[|looks| - 1].saw.found.None?
    ensures OldestDue(after.transactions, stamp.now, looks[|looks| - 1].saw.held, None)
  {
    hide OldestDue;
    assert looks[|looks| - 1].saw.found.None?;
  }

  lemma LastLookBegan(policy: Policy, from: Db, looks: seq<Look>, stamps: seq<Stamp>, jitter: nat)
    requires Normalised(policy) && TriesFit(policy, from, looks, stamps, jitter) && looks != []
    ensures Extends(from, looks[|looks| - 1].begun)
  {
    hide Inv, Extends, LookFits, InSequence;
    TryBegan(from, looks, |looks| - 1);
  }

  /* ---- the queue ---- */

  lemma InboxPlaysNoPart(policy: Policy, db: Db, inbox: map<(string, string), InboxRow>, parsed: Result<Request>,
                         stamp: Stamp, jitter: nat)
    requires Normalised(policy)
    ensures Submit(policy, db.(inbox := inbox), parsed, stamp, jitter) == Submit(policy, db, parsed, stamp, jitter)
    ensures var a := Submit(policy, db, parsed, stamp, jitter);
            After(db.(inbox := inbox), a, stamp) == After(db, a, stamp).(inbox := inbox)
  {
    hide SettleSubmit, FindByBusinessId, Resolve, NewExternal, FreshIdentity, FreshEvents, Recorded;
  }

  lemma ClaimIsSane(db: Db, inbox: map<(string, string), InboxRow>)
    requires Inv(db)
    ensures Sane(db.(inbox := inbox))
  {
    SoundIsSane(db);
    assert db.(inbox := inbox).(inbox := map[]) == db.(inbox := map[]);
  }

  /**
   * What a try came to: an error, a message found handled, a command no rule lets through, or an
   * operation's answer.
   */
  datatype Handling = Errored(error: Error) | AlreadyDone | Discarded | Applied(result: SubmitResult)

  /**
   * What a try on this state comes to: it errs for a first delivery that is not through,
   * or for what a submission is refused other than by a domain rule.
   */
  ghost predicate HandledAs(policy: Policy, begun: Db, key: (string, string), command: SubmitCommand, stamp: Stamp,
                            jitter: nat, h: Handling)
    requires Normalised(policy)
  {
    var a := Submit(policy, begun, Parse(command), stamp, jitter);
    var unfinished := key in begun.inbox && begun.inbox[key].payloadHash == PayloadHash(command)
                      && begun.inbox[key].completedAt == 0;
    match h
    case Errored(e) =>
      || (unfinished && e == SerializationFailure)
      || (key !in begun.inbox && a == Refused(e) && !e.Domain?)
    case AlreadyDone => key in begun.inbox && !unfinished
    case Discarded => key !in begun.inbox && a.Refused? && a.error.Domain?
    case Applied(result) =>
      key !in begun.inbox &&
      match a
      case Replayed(t) => result == SubmitResult(t, t.balanceAfter, true)
      case Refused(_) => false
      case Settled(eff) => result == SubmitResult(eff.row, eff.Balance(), false)
  }

  /** The handling and its inbox record, in one transaction. */
  method ApplyMessage(store: Store, policy: Policy, consumer: string, id: string, command: SubmitCommand, stamp: Stamp,
                      jitter: nat)
    returns (h: Handling)
    requires Normalised(policy) && Inv(store.View())
    modifies store
    ensures HandledAs(policy, old(store.View()), (consumer, id), command, stamp, jitter, h)
    ensures var e := Envelope.Request(id, command);
            var (after, disposal) := Deliver(policy, old(store.View()), consumer, e, stamp, jitter);
            && (h.Errored? <==> disposal.Release?)
            && (!h.Errored? ==> store.View() == after)
  {
    hide Inv, Sane, Submit, Parse, PayloadHash, Extends;
    ghost var before := store.View();
    var hash := ComputePayloadHash(command);
    var key := (consumer, id);
    var claimed := store.ClaimMessage(key, hash, stamp.now);
    if claimed.Err? {
      var seen := AlreadySeen(store, key, hash);
      return if seen.Some? then Errored(seen.value) else AlreadyDone;
    }
    ghost var a := Submit(policy, before, Parse(command), stamp, jitter);
    InboxPlaysNoPart(policy, before, store.inbox, Parse(command), stamp, jitter);
    ClaimIsSane(before, store.inbox);
    var applied := ExecuteIn(store, policy, command, stamp, jitter);
    if applied.Err? && !applied.error.Domain? { return Errored(applied.error); }
    var completed := store.CompleteMessage(key, stamp.now);
    assert completed.Ok?;
    h := if applied.Ok? then Applied(applied.value) else Discarded;
  }

  /** What a repeat delivery means: nothing to do, unless the first is not through. */
  method AlreadySeen(store: Store, key: (string, string), hash: string) returns (error: Option<Error>)
    requires key in store.inbox
    ensures error == if store.inbox[key].payloadHash == hash && store.inbox[key].completedAt == 0
                     then Some(SerializationFailure) else None
  {
    var seen := store.FindMessage(key);
    if seen.value.payloadHash != hash { return None; }
    if seen.value.completedAt == 0 { return Some(SerializationFailure); }
    return None;
  }

  type Attempt = Try<Handling>

  function HandlingError(h: Handling): Option<Error> { if h.Errored? then Some(h.error) else None }

  predicate DidWork(h: Handling) { h.Discarded? || h.Applied? }

  /** Some try did the work, whether or not it was committed. */
  predicate SomeoneWorked(tries: seq<Attempt>) {
    exists i :: 0 <= i < |tries| && DidWork(tries[i].saw)
  }

  /** The answer of the last try that had one. */
  function Answered(tries: seq<Attempt>): Option<SubmitResult> {
    if tries == [] then None
    else if tries[|tries| - 1].saw.Applied? then Some(tries[|tries| - 1].saw.result)
    else Answered(tries[..|tries| - 1])
  }

  ghost predicate AttemptsFit(policy: Policy, from: Db, tries: seq<Attempt>, key: (string, string),
                              command: SubmitCommand, stamps: seq<Stamp>, jitter: nat)
    requires Normalised(policy)
  {
    && |tries| <= |stamps| && InSequence(from, tries)
    && forall i :: 0 <= i < |tries| ==>
         && HandledAs(policy, tries[i].begun, key, command, stamps[i], jitter, tries[i].saw)
         && Fits(tries[i].fate, HandlingError(tries[i].saw))
  }

  lemma AttemptsGrow(policy: Policy, from: Db, tries: seq<Attempt>, key: (string, string), command: SubmitCommand,
                     stamps: seq<Stamp>, jitter: nat, t: Attempt)
    requires Normalised(policy) && AttemptsFit(policy, from, tries, key, command, stamps, jitter)
    requires |tries| < |stamps| && Inv(t.begun) && Extends(Prior(from, tries, |tries|), t.begun)
    requires HandledAs(policy, t.begun, key, command, stamps[|tries|], jitter, t.saw)
    requires Fits(t.fate, HandlingError(t.saw))
    requires tries != [] ==> IsRetried(tries[|tries| - 1].fate)
    ensures AttemptsFit(policy, from, tries + [t], key, command, stamps, jitter)
  {
    hide Inv, Extends, HandledAs, Prior, InSequence;
    OneMoreTry(from, tries, t);
  }

  lemma OneMoreAttempt(tries: seq<Attempt>, t: Attempt)
    ensures SomeoneWorked(tries + [t]) <==> SomeoneWorked(tries) || DidWork(t.saw)
    ensures Answered(tries + [t]) == if t.saw.Applied? then Some(t.saw.result) else Answered(tries)
  {
    var more := tries + [t];
    assert more[|tries|] == t && more[..|tries|] == tries;
    if SomeoneWorked(tries) {
      var i :| 0 <= i < |tries| && DidWork(tries[i].saw);
      assert DidWork(more[i].saw);
    }
  }

  /** What one try alone would have reported. */
  function OwnAnswer(h: Handling): Option<SubmitResult> { if h.Applied? then Some(h.result) else None }

  /**
   * A committed delivery is reported as done here, against its own try, iff that try
   * found the message handled and an earlier one had done the work; and it is reported
   * with an answer that is not its own iff it has none and an earlier try had one.
   */
  lemma ReportMisleadsExactly(tries: seq<Attempt>)
    requires tries != [] && !tries[|tries| - 1].saw.Errored?
    ensures var front, last := tries[..|tries| - 1], tries[|tries| - 1].saw;
            && ((SomeoneWorked(tries) <==> DidWork(last)) <==> !(last.AlreadyDone? && SomeoneWorked(front)))
            && (Answered(tries) == OwnAnswer(last) <==> last.Applied? || Answered(front).None?)
  {
    var front := tries[..|tries| - 1];
    OneMoreAttempt(front, tries[|tries| - 1]);
    assert front + [tries[|tries| - 1]] == tries;
  }

  /**
   * Such a report can happen: the first try is denied its commit, another instance handles
   * the same message, and the second try reports the first one's operation, which was
   * never stored.
   */
  lemma ReportCanMislead(policy: Policy, db: Db, consumer: string, id: string, command: SubmitCommand,
                         stamps: seq<Stamp>, jitter: nat, theirs: Stamp)
    requires Normalised(policy) && Inv(db) && |stamps| == 2 && (consumer, id) !in db.inbox && 0 < theirs.now
    requires Submit(policy, db, Parse(command), stamps[0], jitter).Settled?
    requires Submit(policy, db, Parse(command), theirs, jitter).Settled?
    requires theirs.transactionId != stamps[0].transactionId
    ensures var after := Deliver(policy, db, consumer, Envelope.Request(id, command), theirs, jitter).0;
            var eff := Submit(policy, db, Parse(command), stamps[0], jitter).eff;
            var result := SubmitResult(eff.row, eff.Balance(), false);
            var tries := [Try(db, Denied(SerializationFailure), Applied(result)), Try(after, Granted, AlreadyDone)];
            && AttemptsFit(policy, db, tries, (consumer, id), command, stamps, jitter)
            && SomeoneWorked(tries) && Answered(tries) == Some(result) && eff.row.id !in after.transactions
  {
    hide Inv, Submit, Extends, Parse, PayloadHash, Sound, Recorded;
    var e, a := Envelope.Request(id, command), Submit(policy, db, Parse(command), theirs, jitter);
    NextKeeps(policy, db, DeliverAction(consumer, e, theirs, jitter));
    SubmitIsSound(policy, db, Parse(command), theirs, jitter);
    SoundIsShort(db, a.eff, theirs);
    SubmitIsSound(policy, db, Parse(command), stamps[0], jitter);
    SettledIsUnseen(db, Submit(policy, db, Parse(command), stamps[0], jitter).eff, stamps[0]);
    ExtendsReflexive(db);
    var eff := Submit(policy, db, Parse(command), stamps[0], jitter).eff;
    var first := Try(db, Denied(SerializationFailure), Applied(SubmitResult(eff.row, eff.Balance(), false)));
    var second := Try(Deliver(policy, db, consumer, e, theirs, jitter).0, Granted, AlreadyDone);
    OneMoreAttempt([], first);
    OneMoreAttempt([first], second);
    assert [] + [first] == [first] && [first] + [second] == [first, second];
  }

  lemma SettledIsUnseen(db: Db, eff: Effect, stamp: Stamp)
    requires Sound(db, eff, stamp) && !eff.known
    ensures eff.row.id !in db.transactions
  {
    UnseenRow(db, eff, stamp);
  }

  /**
   * One delivery: its effect and record commit together before it is deleted, or it is
   * released. What it reports outlives a try that was rolled back.
   */
  method HandleMessage(store: Store, policy: Policy, consumer: string, e: Envelope, stamps: seq<Stamp>, jitter: nat)
    returns (disposal: Disposal, worked: bool, result: Option<SubmitResult>, ghost tries: seq<Attempt>)
    requires Normalised(policy) && Inv(store.View()) && 1 <= |stamps|
    requires forall i :: 0 <= i < |stamps| ==> 0 < stamps[i].now
    modifies store
    ensures Inv(store.View()) && Extends(old(store.View()), store.View())
    ensures !e.Request? ==>
              disposal.Delete? && store.View() == old(store.View()) && tries == [] && !worked && result.None?
    ensures e.Request? ==>
              && 1 <= |tries|
              && AttemptsFit(policy, old(store.View()), tries, (consumer, e.messageId), e.command, stamps, jitter)
              && (disposal.Delete? <==> tries[|tries| - 1].fate.Granted?)
              && (IsRetried(tries[|tries| - 1].fate) ==> |tries| == |stamps|)
    ensures e.Request? && disposal.Delete? ==>
              && (store.View(), Delete)
                 == Deliver(policy, tries[|tries| - 1].begun, consumer, e, stamps[|tries| - 1], jitter)
              && (worked <==> SomeoneWorked(tries)) && result == Answered(tries)
    ensures e.Request? && disposal.Release? ==> store.View() == tries[|tries| - 1].begun && !worked && result.None?
  {
    hide Inv, Extends, Deliver, AttemptsFit, SomeoneWorked, Answered, HandledAs, Prior, Fits, FateOf, IsRetried;
    disposal, worked, result, tries := Release, false, None, [];
    ExtendsReflexive(store.View());
    if !e.Request? {
      return Delete, false, None, [];
    }
    ghost var key := (consumer, e.messageId);
    var n := 0;
    NoAttempts(policy, store.View(), key, e.command, stamps, jitter);
    while n < |stamps|
      invariant n == |tries| <= |stamps| && disposal.Release?
      invariant AttemptsFit(policy, old(store.View()), tries, key, e.command, stamps, jitter)
      invariant Inv(store.View()) && store.View() == Prior(old(store.View()), tries, n)
      invariant Extends(old(store.View()), store.View())
      invariant 0 < n ==> IsRetried(tries[n - 1].fate) && !tries[n - 1].fate.Granted?
      invariant 0 < n ==> store.View() == tries[n - 1].begun
      invariant (worked <==> SomeoneWorked(tries)) && result == Answered(tries)
      modifies store
    {
      ghost var earlier := store.View();
      OthersCommit(store);
      ghost var begun := store.View();
      var start := store.View();
      ExtendsTransitive(old(store.View()), earlier, begun);
      ExtendsReflexive(begun);
      var h := ApplyMessage(store, policy, consumer, e.messageId, e.command, stamps[n], jitter);
      var denied: Option<Error> := None;
      if !h.Errored? { denied := TryCommit(); }
      ghost var t := Try(begun, FateOf(HandlingError(h), denied), h);
      AttemptsGrow(policy, old(store.View()), tries, key, e.command, stamps, jitter, t);
      OneMoreAttempt(tries, t);
      tries, n := tries + [t], n + 1;
      LastBegun(old(store.View()), tries);
      TransientIsRetried(t.fate);
      if DidWork(h) { worked := true; }
      if h.Applied? { result := Some(h.result); }
      var failure := if h.Errored? then Some(h.error) else denied;
      if failure.None? {
        NextKeeps(policy, begun, DeliverAction(consumer, e, stamps[n - 1], jitter));
        ExtendsTransitive(old(store.View()), begun, store.View());
        disposal := Delete;
        return;
      }
      store.Restore(start);
      if !Transient(failure.value) { break; }
    }
    worked, result := false, None;
  }

  lemma NoAttempts(policy: Policy, from: Db, key: (string, string), command: SubmitCommand, stamps: seq<Stamp>,
                   jitter: nat)
    requires Normalised(policy)
    ensures AttemptsFit(policy, from, [], key, command, stamps, jitter) && !SomeoneWorked([]) && Answered([]) == None
    ensures Prior<Handling>(from, [], 0) == from
  {
  }

  /* ---- opening a wallet ---- */

  /** The key that stands in an opening's way, in the order they are tried. */
  ghost function OpeningTaken(db: Db, o: Opened, stamp: Stamp): Option<Error> {
    if o.wallet.id in db.wallets then Some(Conflict(WalletKey))
    else if exists id :: id in db.wallets && db.wallets[id].playerId == o.wallet.playerId
                         && db.wallets[id].balance.currency == o.wallet.balance.currency
    then Some(Conflict(OneWalletPerPlayerAndCurrency))
    else if o.credit.None? then None
    else if stamp.transactionId in db.transactions then Some(Conflict(TransactionKey))
    else if exists i :: 0 <= i < |db.ledger| && db.ledger[i].id == stamp.entryId then Some(Conflict(LedgerKey))
    else if stamp.firstEvent == stamp.secondEvent
            || exists i :: 0 <= i < |db.outbox| && db.outbox[i].eventId in {stamp.firstEvent, stamp.secondEvent}
    then Some(Conflict(OutboxKey))
    else None
  }

  lemma TakenIsNotAdmitted(db: Db, o: Opened, stamp: Stamp)
    requires o.credit.Some? ==> o.credit.value.0.id == stamp.transactionId && o.credit.value.1.id == stamp.entryId
    ensures OpeningTaken(db, o, stamp).None? <==> OpeningAdmitted(db, o, stamp)
  {
  }

  /** Writes the wallet and, when it opens with money, its operation, entry and events. */
  method OpenIn(store: Store, o: Opened, stamp: Stamp) returns (r: Result<()>)
    requires Inv(store.View()) && (o.credit.Some? ==> Credited(o)) && |OpeningEvents(o)| <= 2
    requires o.credit.Some? ==> o.credit.value.0.id == stamp.transactionId && o.credit.value.1.id == stamp.entryId
    modifies store
    ensures r == match OpeningTaken(old(store.View()), o, stamp) case None => Ok(()) case Some(e) => Err(e)
    ensures r.Ok? ==> store.View() == CommitOpening(old(store.View()), o, stamp)
  {
    hide Inv, EventsOf, FreshEvents, RowFits, StatusFits, SchemaAccepts, EventsForOutcome;
    ghost var before := store.View();
    if o.credit.Some? { OpeningRowsAreNew(before, o); }
    var inserted := store.InsertWallet(o.wallet);
    if inserted.Err? { return inserted; }
    if o.credit.None? { return Ok(()); }
    var (row, entry) := o.credit.value;
    inserted := store.InsertTransaction(row);
    if inserted.Err? { return inserted; }
    inserted := store.AppendEntry(entry);
    if inserted.Err? { return inserted; }
    OpeningEventsAgree(o);
    var events := EventsForOutcome(row, Some(Movement(o.wallet, entry)));
    assert events.Ok?;
    r := Record(store, events.value, stamp);
    BothIdsAreUsed(before.outbox, o, stamp);
  }

  lemma BothIdsAreUsed(outbox: seq<OutboxRow>, o: Opened, stamp: Stamp)
    requires Credited(o)
    ensures FreshEvents(outbox, OpeningEvents(o), stamp) <==>
            FreshEvent(outbox, stamp.firstEvent) && FreshEvent(outbox, stamp.secondEvent)
            && stamp.firstEvent != stamp.secondEvent
  {
    TwoEvents(o.credit.value.0, Movement(o.wallet, o.credit.value.1));
  }

  lemma OpeningEventsAgree(o: Opened)
    requires Credited(o)
    ensures EventsForOutcome(o.credit.value.0, Some(Movement(o.wallet, o.credit.value.1))) == Ok(OpeningEvents(o))
  {
    var (row, entry) := o.credit.value;
    assert OpeningEvents(o) == [TransactionProcessed(Fact(row), row.updatedAt), Change(o.wallet, entry)];
    assert NewProcessed(row) == Ok(TransactionProcessed(Fact(row), row.updatedAt));
    assert NewBalanceChanged(o.wallet, entry) == Ok(Change(o.wallet, entry));
  }

  /** Only the keys can refuse an opening: its own rows are well-shaped and collide with nothing else. */
  lemma OpeningRowsAreNew(db: Db, o: Opened)
    requires Inv(db) && Credited(o)
    ensures SchemaAccepts(o.credit.value.0)
    ensures var row := o.credit.value.0;
            && (o.wallet.id !in db.wallets ==>
                  forall id :: id in db.transactions ==>
                    !SameBusiness(db.transactions[id], row) && !SameKey(db.transactions[id], row)
                    && !SameOpening(db.transactions[id], row) && !SameReference(db.transactions[id], row))
            && (row.id !in db.transactions ==> !HasEntry(db.ledger, row.id))
  {
    hide BooksBalance, LogComplete, Unique, ReversalsResolve, StatusFits, SchemaAccepts;
    var row := o.credit.value.0;
    if o.wallet.id !in db.wallets { NothingBeforeOpening(db, o.wallet.id); }
    if row.id !in db.transactions {
      forall i | 0 <= i < |db.ledger|
        ensures db.ledger[i].transactionId != row.id
      {
        assert Explains(db.transactions, db.ledger[i]);
      }
    }
  }

  /** What is wrong with an opening's arguments, in the order they are checked. */
  function OpeningRefused(playerId: string, amount: string, currency: string, walletId: string, stamp: Stamp)
    : Option<Error>
  {
    if playerId == "" || 128 < |playerId| then Some(Domain(InvalidIdentifier))
    else if !IsCurrency(currency) then Some(Domain(InvalidCurrency))
    else
      match ParseMinor(amount)
      case Err(e) => Some(e)
      case Ok(minor) =>
        if minor < 0 then Some(Domain(NegativeAmount))
        else if walletId == "" then Some(Domain(InvalidIdentifier))
        else if stamp.now == 0 then Some(Domain(InvalidTimestamp))
        else if 0 < minor && (stamp.transactionId == "" || stamp.entryId == "") then Some(Domain(InvalidIdentifier))
        else None
  }

  /** The wallet that is opened, and its credit if it opens with money. */
  function Opens(playerId: string, minor: int64, currency: string, walletId: string, stamp: Stamp): Opened {
    var balance := Money(minor, currency);
    Opened(Wallet(walletId, playerId, balance, 1, stamp.now, stamp.now),
           if minor == 0 then None
           else Some((Transaction(stamp.transactionId, Internal, OpeningCredit, Processed, walletId, playerId, balance,
                                  "", "", "", "", "", "", "", "", NoCode, 0, 0, 0, balance, stamp.now, stamp.now),
                      Entry(stamp.entryId, walletId, stamp.transactionId, Credit, balance, Money(0, currency), balance,
                            stamp.now))))
  }

  lemma OpenByTable(playerId: string, amount: string, currency: string, walletId: string, stamp: Stamp)
    requires IsIdentifier(playerId) && IsCurrency(currency) && ParseMinor(amount).Ok? && 0 <= ParseMinor(amount).value
    ensures Open(playerId, Money(ParseMinor(amount).value, currency), walletId, stamp)
            == match OpeningRefused(playerId, amount, currency, walletId, stamp)
               case Some(e) => Err(e)
               case None => Ok(Opens(playerId, ParseMinor(amount).value, currency, walletId, stamp))
  {
    hide ParseMinor;
  }

  /** Each try fails for the key in its way, or was denied. */
  ghost predicate OpeningTries(tries: seq<Try<()>>, o: Opened, stamp: Stamp) {
    forall i :: 0 <= i < |tries| ==> Fits(tries[i].fate, OpeningTaken(tries[i].begun, o, stamp))
  }

  /**
   * Opens a wallet for a player: everything is written in one commit, or nothing. It is
   * refused for what is wrong with its arguments, for the key in the way of its last try,
   * or because the database denied that try's commit, and for nothing else.
   */
  method OpenWallet(store: Store, playerId: string, amount: string, currency: string, walletId: string, stamp: Stamp,
                    maxAttempts: nat)
    returns (r: Result<Wallet>, ghost tries: seq<Try<()>>)
    requires Inv(store.View()) && 1 <= maxAttempts
    modifies store
    ensures Inv(store.View()) && Extends(old(store.View()), store.View())
    ensures var refused := OpeningRefused(playerId, amount, currency, walletId, stamp);
            if refused.Some? then r == Err(refused.value) && tries == [] && store.View() == old(store.View())
            else
              var o := Opens(playerId, ParseMinor(amount).value, currency, walletId, stamp);
              && 1 <= |tries| <= maxAttempts && InSequence(old(store.View()), tries) && OpeningTries(tries, o, stamp)
              && (IsRetried(tries[|tries| - 1].fate) ==> |tries| == maxAttempts)
              && match FailureOf(tries[|tries| - 1].fate)
                 case Some(e) => r == Err(e) && store.View() == tries[|tries| - 1].begun
                 case None => r == Ok(o.wallet) && store.View() == CommitOpening(tries[|tries| - 1].begun, o, stamp)
  {
    hide Inv, Extends, Open, OpeningAdmitted, CommitOpening, EventsOf, ParseMinor, Credited, OpeningTaken, Prior,
      InSequence;
    tries := [];
    ExtendsReflexive(store.View());
    NoTries(store.View(), tries);
    if !IsIdentifier(playerId) { return Err(Domain(InvalidIdentifier)), []; }
    if !IsCurrency(currency) { return Err(Domain(InvalidCurrency)), []; }
    var minor := ScanMinor(amount);
    if minor.Err? { return Err(minor.error), []; }
    if minor.value < 0 { return Err(Domain(NegativeAmount)), []; }
    var initial := Money(minor.value, currency);
    var o := Open(playerId, initial, walletId, stamp);
    OpenByTable(playerId, amount, currency, walletId, stamp);
    if o.Err? { return Err(o.error), []; }
    OpenShape(playerId, initial, walletId, stamp);
    OpeningIsTwo(o.value);
    var n := 0;
    r := Err(Unavailable);
    while n < maxAttempts
      invariant n == |tries| <= maxAttempts && OpeningTries(tries, o.value, stamp)
      invariant InSequence(old(store.View()), tries)
      invariant Inv(store.View()) && store.View() == Prior(old(store.View()), tries, n)
      invariant Extends(old(store.View()), store.View())
      invariant 0 < n ==>
                  && IsRetried(tries[n - 1].fate) && store.View() == tries[n - 1].begun
                  && r == Err(FailureOf(tries[n - 1].fate).value)
      modifies store
    {
      ghost var earlier := store.View();
      OthersCommit(store);
      ghost var begun := store.View();
      ExtendsTransitive(old(store.View()), earlier, begun);
      ExtendsReflexive(begun);
      var start := store.View();
      n := n + 1;
      TakenIsNotAdmitted(begun, o.value, stamp);
      var written := OpenIn(store, o.value, stamp);
      var own := if written.Err? then Some(written.error) else None;
      var denied: Option<Error> := None;
      if own.None? { denied := TryCommit(); }
      ghost var t := Try(begun, FateOf(own, denied), ());
      OneMoreTry(old(store.View()), tries, t);
      tries := tries + [t];
      LastBegun(old(store.View()), tries);
      var failed := if own.Some? then own else denied;
      if failed.None? {
        OpeningKeepsInvariant(begun, playerId, initial, walletId, stamp);
        ExtendsTransitive(old(store.View()), begun, store.View());
        r := Ok(o.value.wallet);
        return;
      }
      store.Restore(start);
      r := Err(failed.value);
      if !Transient(failed.value) { return; }
    }
  }

  lemma OpeningIsTwo(o: Opened)
    ensures |OpeningEvents(o)| <= 2
  {
  }
}
