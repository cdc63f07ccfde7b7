/** Nobody waits for ever: whoever is in the way is further along, and other wallets are never in the way. */
module Progress {
  import opened Base
  import opened Domain
  import opened Tables
  import opened Steps
  import opened Decisions
  import opened Serial
  import opened ExactlyOnce
  import opened Interleaving
  import opened Guards

  /* ---- who waits for whom ---- */

  /** This unit of work's next statement has to wait until that one ends. */
  ghost predicate Blocks(policy: Policy, locking: bool, s: System, tid: string, other: string)
    requires Normalised(policy)
  {
    && tid in s.live && other in s.live && tid != other
    && var next := Statement(policy, s.db, s.live[tid]);
       next.Go? && !(Compatible(locking, next.next, s.live[other]) && Compatible(locking, s.live[other], next.next))
  }

  /** How far along a unit of work is. */
  function Rank(t: Txn): nat {
    match t.phase
    case Arriving => 0
    case Begun => 1
    case Ready(_) => 2
    case Holding(_, _) => 3
    case Judged(_, _, _) => 4
    case Writing(_, _, _, _, done) => 5 + done
    case Absorbed(_) => LAST
  }

  const LAST := 10

  /** A statement that goes on moves its unit of work forward; what it newly takes, it takes at one place only. */
  lemma GoesForward(policy: Policy, db: Db, t: Txn)
    requires Normalised(policy) && Statement(policy, db, t).Go?
    ensures var next := Statement(policy, db, t).next;
            && Rank(t) < Rank(next) <= LAST && next.job == t.job && next.message == t.message && next.stamp == t.stamp
            && (Claimed(next) ==> Claimed(t) || Rank(t) == 0)
            && (Inserted(next) ==> (Inserted(t) && next.phase.eff == t.phase.eff) || Rank(t) == 5)
            && (Appended(next) ==> (Appended(t) && next.phase.eff == t.phase.eff) || Rank(t) == 7)
            && (Logged(next) ==> Rank(t) == 8)
  {
    hide FindByBusinessId, NewExternal, SettleSubmit, SettleVisit, Judge, Unreversed, FreshIdentity, FreshEntry,
      FreshEvents;
  }

  /** The wallet row is taken by the read under the lock, by the update without it. */
  lemma TakesWallet(policy: Policy, locking: bool, db: Db, t: Txn)
    requires Normalised(policy) && Statement(policy, db, t).Go?
    ensures var next := Statement(policy, db, t).next;
            Held(locking, next).Some? && Held(locking, next) != Held(locking, t) ==> Rank(t) == if locking then 2 else 6
  {
    hide FindByBusinessId, NewExternal, SettleSubmit, SettleVisit, Judge, Unreversed, FreshIdentity, FreshEntry,
      FreshEvents;
  }

  /** Whoever has something has come at least as far as where it is taken. */
  lemma HasComeFar(locking: bool, t: Txn)
    ensures Held(locking, t).Some? ==> Rank(t) >= if locking then 3 else 7
    ensures Claimed(t) ==> Rank(t) >= 1
    ensures Inserted(t) ==> Rank(t) >= 6
    ensures Appended(t) ==> Rank(t) >= 8
    ensures Logged(t) ==> Rank(t) >= 9
  {
  }

  /** Whoever is in the way is further along. */
  lemma BlockerIsAhead(policy: Policy, locking: bool, s: System, tid: string, other: string)
    requires Normalised(policy) && SystemOk(policy, locking, s) && Blocks(policy, locking, s, tid, other)
    ensures Rank(s.live[tid]) < Rank(s.live[other])
  {
    hide LiveOk, Inv, Statement, Held, Claimed, Inserted, Appended, Logged, KeysClash, EventKeys, Rank;
    var t, o := s.live[tid], s.live[other];
    GoesForward(policy, s.db, t);
    TakesWallet(policy, locking, s.db, t);
    HasComeFar(locking, o);
    assert Compatible(locking, t, o) && Compatible(locking, o, t);
  }

  /** A chain of units of work, each waiting for the next. */
  ghost predicate Waiters(policy: Policy, locking: bool, s: System, chain: seq<string>)
    requires Normalised(policy)
  {
    |chain| >= 2 && forall i :: 0 <= i < |chain| - 1 ==> Blocks(policy, locking, s, chain[i], chain[i + 1])
  }

  /** Nobody waits, through however many others, for itself: there is no deadlock. */
  lemma {:induction false} NoCircularWait(policy: Policy, locking: bool, s: System, chain: seq<string>)
    requires Normalised(policy) && SystemOk(policy, locking, s) && Waiters(policy, locking, s, chain)
    ensures chain[0] in s.live && chain[|chain| - 1] in s.live
    ensures Rank(s.live[chain[0]]) < Rank(s.live[chain[|chain| - 1]]) && chain[0] != chain[|chain| - 1]
    decreases |chain|
  {
    hide SystemOk, Rank;
    var n := |chain|;
    assert Blocks(policy, locking, s, chain[n - 2], chain[n - 1]);
    BlockerIsAhead(policy, locking, s, chain[n - 2], chain[n - 1]);
    if n > 2 {
      var front := chain[..n - 1];
      assert forall i :: 0 <= i < n - 1 ==> front[i] == chain[i];
      NoCircularWait(policy, locking, s, front);
    }
  }

  /* ---- everybody can finish ---- */

  predicate Furthest(live: map<string, Txn>, tid: string) {
    tid in live && forall o :: o in live ==> Rank(live[o]) <= Rank(live[tid])
  }

  lemma {:induction false} SomeoneIsFurthest(live: map<string, Txn>) returns (tid: string)
    requires live != map[]
    ensures Furthest(live, tid)
    decreases |live|
  {
    hide Rank;
    tid :| tid in live;
    var rest := live - {tid};
    assert forall o :: o in live ==> o == tid || o in rest;
    if rest != map[] {
      var other := SomeoneIsFurthest(rest);
      assert forall o :: o in live ==> o == tid || (o in rest && rest[o] == live[o]);
      if Rank(live[tid]) < Rank(live[other]) { tid := other; }
    }
  }

  /** Whoever is furthest along waits for nobody: its next statement runs. */
  lemma FurthestGoes(policy: Policy, locking: bool, s: System, tid: string)
    requires Normalised(policy) && SystemOk(policy, locking, s) && Furthest(s.live, tid)
    ensures var next := Statement(policy, s.db, s.live[tid]);
            Step(policy, locking, s, Advance(tid)).live
            == if next.Go? then s.live[tid := next.next] else s.live - {tid}
  {
    hide LiveOk, Inv, Statement, Compatible, Rank, AllCompatible, Outcome;
    var t := s.live[tid];
    match Statement(policy, s.db, t)
    case End =>
    case Go(next) =>
      forall o | o in s.live && o != tid
        ensures Compatible(locking, next, s.live[o]) && Compatible(locking, s.live[o], next)
      {
        if Blocks(policy, locking, s, tid, o) { BlockerIsAhead(policy, locking, s, tid, o); }
      }
    case CommitNow =>
      OnlyTheFinishedCommit(policy, s.db, t);
      if t.phase.Writing? { EffectKeeps(policy, locking, s, tid); }
  }

  function Repeat(tid: string, n: nat): (es: seq<Turn>) {
    if n == 0 then [] else [Advance(tid)] + Repeat(tid, n - 1)
  }

  /** Whoever is furthest along can go on to its end, and stays furthest meanwhile. */
  lemma {:induction false} FurthestFinishes(policy: Policy, locking: bool, s: System, tid: string) returns (n: nat)
    requires Normalised(policy) && SystemOk(policy, locking, s) && Furthest(s.live, tid)
    ensures SystemOk(policy, locking, History(policy, locking, s, Repeat(tid, n)))
    ensures History(policy, locking, s, Repeat(tid, n)).live == s.live - {tid}
    decreases LAST - Rank(s.live[tid])
  {
    hide SystemOk, Statement, Rank, Step;
    var next := Step(policy, locking, s, Advance(tid));
    FurthestGoes(policy, locking, s, tid);
    StepKeeps(policy, locking, s, Advance(tid));
    n := 0;
    if Statement(policy, s.db, s.live[tid]).Go? {
      GoesForward(policy, s.db, s.live[tid]);
      n := FurthestFinishes(policy, locking, next, tid);
      assert s.live[tid := next.live[tid]] - {tid} == s.live - {tid};
    }
    assert ([Advance(tid)] + Repeat(tid, n))[1..] == Repeat(tid, n);
    n := n + 1;
  }

  /** Only statements of units of work that are under way. */
  predicate OnlyAdvances(es: seq<Turn>) { forall i :: 0 <= i < |es| ==> es[i].Advance? }

  lemma {:induction false} RepeatsAdvance(tid: string, n: nat)
    ensures OnlyAdvances(Repeat(tid, n))
  {
    if 0 < n { RepeatsAdvance(tid, n - 1); }
  }

  /**
   * From wherever any interleaving has got to, there is a way on in which every unit of
   * work under way ends by its own statements alone: nobody has to be killed.
   */
  lemma {:induction false} EverybodyCanFinish(policy: Policy, locking: bool, s: System) returns (es: seq<Turn>)
    requires Normalised(policy) && SystemOk(policy, locking, s)
    ensures OnlyAdvances(es) && History(policy, locking, s, es).live == map[]
    decreases |s.live|
  {
    hide SystemOk, Rank, Step;
    es := [];
    if s.live != map[] {
      var tid := SomeoneIsFurthest(s.live);
      var n := FurthestFinishes(policy, locking, s, tid);
      RepeatsAdvance(tid, n);
      var rest := EverybodyCanFinish(policy, locking, History(policy, locking, s, Repeat(tid, n)));
      HistoryConcat(policy, locking, s, Repeat(tid, n), rest);
      es := Repeat(tid, n) + rest;
    }
  }

  /* ---- other wallets ---- */

  function WalletOf(t: Txn): string {
    match t.job
    case SubmitJob(p) => p.walletId
    case VisitJob(claimed) => claimed.walletId
  }

  /** On different wallets, about different operations, and handed different ids. */
  predicate Unrelated(a: Txn, b: Txn) {
    && WalletOf(a) != WalletOf(b) && a.stamp.entryId != b.stamp.entryId
    && {a.stamp.firstEvent, a.stamp.secondEvent} !! {b.stamp.firstEvent, b.stamp.secondEvent}
    && (a.message.None? || a.message != b.message)
    && match (a.job, b.job)
       case (SubmitJob(p), SubmitJob(q)) =>
         && a.stamp.transactionId != b.stamp.transactionId
         && (p.providerId, p.externalId) != (q.providerId, q.externalId)
         && (p.providerId, p.idempotencyKey) != (q.providerId, q.idempotencyKey)
       case (VisitJob(x), VisitJob(y)) => x.id != y.id
       case _ => true
  }

  /** The new row is the request's own. */
  predicate IsTheRequests(t: Txn, row: Transaction) {
    && t.job.SubmitJob? && row.id == t.stamp.transactionId && row.providerId == t.job.request.providerId
    && row.externalId == t.job.request.externalId && row.idempotencyKey == t.job.request.idempotencyKey
  }

  lemma EntryIsItsOwn(policy: Policy, t: Txn, row: Transaction, from: Wallet, v: Verdict)
    requires Normalised(policy)
    ensures var r := Decide(policy, t, row, from, v);
            r.Ok? && r.value.move.Some? ==> r.value.move.value.entry.id == t.stamp.entryId
  {
    hide EventsOf, Window, NextAttemptAt;
  }

  /** A unit of work takes its own wallet, its own keys and the ids it was handed, and nothing else. */
  lemma TakesItsOwn(policy: Policy, locking: bool, db: Db, t: Txn)
    requires Normalised(policy) && LiveOk(policy, db, t)
    ensures Held(locking, t).None? || Held(locking, t) == Some(WalletOf(t))
    ensures Inserted(t) ==> IsTheRequests(t, t.phase.eff.row)
    ensures Appended(t) ==> t.phase.eff.move.value.entry.id == t.stamp.entryId
    ensures Logged(t) ==> EventKeys(t) <= {t.stamp.firstEvent, t.stamp.secondEvent}
  {
    hide Decide, SettleSubmit, SettleVisit, Grounded, NonZero, Written, StillUndone, WalletRead, NewExternal,
      StillAbsorbed;
    if t.phase.Writing? {
      DecisionFollows(policy, t, t.phase.row, t.phase.from, t.phase.v);
      EntryIsItsOwn(policy, t, t.phase.row, t.phase.from, t.phase.v);
      if t.job.SubmitJob? { WritesTheRequests(policy, db, t); }
    }
    if t.job.SubmitJob? && !t.phase.Arriving? && !t.phase.Begun? && !t.phase.Absorbed? {
      NewRowShape(t.stamp.transactionId, t.job.request, t.stamp.now);
    }
  }

  lemma WritesTheRequests(policy: Policy, db: Db, t: Txn)
    requires Normalised(policy) && LiveOk(policy, db, t) && t.phase.Writing? && t.job.SubmitJob?
    ensures IsTheRequests(t, t.phase.eff.row)
  {
    hide SettleSubmit, Grounded, NonZero, Written, StillUndone, WalletRead, NewExternal;
    NewRowShape(t.stamp.transactionId, t.job.request, t.stamp.now);
    SubmitKeepsIdentity(policy, t.phase.row, t.phase.from, t.phase.v, t.stamp, t.jitter);
    IdentityKeeps(t.phase.eff.row, t.phase.row);
  }

  lemma UnrelatedFit(policy: Policy, locking: bool, db: Db, a: Txn, b: Txn)
    requires Normalised(policy) && LiveOk(policy, db, a) && LiveOk(policy, db, b) && Unrelated(a, b)
    ensures Compatible(locking, a, b) && Compatible(locking, b, a)
  {
    hide LiveOk, Held, Inserted, Appended, Logged, EventKeys, WalletOf;
    TakesItsOwn(policy, locking, db, a);
    TakesItsOwn(policy, locking, db, b);
  }

  /** Units of work on different wallets that share no key never wait for each other. */
  lemma UnrelatedNeverBlock(policy: Policy, locking: bool, s: System, a: string, b: string)
    requires Normalised(policy) && SystemOk(policy, locking, s) && a in s.live && b in s.live
    requires Unrelated(s.live[a], s.live[b])
    ensures !Blocks(policy, locking, s, a, b)
  {
    hide LiveOk, Inv, Statement, Compatible, AllCompatible;
    if Statement(policy, s.db, s.live[a]).Go? {
      GoesForward(policy, s.db, s.live[a]);
      StatementKeeps(policy, s.db, s.live[a]);
      UnrelatedFit(policy, locking, s.db, Statement(policy, s.db, s.live[a]).next, s.live[b]);
    }
  }
}
