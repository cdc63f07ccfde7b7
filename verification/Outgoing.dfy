/**
 * Whole histories of publishing: several publishers, passes that crash, a broker that
 * may take what it is thought to have refused, and everything else going on meanwhile.
 */
module Outgoing {
  import opened Base
  import opened Domain
  import opened Commands
  import opened Tables
  import opened Steps
  import opened Decisions
  import opened Openings
  import opened Runs
  import opened Storage
  import opened Interleaving
  import opened Guards
  import opened Outcomes
  import opened Publishing

  /* ---- the system ---- */

  /** What the broker does with an event, and what the publisher comes to know of it. */
  datatype Reply = Taken | Declined | TakenUnheard

  /** What a pass will write for a row it claimed. */
  datatype Settlement = Sent | Postponed(nextAttemptAt: Instant)

  /**
   * A publisher's open transaction: the outbox as it was when it claimed, the rows others
   * held then, the rows it has locked, and what it has settled for the first of them.
   */
  datatype Pass =
    Pass(now: Instant, seen: seq<OutboxRow>, held: set<string>, claimed: seq<OutboxRow>, settled: seq<Settlement>)

  datatype World = World(system: System, passes: map<string, Pass>, accepted: set<(string, Domain.Event)>)

  datatype Happening =
    | Elsewhere(turn: Turn)
    | Claim(publisher: string, now: Instant, limit: nat)
    | Offer(publisher: string, reply: Reply, jitter: nat)
    | Finish(publisher: string)
    | Die(publisher: string)

  predicate Locks(p: Pass, id: string) { Claims(p.claimed, id) }

  /** The events that some publisher has locked: a claim passes over them. */
  function LockedEvents(passes: map<string, Pass>): set<string> {
    set p, row | p in passes && row in passes[p].claimed :: row.eventId
  }

  function Marked(row: OutboxRow, v: Settlement, now: Instant): OutboxRow {
    match v
    case Sent => row.(publishedAt := now)
    case Postponed(at) => row.(attempts := row.attempts + 1, nextAttemptAt := at)
  }

  /** A row after the updates of a pass: the one under its id, if it is still unpublished. */
  function Updated(row: OutboxRow, claimed: seq<OutboxRow>, settled: seq<Settlement>, now: Instant): OutboxRow
    requires |claimed| == |settled|
  {
    if claimed == [] then row
    else
      var n := |claimed| - 1;
      if claimed[n].eventId == row.eventId && row.publishedAt == 0 then Marked(row, settled[n], now)
      else Updated(row, claimed[..n], settled[..n], now)
  }

  function Applied(outbox: seq<OutboxRow>, p: Pass): (after: seq<OutboxRow>)
    requires |p.settled| == |p.claimed|
    ensures |after| == |outbox|
    ensures forall i :: 0 <= i < |after| ==> after[i] == Updated(outbox[i], p.claimed, p.settled, p.now)
  {
    seq(|outbox|, i requires 0 <= i < |outbox| => Updated(outbox[i], p.claimed, p.settled, p.now))
  }

  /** A pass that has just claimed: the first of the due rows that nobody holds. */
  function Claiming(w: World, now: Instant, limit: nat): Pass {
    var outbox, held := w.system.db.outbox, LockedEvents(w.passes);
    Pass(now, outbox, held, Firsts(DueEvents(outbox, now, held), limit), [])
  }

  ghost function Follow(policy: Policy, locking: bool, w: World, h: Happening): World
    requires Normalised(policy)
  {
    match h
    case Elsewhere(turn) => if turn.PublishNow? then w else w.(system := Step(policy, locking, w.system, turn))
    case Claim(publisher, now, limit) =>
      if publisher in w.passes || now == 0 then w
      else w.(passes := w.passes[publisher := Claiming(w, now, limit)])
    case Offer(publisher, reply, jitter) =>
      if publisher !in w.passes || |w.passes[publisher].settled| >= |w.passes[publisher].claimed| then w
      else
        var p := w.passes[publisher];
        var row := p.claimed[|p.settled|];
        var v := if reply.Taken? then Sent else Postponed(NextAttemptAt(policy, p.now, row.attempts + 1, jitter));
        w.(accepted := if reply.Declined? then w.accepted else w.accepted + {(row.eventId, row.event)},
           passes := w.passes[publisher := p.(settled := p.settled + [v])])
    case Finish(publisher) =>
      if publisher !in w.passes || |w.passes[publisher].settled| != |w.passes[publisher].claimed| then w
      else
        var outbox := Applied(w.system.db.outbox, w.passes[publisher]);
        w.(system := Step(policy, locking, w.system, PublishNow(outbox)), passes := w.passes - {publisher})
    case Die(publisher) => w.(passes := w.passes - {publisher})
  }

  ghost function Chronicle(policy: Policy, locking: bool, w: World, hs: seq<Happening>): World
    requires Normalised(policy)
    decreases |hs|
  {
    if hs == [] then w else Chronicle(policy, locking, Follow(policy, locking, w, hs[0]), hs[1..])
  }

  /* ---- the invariant ---- */

  /** Locked rows are still in the outbox as they were claimed, and what is settled as sent was taken. */
  ghost predicate PassOk(outbox: seq<OutboxRow>, accepted: set<(string, Domain.Event)>, p: Pass) {
    && p.now != 0 && |p.settled| <= |p.claimed| && ClaimedFrom(outbox, p.claimed)
    && forall k :: 0 <= k < |p.settled| && p.settled[k].Sent? ==> (p.claimed[k].eventId, p.claimed[k].event) in accepted
  }

  ghost predicate PassesOk(w: World) {
    && (forall p :: p in w.passes ==> PassOk(w.system.db.outbox, w.accepted, w.passes[p]))
    && (forall p, q, id :: p in w.passes && q in w.passes && p != q && Locks(w.passes[p], id) ==>
          !Locks(w.passes[q], id))
  }

  ghost predicate WorldOk(policy: Policy, locking: bool, w: World)
    requires Normalised(policy)
  {
    && SystemOk(policy, locking, w.system)
    && PublishedWereAccepted(w.system.db.outbox, w.accepted)
    && PassesOk(w)
  }

  /* ---- turns of others append unpublished events ---- */

  predicate AppendsUnsent(a: seq<OutboxRow>, b: seq<OutboxRow>) {
    a <= b && forall i :: |a| <= i < |b| ==> b[i].publishedAt == 0
  }

  lemma CommitAppends(db: Db, eff: Effect, stamp: Stamp)
    requires |eff.events| <= 2
    ensures AppendsUnsent(db.outbox, Commit(db, eff, stamp).outbox)
  {
  }

  lemma OpeningAppends(db: Db, o: Opened, stamp: Stamp)
    ensures AppendsUnsent(db.outbox, CommitOpening(db, o, stamp).outbox)
  {
    hide EventsOf;
  }

  lemma OtherTurnsAppend(policy: Policy, locking: bool, s: System, e: Turn)
    requires Normalised(policy) && !e.PublishNow?
    ensures AppendsUnsent(s.db.outbox, Step(policy, locking, s, e).db.outbox)
  {
    hide Statement, Commit, CommitOpening, Open, OpeningAdmitted, OpeningClear, Compatible, Parse, PayloadHash, Enter;
    match e
    case Advance(tid) =>
      if tid in s.live {
        var t := s.live[tid];
        if t.phase.Writing? && |t.phase.eff.events| <= 2 { CommitAppends(s.db, t.phase.eff, t.stamp); }
        EnterKeepsTables(locking, s, tid, Statement(policy, s.db, t));
      }
    case OpenNow(playerId, initial, walletId, stamp) =>
      var o := Open(playerId, initial, walletId, stamp);
      if o.Ok? { OpeningAppends(s.db, o.value, stamp); }
    case BeginSubmit(tid, request, stamp, jitter) =>
      EnterKeepsDb(locking, s, tid, Txn(SubmitJob(request), None, stamp, jitter, Begun));
    case BeginDelivery(tid, message, request, stamp, jitter) =>
      EnterKeepsDb(locking, s, tid, Txn(SubmitJob(request), Some(message), stamp, jitter, Arriving));
    case BeginVisit(tid, id, stamp, jitter) =>
      if id in s.db.transactions {
        EnterKeepsDb(locking, s, tid,
                     Txn(VisitJob(s.db.transactions[id]), None, stamp, jitter, Ready(s.db.transactions[id])));
      }
    case Crash(_) =>
    case AbsorbNow(_, _, _) =>
  }

  lemma EnterKeepsDb(locking: bool, s: System, tid: string, t: Txn)
    ensures Enter(locking, s, tid, t).db == s.db
  {
    hide Compatible;
  }

  lemma EnterKeepsTables(locking: bool, s: System, tid: string, p: Progress)
    ensures p.Go? ==> Enter(locking, s, tid, p.next).db == s.db
  {
    hide Compatible;
  }

  lemma ClaimsStand(a: seq<OutboxRow>, b: seq<OutboxRow>, claimed: seq<OutboxRow>)
    requires AppendsUnsent(a, b) && ClaimedFrom(a, claimed)
    ensures ClaimedFrom(b, claimed)
  {
    forall k | 0 <= k < |claimed|
      ensures claimed[k] in b
    {
      var i :| 0 <= i < |a| && a[i] == claimed[k];
      assert b[i] == a[i];
    }
  }

  lemma ElsewhereKeeps(policy: Policy, locking: bool, w: World, turn: Turn)
    requires Normalised(policy) && WorldOk(policy, locking, w) && !turn.PublishNow?
    ensures WorldOk(policy, locking, Follow(policy, locking, w, Elsewhere(turn)))
  {
    hide SystemOk, Step, ClaimedFrom, Locks;
    StepKeeps(policy, locking, w.system, turn);
    OtherTurnsAppend(policy, locking, w.system, turn);
    var w' := Follow(policy, locking, w, Elsewhere(turn));
    forall p | p in w'.passes
      ensures PassOk(w'.system.db.outbox, w'.accepted, w'.passes[p])
    {
      ClaimsStand(w.system.db.outbox, w'.system.db.outbox, w.passes[p].claimed);
    }
  }

  /* ---- claiming ---- */

  lemma ClaimKeeps(policy: Policy, locking: bool, w: World, publisher: string, now: Instant, limit: nat)
    requires Normalised(policy) && WorldOk(policy, locking, w)
    ensures WorldOk(policy, locking, Follow(policy, locking, w, Claim(publisher, now, limit)))
  {
    hide SystemOk, DueEvents, PublishedWereAccepted, LockedEvents;
    if publisher !in w.passes && now != 0 {
      var outbox, held := w.system.db.outbox, LockedEvents(w.passes);
      assert DistinctEvents(outbox) by { DistinctInSystem(policy, locking, w.system); }
      DueEventsAreClaimable(outbox, now, held);
      FirstsAreClaimable(outbox, DueEvents(outbox, now, held), limit);
      var p := Claiming(w, now, limit);
      assert NoneHeld(p.claimed, held);
      NewPassIsApart(w, publisher, p);
    }
  }

  lemma DistinctInSystem(policy: Policy, locking: bool, s: System)
    requires Normalised(policy) && SystemOk(policy, locking, s)
    ensures DistinctEvents(s.db.outbox) && Inv(s.db)
  {
  }

  lemma LocksAreLocked(passes: map<string, Pass>, q: string, id: string)
    requires q in passes
    ensures Locks(passes[q], id) ==> id in LockedEvents(passes)
  {
    if Locks(passes[q], id) {
      var k :| 0 <= k < |passes[q].claimed| && passes[q].claimed[k].eventId == id;
      assert passes[q].claimed[k] in passes[q].claimed;
    }
  }

  lemma NewPassIsApart(w: World, publisher: string, p: Pass)
    requires PassesOk(w) && publisher !in w.passes && PassOk(w.system.db.outbox, w.accepted, p)
    requires NoneHeld(p.claimed, LockedEvents(w.passes))
    ensures PassesOk(w.(passes := w.passes[publisher := p]))
  {
    hide PassOk, LockedEvents;
    forall q, id | q in w.passes && Locks(p, id)
      ensures !Locks(w.passes[q], id)
    {
      var i :| 0 <= i < |p.claimed| && p.claimed[i].eventId == id;
      assert p.claimed[i].eventId !in LockedEvents(w.passes);
      LocksAreLocked(w.passes, q, id);
    }
  }

  /* ---- offering ---- */

  lemma OfferKeeps(policy: Policy, locking: bool, w: World, publisher: string, reply: Reply, jitter: nat)
    requires Normalised(policy) && WorldOk(policy, locking, w)
    ensures WorldOk(policy, locking, Follow(policy, locking, w, Offer(publisher, reply, jitter)))
  {
    hide SystemOk, ClaimedFrom, Window, NextAttemptAt, Claims;
    var w' := Follow(policy, locking, w, Offer(publisher, reply, jitter));
    AcceptedGrows(w.system.db.outbox, w.accepted, w'.accepted);
    forall p | p in w'.passes
      ensures PassOk(w'.system.db.outbox, w'.accepted, w'.passes[p])
    {
      assert PassOk(w.system.db.outbox, w.accepted, w.passes[p]);
    }
    forall p, q, id | p in w'.passes && q in w'.passes && p != q && Locks(w'.passes[p], id)
      ensures !Locks(w'.passes[q], id)
    {
      assert Locks(w.passes[p], id);
    }
  }

  /* ---- finishing ---- */

  /** An update touches only a row under a claimed id, and publishes it only if the broker took it. */
  lemma {:induction false} UpdatedShape(row: OutboxRow, claimed: seq<OutboxRow>, settled: seq<Settlement>, now: Instant,
                                        accepted: set<(string, Domain.Event)>)
    requires |claimed| == |settled|
    requires forall k :: 0 <= k < |claimed| && claimed[k].eventId == row.eventId ==> claimed[k].event == row.event
    requires forall k :: 0 <= k < |claimed| && settled[k].Sent? ==> (claimed[k].eventId, claimed[k].event) in accepted
    ensures var after := Updated(row, claimed, settled, now);
            && after.eventId == row.eventId && after.event == row.event
            && (row.publishedAt != 0 ==> after == row)
            && (!Claims(claimed, row.eventId) ==> after == row)
            && (row.publishedAt == 0 && after.publishedAt != 0 ==> (row.eventId, row.event) in accepted)
  {
    if claimed != [] {
      var n := |claimed| - 1;
      UpdatedShape(row, claimed[..n], settled[..n], now, accepted);
      if Claims(claimed[..n], row.eventId) {
        var k :| 0 <= k < n && claimed[..n][k].eventId == row.eventId;
        assert claimed[k].eventId == row.eventId;
      }
    }
  }

  lemma AppliedShape(outbox: seq<OutboxRow>, accepted: set<(string, Domain.Event)>, p: Pass)
    requires DistinctEvents(outbox) && PassOk(outbox, accepted, p) && |p.settled| == |p.claimed|
    ensures Republished(outbox, Applied(outbox, p))
    ensures PublishedWereAccepted(outbox, accepted) ==> PublishedWereAccepted(Applied(outbox, p), accepted)
    ensures forall i :: 0 <= i < |outbox| && !Locks(p, outbox[i].eventId) ==> Applied(outbox, p)[i] == outbox[i]
  {
    hide Updated;
    forall i | 0 <= i < |outbox|
      ensures var after := Applied(outbox, p)[i];
              && after.eventId == outbox[i].eventId && after.event == outbox[i].event
              && (outbox[i].publishedAt != 0 ==> after == outbox[i])
              && (!Locks(p, outbox[i].eventId) ==> after == outbox[i])
              && (outbox[i].publishedAt == 0 && after.publishedAt != 0 ==> (after.eventId, after.event) in accepted)
    {
      forall k | 0 <= k < |p.claimed| && p.claimed[k].eventId == outbox[i].eventId
        ensures p.claimed[k].event == outbox[i].event
      {
        var j :| 0 <= j < |outbox| && outbox[j] == p.claimed[k];
        assert i == j;
      }
      UpdatedShape(outbox[i], p.claimed, p.settled, p.now, accepted);
    }
  }

  lemma OthersKeepTheirRows(outbox: seq<OutboxRow>, p: Pass, q: Pass, accepted: set<(string, Domain.Event)>)
    requires |p.settled| == |p.claimed| && PassOk(outbox, accepted, q)
    requires forall i :: 0 <= i < |outbox| && !Locks(p, outbox[i].eventId) ==> Applied(outbox, p)[i] == outbox[i]
    requires forall id :: Locks(q, id) ==> !Locks(p, id)
    ensures PassOk(Applied(outbox, p), accepted, q)
  {
    hide Updated;
    var after := Applied(outbox, p);
    forall k | 0 <= k < |q.claimed|
      ensures q.claimed[k] in after
    {
      var i :| 0 <= i < |outbox| && outbox[i] == q.claimed[k];
      assert Locks(q, outbox[i].eventId);
      assert after[i] == outbox[i];
    }
  }

  lemma FinishKeeps(policy: Policy, locking: bool, w: World, publisher: string)
    requires Normalised(policy) && WorldOk(policy, locking, w)
    ensures WorldOk(policy, locking, Follow(policy, locking, w, Finish(publisher)))
  {
    hide SystemOk, Locks, PublishedWereAccepted, PassOk, Republished, DistinctEvents;
    if publisher in w.passes && |w.passes[publisher].settled| == |w.passes[publisher].claimed| {
      var outbox, p := w.system.db.outbox, w.passes[publisher];
      DistinctInSystem(policy, locking, w.system);
      AppliedShape(outbox, w.accepted, p);
      StepKeeps(policy, locking, w.system, PublishNow(Applied(outbox, p)));
      forall q | q in w.passes && q != publisher
        ensures PassOk(Applied(outbox, p), w.accepted, w.passes[q])
      {
        OthersKeepTheirRows(outbox, p, w.passes[q], w.accepted);
      }
    }
  }

  lemma DieKeeps(policy: Policy, locking: bool, w: World, publisher: string)
    requires Normalised(policy) && WorldOk(policy, locking, w)
    ensures WorldOk(policy, locking, Follow(policy, locking, w, Die(publisher)))
  {
    hide SystemOk, Locks, PublishedWereAccepted, PassOk;
  }

  lemma FollowKeeps(policy: Policy, locking: bool, w: World, h: Happening)
    requires Normalised(policy) && WorldOk(policy, locking, w)
    ensures WorldOk(policy, locking, Follow(policy, locking, w, h))
    ensures w.accepted <= Follow(policy, locking, w, h).accepted
    ensures Extends(w.system.db, Follow(policy, locking, w, h).system.db)
  {
    hide WorldOk, Extends, Step, Applied, SystemOk;
    ExtendsReflexive(w.system.db);
    WorldIsSound(policy, locking, w);
    match h
    case Elsewhere(turn) =>
      if !turn.PublishNow? {
        ElsewhereKeeps(policy, locking, w, turn);
        StepKeeps(policy, locking, w.system, turn);
      }
    case Claim(publisher, now, limit) => ClaimKeeps(policy, locking, w, publisher, now, limit);
    case Offer(publisher, reply, jitter) => OfferKeeps(policy, locking, w, publisher, reply, jitter);
    case Finish(publisher) =>
      FinishKeeps(policy, locking, w, publisher);
      if publisher in w.passes && |w.passes[publisher].settled| == |w.passes[publisher].claimed| {
        StepKeeps(policy, locking, w.system, PublishNow(Applied(w.system.db.outbox, w.passes[publisher])));
      }
    case Die(publisher) => DieKeeps(policy, locking, w, publisher);
  }

  lemma WorldIsSound(policy: Policy, locking: bool, w: World)
    requires Normalised(policy) && WorldOk(policy, locking, w)
    ensures SystemOk(policy, locking, w.system)
  {
  }

  lemma {:induction false} ChronicleKeeps(policy: Policy, locking: bool, w: World, hs: seq<Happening>)
    requires Normalised(policy) && WorldOk(policy, locking, w)
    ensures WorldOk(policy, locking, Chronicle(policy, locking, w, hs))
    ensures w.accepted <= Chronicle(policy, locking, w, hs).accepted
    ensures Extends(w.system.db, Chronicle(policy, locking, w, hs).system.db)
    decreases |hs|
  {
    hide WorldOk, Extends, Follow;
    ExtendsReflexive(w.system.db);
    if hs != [] {
      var next := Follow(policy, locking, w, hs[0]);
      FollowKeeps(policy, locking, w, hs[0]);
      ChronicleKeeps(policy, locking, next, hs[1..]);
      ExtendsTransitive(w.system.db, next.system.db, Chronicle(policy, locking, next, hs[1..]).system.db);
    }
  }

  /* ---- the property ---- */

  /**
   * There to be claimed by whoever comes from its instant on and finds it free, or taken by the
   * broker under its own id.
   */
  ghost predicate DueOrAccepted(w: World, row: OutboxRow) {
    || (&& row.publishedAt == 0
        && forall now: Instant, held: set<string> :: row.nextAttemptAt <= now && row.eventId !in held ==>
             row in DueEvents(w.system.db.outbox, now, held))
    || (row.eventId, row.event) in w.accepted
  }

  /**
   * Starting from nothing, after any history every event ever recorded is still in the
   * outbox, saying what it said under the id it had, and it is claimable from its
   * instant on unless the broker has taken it under that id.
   */
  lemma EveryEventIsDueOrAccepted(policy: Policy, locking: bool, earlier: seq<Happening>, later: seq<Happening>, i: nat)
    requires Normalised(policy)
    requires i < |Chronicle(policy, locking, World(System(EMPTY, map[]), map[], {}), earlier).system.db.outbox|
    ensures var before := Chronicle(policy, locking, World(System(EMPTY, map[]), map[], {}), earlier);
            var after := Chronicle(policy, locking, before, later);
            && i < |after.system.db.outbox|
            && after.system.db.outbox[i].eventId == before.system.db.outbox[i].eventId
            && after.system.db.outbox[i].event == before.system.db.outbox[i].event
            && DueOrAccepted(after, after.system.db.outbox[i])
  {
    hide WorldOk, Chronicle, Extends, DueOrAccepted;
    var start := World(System(EMPTY, map[]), map[], {});
    NothingIsSound(policy, locking);
    ChronicleKeeps(policy, locking, start, earlier);
    var before := Chronicle(policy, locking, start, earlier);
    ChronicleKeeps(policy, locking, before, later);
    var after := Chronicle(policy, locking, before, later);
    RowStays(before.system.db, after.system.db, i);
    RowIsDueOrAccepted(policy, locking, after, i);
  }

  lemma NothingIsSound(policy: Policy, locking: bool)
    requires Normalised(policy)
    ensures WorldOk(policy, locking, World(System(EMPTY, map[]), map[], {}))
  {
    hide Inv;
    EmptyIsSound();
    IdleSystemIsSound(policy, locking, EMPTY);
  }

  lemma RowStays(a: Db, b: Db, i: nat)
    requires Extends(a, b) && i < |a.outbox|
    ensures i < |b.outbox| && b.outbox[i].eventId == a.outbox[i].eventId && b.outbox[i].event == a.outbox[i].event
  {
    assert EventIds(a.outbox)[i] == EventIds(b.outbox)[i];
    assert Events(a.outbox)[i] == Events(b.outbox)[i];
  }

  lemma RowIsDueOrAccepted(policy: Policy, locking: bool, w: World, i: nat)
    requires Normalised(policy) && WorldOk(policy, locking, w) && i < |w.system.db.outbox|
    ensures DueOrAccepted(w, w.system.db.outbox[i])
  {
    hide SystemOk, PassesOk, DueEvents, DistinctEvents;
    var row := w.system.db.outbox[i];
    if row.publishedAt == 0 {
      DistinctInSystem(policy, locking, w.system);
      forall now: Instant, held: set<string> | row.nextAttemptAt <= now && row.eventId !in held
        ensures row in DueEvents(w.system.db.outbox, now, held)
      {
        DueEventsAreClaimable(w.system.db.outbox, now, held);
        assert IsUnsent(row, now);
      }
    }
  }

  /* ---- an event that was taken is done with, one that was refused comes back ---- */

  /** An offer is settled as the broker answered: sent if it said it took the event, else postponed by the backoff. */
  lemma OfferIsSettled(policy: Policy, locking: bool, w: World, publisher: string, reply: Reply, jitter: nat)
    requires Normalised(policy) && publisher in w.passes
    requires |w.passes[publisher].settled| < |w.passes[publisher].claimed|
    ensures var w' := Follow(policy, locking, w, Offer(publisher, reply, jitter));
            var p := w.passes[publisher];
            var row := p.claimed[|p.settled|];
            && publisher in w'.passes && |w'.passes[publisher].settled| == |p.settled| + 1
            && w'.passes[publisher] == p.(settled := w'.passes[publisher].settled)
            && p.settled <= w'.passes[publisher].settled
            && (match w'.passes[publisher].settled[|p.settled|]
                case Sent => reply.Taken?
                case Postponed(at) =>
                  && !reply.Taken? && p.now <= at <= p.now + policy.maxBackoff
                  && (Unwrapped(policy) ==>
                        p.now + Backoff(policy, row.attempts) / 2 <= at <= p.now + Backoff(policy, row.attempts)))
            && ((row.eventId, row.event) in w'.accepted <==> !reply.Declined? || (row.eventId, row.event) in w.accepted)
  {
    hide Backoff, Step;
    var p := w.passes[publisher];
    NextOfferAt(policy, p.now, p.claimed[|p.settled|].attempts, jitter);
  }

  lemma {:induction false} UpdatedIsMarked(row: OutboxRow, claimed: seq<OutboxRow>, settled: seq<Settlement>,
                                           now: Instant, k: nat)
    requires |claimed| == |settled| && k < |claimed| && claimed[k].eventId == row.eventId && row.publishedAt == 0
    requires forall a, b :: 0 <= a < b < |claimed| ==> claimed[a].eventId != claimed[b].eventId
    ensures Updated(row, claimed, settled, now)
            == match settled[k]
               case Sent => row.(publishedAt := now)
               case Postponed(at) => row.(attempts := row.attempts + 1, nextAttemptAt := at)
  {
    var n := |claimed| - 1;
    if k < n { UpdatedIsMarked(row, claimed[..n], settled[..n], now, k); }
  }

  /** A pass that finishes writes what it settled: published then, or due again later with one attempt more. */
  lemma FinishWrites(policy: Policy, locking: bool, w: World, publisher: string, i: nat, k: nat)
    requires Normalised(policy) && WorldOk(policy, locking, w) && publisher in w.passes
    requires |w.passes[publisher].settled| == |w.passes[publisher].claimed| && k < |w.passes[publisher].claimed|
    requires i < |w.system.db.outbox| && w.system.db.outbox[i] == w.passes[publisher].claimed[k]
    ensures var after := Follow(policy, locking, w, Finish(publisher)).system.db.outbox;
            var p, row := w.passes[publisher], w.system.db.outbox[i];
            && |after| == |w.system.db.outbox|
            && after[i] == match p.settled[k]
                           case Sent => row.(publishedAt := p.now)
                           case Postponed(at) => row.(attempts := row.attempts + 1, nextAttemptAt := at)
  {
    hide SystemOk, Updated, PublishedWereAccepted;
    var outbox, p := w.system.db.outbox, w.passes[publisher];
    DistinctInSystem(policy, locking, w.system);
    AppliedShape(outbox, w.accepted, p);
    assert PassOk(outbox, w.accepted, p);
    UpdatedIsMarked(outbox[i], p.claimed, p.settled, p.now, k);
  }

  /**
   * Once a pass in which the broker said it took an event has finished, no publisher is ever given
   * that event again.
   */
  lemma SentIsDone(policy: Policy, locking: bool, w: World, publisher: string, i: nat, k: nat, later: seq<Happening>,
                   now: Instant, held: set<string>)
    requires Normalised(policy) && WorldOk(policy, locking, w) && publisher in w.passes
    requires |w.passes[publisher].settled| == |w.passes[publisher].claimed| && k < |w.passes[publisher].claimed|
    requires i < |w.system.db.outbox| && w.system.db.outbox[i] == w.passes[publisher].claimed[k]
    requires w.passes[publisher].settled[k].Sent?
    ensures var finished := Follow(policy, locking, w, Finish(publisher));
            var end := Chronicle(policy, locking, finished, later).system.db.outbox;
            && i < |end| && end[i] == w.system.db.outbox[i].(publishedAt := w.passes[publisher].now)
            && !Claims(DueEvents(end, now, held), w.system.db.outbox[i].eventId)
  {
    hide WorldOk, Follow, Chronicle, Extends, DueEvents;
    var w' := Follow(policy, locking, w, Finish(publisher));
    FinishWrites(policy, locking, w, publisher, i, k);
    PassHasNow(policy, locking, w, publisher);
    FollowKeeps(policy, locking, w, Finish(publisher));
    ChronicleKeeps(policy, locking, w', later);
    var end := Chronicle(policy, locking, w', later);
    WorldIsSound(policy, locking, end);
    DistinctInSystem(policy, locking, end.system);
    ChronicleKeepsPublished(policy, locking, w', later);
    PublishedIsNotDue(end.system.db.outbox, i, now, held);
  }

  lemma PassHasNow(policy: Policy, locking: bool, w: World, publisher: string)
    requires Normalised(policy) && WorldOk(policy, locking, w) && publisher in w.passes
    ensures w.passes[publisher].now != 0
  {
    hide SystemOk, PublishedWereAccepted;
    assert PassOk(w.system.db.outbox, w.accepted, w.passes[publisher]);
  }

  /** What is published stays as it is. */
  ghost predicate PublishedKept(a: seq<OutboxRow>, b: seq<OutboxRow>) {
    |a| <= |b| && forall i :: 0 <= i < |a| && a[i].publishedAt != 0 ==> b[i] == a[i]
  }

  lemma FollowKeepsPublished(policy: Policy, locking: bool, w: World, h: Happening)
    requires Normalised(policy) && WorldOk(policy, locking, w)
    ensures PublishedKept(w.system.db.outbox, Follow(policy, locking, w, h).system.db.outbox)
  {
    hide SystemOk, PublishedWereAccepted, Applied, DueEvents, LockedEvents;
    match h
    case Elsewhere(turn) =>
      if !turn.PublishNow? { OtherTurnsAppend(policy, locking, w.system, turn); }
    case Finish(publisher) =>
      if publisher in w.passes && |w.passes[publisher].settled| == |w.passes[publisher].claimed| {
        DistinctInSystem(policy, locking, w.system);
        assert PassOk(w.system.db.outbox, w.accepted, w.passes[publisher]);
        AppliedShape(w.system.db.outbox, w.accepted, w.passes[publisher]);
      }
    case Claim(_, _, _) =>
    case Offer(_, _, _) =>
    case Die(_) =>
  }

  lemma {:induction false} ChronicleKeepsPublished(policy: Policy, locking: bool, w: World, hs: seq<Happening>)
    requires Normalised(policy) && WorldOk(policy, locking, w)
    ensures PublishedKept(w.system.db.outbox, Chronicle(policy, locking, w, hs).system.db.outbox)
    decreases |hs|
  {
    hide WorldOk, Follow;
    if hs != [] {
      FollowKeepsPublished(policy, locking, w, hs[0]);
      FollowKeeps(policy, locking, w, hs[0]);
      ChronicleKeepsPublished(policy, locking, Follow(policy, locking, w, hs[0]), hs[1..]);
    }
  }

  lemma PublishedIsNotDue(outbox: seq<OutboxRow>, i: nat, now: Instant, held: set<string>)
    requires DistinctEvents(outbox) && i < |outbox| && outbox[i].publishedAt != 0
    ensures !Claims(DueEvents(outbox, now, held), outbox[i].eventId)
  {
    hide DueEvents;
    var due := DueEvents(outbox, now, held);
    DueEventsAreDue(outbox, now, held);
    forall k | 0 <= k < |due|
      ensures due[k].eventId != outbox[i].eventId
    {
      assert due[k] in due;
      var j :| 0 <= j < |outbox| && outbox[j] == due[k];
      assert j != i;
    }
  }
}
