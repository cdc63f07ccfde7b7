/** In which order the events of one aggregate reach the broker, and exactly when it is not the one they happened in. */
module Ordering {
  import opened Domain
  import opened Tables
  import opened Decisions
  import opened Storage
  import opened Interleaving
  import opened Publishing
  import opened Outgoing

  /** What an event is about: its wallet if it is a change of balance, its operation otherwise. */
  function Aggregate(e: Domain.Event): string {
    match e
    case BalanceChanged(walletId, _, _, _, _, _, _, _) => walletId
    case _ => e.fact.transactionId
  }

  predicate Reached(row: OutboxRow, accepted: set<(string, Domain.Event)>) { (row.eventId, row.event) in accepted }

  /** The broker has taken no event before an earlier one of the same aggregate. */
  predicate InOrder(outbox: seq<OutboxRow>, accepted: set<(string, Domain.Event)>) {
    forall i, j :: 0 <= i < j < |outbox| && Aggregate(outbox[i].event) == Aggregate(outbox[j].event) ==>
                     (Reached(outbox[j], accepted) ==> Reached(outbox[i], accepted))
  }

  /* ---- what a pass leaves behind ---- */

  /** Unpublished when the pass claimed, but not yet due, or held by somebody else. */
  predicate PassedOver(p: Pass, row: OutboxRow) {
    row.publishedAt == 0 && (p.now < row.nextAttemptAt || row.eventId in p.held)
  }

  /** Offered by this very pass, and put back. */
  predicate PutBack(p: Pass, row: OutboxRow) {
    exists k :: 0 <= k < |p.settled| && k < |p.claimed| && p.claimed[k] == row && p.settled[k].Postponed?
  }

  /**
   * The event it offers next has an earlier one of its aggregate that the pass left behind and the
   * broker has not taken.
   */
  predicate Overtakes(p: Pass, accepted: set<(string, Domain.Event)>) {
    |p.settled| < |p.claimed| &&
    exists i, j :: 0 <= i < j < |p.seen| && p.seen[j] == p.claimed[|p.settled|]
                   && Aggregate(p.seen[i].event) == Aggregate(p.seen[j].event)
                   && (PassedOver(p, p.seen[i]) || PutBack(p, p.seen[i])) && !Reached(p.seen[i], accepted)
  }

  /** Not an offer that the broker takes of an event that overtakes another. */
  predicate Tidy(w: World, h: Happening) {
    h.Offer? && h.publisher in w.passes && !h.reply.Declined? ==> !Overtakes(w.passes[h.publisher], w.accepted)
  }

  /* ---- what stays true ---- */

  predicate SameEvents(seen: seq<OutboxRow>, outbox: seq<OutboxRow>) {
    |seen| <= |outbox| &&
    forall i :: 0 <= i < |seen| ==> outbox[i].eventId == seen[i].eventId && outbox[i].event == seen[i].event
  }

  /** The pass claimed the first of what was due in the outbox it saw, which has only grown since. */
  ghost predicate SawOutbox(outbox: seq<OutboxRow>, accepted: set<(string, Domain.Event)>, p: Pass) {
    && SameEvents(p.seen, outbox) && p.claimed <= DueEvents(p.seen, p.now, p.held)
    && (forall i :: 0 <= i < |p.seen| && p.seen[i].publishedAt != 0 ==> Reached(p.seen[i], accepted))
  }

  /** The broker knows only events that were recorded. */
  predicate KnowsRecorded(outbox: seq<OutboxRow>, accepted: set<(string, Domain.Event)>) {
    forall x :: x in accepted ==> exists i :: 0 <= i < |outbox| && (outbox[i].eventId, outbox[i].event) == x
  }

  ghost predicate OrderOk(policy: Policy, locking: bool, w: World)
    requires Normalised(policy)
  {
    && WorldOk(policy, locking, w) && KnowsRecorded(w.system.db.outbox, w.accepted)
    && forall p :: p in w.passes ==> SawOutbox(w.system.db.outbox, w.accepted, w.passes[p])
  }

  /* ---- due events come in the outbox's order ---- */

  lemma {:induction false} DueGrows(outbox: seq<OutboxRow>, now: Instant, held: set<string>, i: nat)
    requires i <= |outbox|
    ensures DueEvents(outbox[..i], now, held) <= DueEvents(outbox, now, held)
    decreases |outbox|
  {
    if i == |outbox| {
      assert outbox[..i] == outbox;
    } else {
      var front := outbox[..|outbox| - 1];
      assert front[..i] == outbox[..i];
      DueGrows(front, now, held, i);
    }
  }

  /** A due row is claimed in its place: after the due rows before it. */
  lemma DuePlace(outbox: seq<OutboxRow>, now: Instant, held: set<string>, i: nat)
    requires i < |outbox| && IsUnsent(outbox[i], now) && outbox[i].eventId !in held
    ensures var k := |DueEvents(outbox[..i], now, held)|;
            k < |DueEvents(outbox, now, held)| && DueEvents(outbox, now, held)[k] == outbox[i]
  {
    DueGrows(outbox, now, held, i + 1);
    assert outbox[..i + 1][..i] == outbox[..i];
  }

  lemma EarlierIsClaimedFirst(outbox: seq<OutboxRow>, now: Instant, held: set<string>, i: nat, j: nat)
    requires i < j < |outbox| && IsUnsent(outbox[i], now) && outbox[i].eventId !in held
    ensures |DueEvents(outbox[..i], now, held)| < |DueEvents(outbox[..j], now, held)|
  {
    assert outbox[..j][..i] == outbox[..i];
    DuePlace(outbox[..j], now, held, i);
  }

  /* ---- every happening keeps it ---- */

  lemma StillSeen(a: seq<OutboxRow>, b: seq<OutboxRow>, accepted: set<(string, Domain.Event)>,
                  more: set<(string, Domain.Event)>, p: Pass)
    requires SawOutbox(a, accepted, p) && SameEvents(a, b) && accepted <= more
    ensures SawOutbox(b, more, p)
  {
    hide DueEvents;
  }

  lemma StillRecorded(a: seq<OutboxRow>, b: seq<OutboxRow>, accepted: set<(string, Domain.Event)>)
    requires KnowsRecorded(a, accepted) && SameEvents(a, b)
    ensures KnowsRecorded(b, accepted)
  {
    forall x | x in accepted
      ensures exists i :: 0 <= i < |b| && (b[i].eventId, b[i].event) == x
    {
      var i :| 0 <= i < |a| && (a[i].eventId, a[i].event) == x;
      assert (b[i].eventId, b[i].event) == x;
    }
  }

  lemma EventsStay(a: Db, b: Db)
    requires Extends(a, b)
    ensures SameEvents(a.outbox, b.outbox)
  {
    forall i | 0 <= i < |a.outbox|
      ensures i < |b.outbox| && b.outbox[i].eventId == a.outbox[i].eventId && b.outbox[i].event == a.outbox[i].event
    {
      RowStays(a, b, i);
    }
    LengthStays(a, b);
  }

  lemma LengthStays(a: Db, b: Db)
    requires Extends(a, b)
    ensures |a.outbox| <= |b.outbox|
  {
  }

  /** What the broker takes is a row of the outbox. */
  lemma OfferedIsRecorded(policy: Policy, locking: bool, w: World, publisher: string, reply: Reply, jitter: nat)
    requires Normalised(policy) && OrderOk(policy, locking, w)
    ensures KnowsRecorded(w.system.db.outbox, Follow(policy, locking, w, Offer(publisher, reply, jitter)).accepted)
  {
    hide SystemOk, SawOutbox, PublishedWereAccepted, Window, NextAttemptAt, Locks;
    if publisher in w.passes && |w.passes[publisher].settled| < |w.passes[publisher].claimed| {
      var row, outbox := w.passes[publisher].claimed[|w.passes[publisher].settled|], w.system.db.outbox;
      assert row in outbox;
      var i :| 0 <= i < |outbox| && outbox[i] == row;
      assert (outbox[i].eventId, outbox[i].event) == (row.eventId, row.event);
    }
  }

  lemma ClaimSees(policy: Policy, locking: bool, w: World, now: Instant, limit: nat)
    requires Normalised(policy) && OrderOk(policy, locking, w)
    ensures SawOutbox(w.system.db.outbox, w.accepted, Claiming(w, now, limit))
  {
    hide SystemOk, SawOutbox, DueEvents, PassesOk;
    var outbox := w.system.db.outbox;
    SeesItself(outbox, w.accepted, Claiming(w, now, limit));
  }

  lemma SeesItself(outbox: seq<OutboxRow>, accepted: set<(string, Domain.Event)>, p: Pass)
    requires p.seen == outbox && p.claimed <= DueEvents(outbox, p.now, p.held)
    requires PublishedWereAccepted(outbox, accepted)
    ensures SawOutbox(outbox, accepted, p)
  {
    hide DueEvents;
  }

  /** A pass that is open before and after is the one it was, but for what it has settled. */
  lemma SamePasses(policy: Policy, locking: bool, w: World, h: Happening, p: string)
    requires Normalised(policy)
    ensures var w' := Follow(policy, locking, w, h);
            p in w'.passes ==>
              if p in w.passes
              then w'.passes[p] == w.passes[p].(settled := w'.passes[p].settled)
              else h.Claim? && w'.passes[p] == Claiming(w, h.now, h.limit)
  {
    hide Step, Applied, Claiming, NextAttemptAt;
  }

  lemma OrderStays(policy: Policy, locking: bool, w: World, h: Happening)
    requires Normalised(policy) && OrderOk(policy, locking, w)
    ensures OrderOk(policy, locking, Follow(policy, locking, w, h))
    ensures SameEvents(w.system.db.outbox, Follow(policy, locking, w, h).system.db.outbox)
  {
    hide WorldOk, SawOutbox, KnowsRecorded, SameEvents, Follow, Claiming, Extends;
    var w' := Follow(policy, locking, w, h);
    FollowKeeps(policy, locking, w, h);
    EventsStay(w.system.db, w'.system.db);
    var a, b := w.system.db.outbox, w'.system.db.outbox;
    assert KnowsRecorded(b, w'.accepted) by {
      AcceptsOnlyOffers(policy, locking, w, h);
      if h.Offer? { OfferedIsRecorded(policy, locking, w, h.publisher, h.reply, h.jitter); }
      StillRecorded(a, b, w'.accepted);
    }
    forall p | p in w'.passes
      ensures SawOutbox(b, w'.accepted, w'.passes[p])
    {
      SamePasses(policy, locking, w, h, p);
      if p in w.passes {
        StillSeen(a, b, w.accepted, w'.accepted, w.passes[p]);
        SettlingIsUnseen(b, w'.accepted, w.passes[p], w'.passes[p]);
      } else {
        ClaimSees(policy, locking, w, h.now, h.limit);
        StillSeen(a, b, w.accepted, w'.accepted, w'.passes[p]);
      }
    }
  }

  lemma SettlingIsUnseen(outbox: seq<OutboxRow>, accepted: set<(string, Domain.Event)>, p: Pass, q: Pass)
    requires SawOutbox(outbox, accepted, p) && q == p.(settled := q.settled)
    ensures SawOutbox(outbox, accepted, q)
  {
  }

  predicate OffersNext(w: World, h: Happening) {
    h.Offer? && h.publisher in w.passes && |w.passes[h.publisher].settled| < |w.passes[h.publisher].claimed|
  }

  function NextOffered(w: World, h: Happening): (string, Domain.Event)
    requires OffersNext(w, h)
  {
    var p := w.passes[h.publisher];
    (p.claimed[|p.settled|].eventId, p.claimed[|p.settled|].event)
  }

  lemma AcceptsOnlyOffers(policy: Policy, locking: bool, w: World, h: Happening)
    requires Normalised(policy)
    ensures var w' := Follow(policy, locking, w, h);
            if !h.Offer? then w'.accepted == w.accepted
            else
              w'.system == w.system &&
              w'.accepted
              == if OffersNext(w, h) && !h.reply.Declined? then w.accepted + {NextOffered(w, h)} else w.accepted
  {
    hide Step, Applied, Claiming, NextAttemptAt;
  }

  /* ---- exactly when the order is kept ---- */

  /** Events are added behind the others, and the broker knows none of the new ones. */
  lemma NewEventsKeepOrder(a: seq<OutboxRow>, b: seq<OutboxRow>, accepted: set<(string, Domain.Event)>)
    requires SameEvents(a, b) && DistinctEvents(b) && KnowsRecorded(a, accepted)
    ensures InOrder(a, accepted) <==> InOrder(b, accepted)
  {
    hide Aggregate;
    forall j | |a| <= j < |b|
      ensures !Reached(b[j], accepted)
    {
      assert forall i :: 0 <= i < |a| ==> a[i].eventId == b[i].eventId != b[j].eventId;
    }
    if InOrder(b, accepted) {
      forall i, j | 0 <= i < j < |a| && Aggregate(a[i].event) == Aggregate(a[j].event) && Reached(a[j], accepted)
        ensures Reached(a[i], accepted)
      {
        assert Reached(b[j], accepted) && Aggregate(b[i].event) == Aggregate(b[j].event);
      }
    }
    if InOrder(a, accepted) {
      forall i, j | 0 <= i < j < |b| && Aggregate(b[i].event) == Aggregate(b[j].event) && Reached(b[j], accepted)
        ensures Reached(b[i], accepted)
      {
        assert Reached(a[j], accepted) && Aggregate(a[i].event) == Aggregate(a[j].event);
      }
    }
  }

  /** An earlier event the broker has not taken was passed over by the claim, or put back by this pass. */
  lemma LeftBehind(outbox: seq<OutboxRow>, accepted: set<(string, Domain.Event)>, p: Pass, i: nat, j: nat)
    requires SawOutbox(outbox, accepted, p) && PassOk(outbox, accepted, p) && DistinctEvents(p.seen)
    requires i < j < |p.seen| && |p.settled| < |p.claimed| && p.seen[j] == p.claimed[|p.settled|]
    requires !Reached(p.seen[i], accepted)
    ensures PassedOver(p, p.seen[i]) || PutBack(p, p.seen[i])
  {
    hide DueEvents, ClaimedFrom;
    var row, n := p.seen[i], |p.settled|;
    if !PassedOver(p, row) {
      assert IsUnsent(row, p.now) && row.eventId !in p.held;
      DuePlace(p.seen, p.now, p.held, i);
      ClaimedInPlace(p, j);
      EarlierIsClaimedFirst(p.seen, p.now, p.held, i, j);
      var k := |DueEvents(p.seen[..i], p.now, p.held)|;
      assert k < n && p.claimed[k] == row;
      assert p.settled[k].Postponed?;
    }
  }

  /** The row offered next is due in its place. */
  lemma ClaimedInPlace(p: Pass, j: nat)
    requires p.claimed <= DueEvents(p.seen, p.now, p.held) && DistinctEvents(p.seen)
    requires j < |p.seen| && |p.settled| < |p.claimed| && p.seen[j] == p.claimed[|p.settled|]
    ensures |DueEvents(p.seen[..j], p.now, p.held)| == |p.settled|
  {
    hide DueEvents;
    var due, n := DueEvents(p.seen, p.now, p.held), |p.settled|;
    DueEventsAreDue(p.seen, p.now, p.held);
    DueEventsDiffer(p.seen, p.now, p.held);
    assert due[n] == p.seen[j] && due[n] in due;
    DuePlace(p.seen, p.now, p.held, j);
  }

  lemma OvertakingBreaks(outbox: seq<OutboxRow>, accepted: set<(string, Domain.Event)>, p: Pass)
    requires SawOutbox(outbox, accepted, p) && DistinctEvents(p.seen) && Overtakes(p, accepted)
    ensures var row := p.claimed[|p.settled|]; !InOrder(outbox, accepted + {(row.eventId, row.event)})
  {
    hide DueEvents, PassedOver, PutBack, Aggregate;
    var row := p.claimed[|p.settled|];
    var after := accepted + {(row.eventId, row.event)};
    var i, k :| 0 <= i < k < |p.seen| && p.seen[k] == row && Aggregate(p.seen[i].event) == Aggregate(p.seen[k].event)
                && (PassedOver(p, p.seen[i]) || PutBack(p, p.seen[i])) && !Reached(p.seen[i], accepted);
    assert Reached(outbox[k], after) && !Reached(outbox[i], after) && outbox[i].event == p.seen[i].event;
  }

  lemma OfferedPlace(p: Pass) returns (j: nat)
    requires p.claimed <= DueEvents(p.seen, p.now, p.held) && |p.settled| < |p.claimed|
    ensures j < |p.seen| && p.seen[j] == p.claimed[|p.settled|]
  {
    hide DueEvents;
    var row := p.claimed[|p.settled|];
    DueEventsAreDue(p.seen, p.now, p.held);
    assert row in DueEvents(p.seen, p.now, p.held);
    j :| 0 <= j < |p.seen| && p.seen[j] == row;
  }

  lemma NoOvertakingKeeps(outbox: seq<OutboxRow>, accepted: set<(string, Domain.Event)>, p: Pass)
    requires SawOutbox(outbox, accepted, p) && PassOk(outbox, accepted, p) && DistinctEvents(outbox)
    requires DistinctEvents(p.seen)
    requires InOrder(outbox, accepted) && |p.settled| < |p.claimed| && !Overtakes(p, accepted)
    ensures var row := p.claimed[|p.settled|]; InOrder(outbox, accepted + {(row.eventId, row.event)})
  {
    hide DueEvents, PassedOver, PutBack, Aggregate;
    var row := p.claimed[|p.settled|];
    var after := accepted + {(row.eventId, row.event)};
    var j := OfferedPlace(p);
    forall i, k | 0 <= i < k < |outbox| && Aggregate(outbox[i].event) == Aggregate(outbox[k].event)
                  && Reached(outbox[k], after)
      ensures Reached(outbox[i], after)
    {
      if !Reached(outbox[k], accepted) {
        assert outbox[k].eventId == row.eventId == outbox[j].eventId;
        assert k == j;
        if !Reached(p.seen[i], accepted) { LeftBehind(outbox, accepted, p, i, j); }
      }
    }
  }

  /** Once the broker takes the event offered next, the order is kept iff it overtakes none. */
  lemma TakenInOrder(outbox: seq<OutboxRow>, accepted: set<(string, Domain.Event)>, p: Pass)
    requires SawOutbox(outbox, accepted, p) && PassOk(outbox, accepted, p) && DistinctEvents(outbox)
    requires InOrder(outbox, accepted) && |p.settled| < |p.claimed|
    ensures var row := p.claimed[|p.settled|];
            InOrder(outbox, accepted + {(row.eventId, row.event)}) <==> !Overtakes(p, accepted)
  {
    hide SawOutbox, PassOk, InOrder, Overtakes;
    SeenDiffer(outbox, accepted, p);
    if Overtakes(p, accepted) {
      OvertakingBreaks(outbox, accepted, p);
    } else {
      NoOvertakingKeeps(outbox, accepted, p);
    }
  }

  lemma SeenDiffer(outbox: seq<OutboxRow>, accepted: set<(string, Domain.Event)>, p: Pass)
    requires SawOutbox(outbox, accepted, p) && DistinctEvents(outbox)
    ensures DistinctEvents(p.seen)
  {
    hide DueEvents;
  }

  /**
   * One happening keeps the order iff it is not the taking of an event that overtakes
   * another: an earlier one of its aggregate that the pass's claim passed over, or that
   * the pass put back, and that the broker still has not taken.
   */
  lemma OrderKept(policy: Policy, locking: bool, w: World, h: Happening)
    requires Normalised(policy) && OrderOk(policy, locking, w) && InOrder(w.system.db.outbox, w.accepted)
    ensures var w' := Follow(policy, locking, w, h);
            InOrder(w'.system.db.outbox, w'.accepted) <==> Tidy(w, h)
  {
    hide SystemOk, Follow, SawOutbox, KnowsRecorded, InOrder, Overtakes, PassOk, SameEvents;
    var w' := Follow(policy, locking, w, h);
    OrderStays(policy, locking, w, h);
    OrderIsSound(policy, locking, w');
    AcceptsOnlyOffers(policy, locking, w, h);
    if OffersNext(w, h) && !h.reply.Declined? {
      OrderIsSound(policy, locking, w);
      TakenInOrder(w.system.db.outbox, w.accepted, w.passes[h.publisher]);
    } else {
      NewEventsKeepOrder(w.system.db.outbox, w'.system.db.outbox, w.accepted);
      NothingLeft(w, h);
    }
  }

  lemma NothingLeft(w: World, h: Happening)
    requires !(OffersNext(w, h) && !h.reply.Declined?)
    ensures Tidy(w, h)
  {
  }

  lemma OrderIsSound(policy: Policy, locking: bool, w: World)
    requires Normalised(policy) && OrderOk(policy, locking, w)
    ensures DistinctEvents(w.system.db.outbox)
  {
    hide SawOutbox, KnowsRecorded;
    DistinctInSystem(policy, locking, w.system);
  }

  /* ---- over whole histories ---- */

  ghost predicate AlwaysInOrder(policy: Policy, locking: bool, w: World, hs: seq<Happening>)
    requires Normalised(policy)
    decreases |hs|
  {
    && InOrder(w.system.db.outbox, w.accepted)
    && (hs == [] || AlwaysInOrder(policy, locking, Follow(policy, locking, w, hs[0]), hs[1..]))
  }

  ghost predicate AllTidy(policy: Policy, locking: bool, w: World, hs: seq<Happening>)
    requires Normalised(policy)
    decreases |hs|
  {
    hs == [] || (Tidy(w, hs[0]) && AllTidy(policy, locking, Follow(policy, locking, w, hs[0]), hs[1..]))
  }

  /** Each aggregate's events first reach the broker in the order they happened in, iff nothing ever overtakes. */
  lemma {:induction false} OrderExactly(policy: Policy, locking: bool, w: World, hs: seq<Happening>)
    requires Normalised(policy) && OrderOk(policy, locking, w) && InOrder(w.system.db.outbox, w.accepted)
    ensures AlwaysInOrder(policy, locking, w, hs) <==> AllTidy(policy, locking, w, hs)
    decreases |hs|
  {
    hide OrderOk, InOrder, Tidy, Follow;
    if hs != [] {
      var next := Follow(policy, locking, w, hs[0]);
      OrderKept(policy, locking, w, hs[0]);
      OrderStays(policy, locking, w, hs[0]);
      if Tidy(w, hs[0]) {
        OrderExactly(policy, locking, next, hs[1..]);
      } else {
        assert !AlwaysInOrder(policy, locking, next, hs[1..]);
      }
    }
  }

  const NOTHING := World(System(EMPTY, map[]), map[], {})

  /** In particular from nothing. */
  lemma OrderFromNothing(policy: Policy, locking: bool, hs: seq<Happening>)
    requires Normalised(policy)
    ensures AlwaysInOrder(policy, locking, NOTHING, hs) <==> AllTidy(policy, locking, NOTHING, hs)
  {
    hide WorldOk, AlwaysInOrder, AllTidy;
    NothingIsSound(policy, locking);
    OrderExactly(policy, locking, NOTHING, hs);
  }

  /* ---- a refused event is overtaken ---- */

  /** Two unpublished events of one aggregate, due and free, are first in line. */
  ghost predicate TwoInLine(w: World, now: Instant) {
    var due := DueEvents(w.system.db.outbox, now, {});
    && w.passes == map[] && now != 0 && |due| >= 2 && Aggregate(due[0].event) == Aggregate(due[1].event)
    && !Reached(due[0], w.accepted)
  }

  /** The broker refuses the first of them and takes the second, in one pass: the second has overtaken. */
  lemma RefusalReorders(policy: Policy, locking: bool, w: World, now: Instant, jitter: nat)
    requires Normalised(policy) && OrderOk(policy, locking, w) && TwoInLine(w, now)
    ensures var hs := [Claim("p", now, 2), Offer("p", Declined, jitter), Offer("p", Taken, jitter)];
            var end := Chronicle(policy, locking, w, hs);
            end.system == w.system && !InOrder(end.system.db.outbox, end.accepted)
  {
    hide WorldOk, SawOutbox, KnowsRecorded, NextAttemptAt, DueEvents, Aggregate, Step;
    var outbox, due := w.system.db.outbox, DueEvents(w.system.db.outbox, now, {});
    var hs := [Claim("p", now, 2), Offer("p", Declined, jitter), Offer("p", Taken, jitter)];
    assert LockedEvents(w.passes) == {};
    var w1 := Follow(policy, locking, w, hs[0]);
    assert w1.passes["p"].claimed == due[..2];
    var w2 := Follow(policy, locking, w1, hs[1]);
    var w3 := Follow(policy, locking, w2, hs[2]);
    assert w3.system == w.system && w3.accepted == w.accepted + {(due[1].eventId, due[1].event)};
    ThreeHappenings(policy, locking, w, hs);
    OrderIsSound(policy, locking, w);
    FirstTwo(outbox, w.accepted, now);
  }

  lemma ThreeHappenings(policy: Policy, locking: bool, w: World, hs: seq<Happening>)
    requires Normalised(policy) && |hs| == 3
    ensures Chronicle(policy, locking, w, hs)
            == Follow(policy, locking, Follow(policy, locking, Follow(policy, locking, w, hs[0]), hs[1]), hs[2])
  {
    hide Follow;
    var a := Follow(policy, locking, w, hs[0]);
    var b := Follow(policy, locking, a, hs[1]);
    var two, one := hs[1..], hs[2..];
    assert two[0] == hs[1] && two[1..] == one && one[0] == hs[2] && one[1..] == [];
    assert Chronicle(policy, locking, a, two) == Chronicle(policy, locking, b, one);
    assert Chronicle(policy, locking, b, one)
           == Chronicle(policy, locking, Follow(policy, locking, b, hs[2]), one[1..]);
  }

  lemma FirstTwo(outbox: seq<OutboxRow>, accepted: set<(string, Domain.Event)>, now: Instant)
    requires DistinctEvents(outbox)
    requires var due := DueEvents(outbox, now, {});
             |due| >= 2 && Aggregate(due[0].event) == Aggregate(due[1].event) && !Reached(due[0], accepted)
    ensures var row := DueEvents(outbox, now, {})[1]; !InOrder(outbox, accepted + {(row.eventId, row.event)})
  {
    hide Aggregate, DueEvents;
    var due := DueEvents(outbox, now, {});
    DueEventsAreDue(outbox, now, {});
    DueEventsDiffer(outbox, now, {});
    assert due[0] in due && due[1] in due;
    var i :| 0 <= i < |outbox| && outbox[i] == due[0];
    var j :| 0 <= j < |outbox| && outbox[j] == due[1];
    assert due[0].eventId != due[1].eventId;
    FirstComesFirst(outbox, now, i, j);
    assert Reached(outbox[j], accepted + {(due[1].eventId, due[1].event)});
  }

  lemma FirstComesFirst(outbox: seq<OutboxRow>, now: Instant, i: nat, j: nat)
    requires DistinctEvents(outbox) && i < |outbox| && j < |outbox|
    requires var due := DueEvents(outbox, now, {}); |due| >= 2 && outbox[i] == due[0] && outbox[j] == due[1]
    ensures i < j
  {
    hide DueEvents;
    var due := DueEvents(outbox, now, {});
    DueEventsAreDue(outbox, now, {});
    DueEventsDiffer(outbox, now, {});
    assert due[0] in due && due[1] in due && due[0].eventId != due[1].eventId;
    DuePlace(outbox, now, {}, i);
    DuePlace(outbox, now, {}, j);
    if j < i { EarlierIsClaimedFirst(outbox, now, {}, j, i); }
  }
}
