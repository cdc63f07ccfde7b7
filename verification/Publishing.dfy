/** The publisher: an event stays in the queue until the broker has taken it, under the same id. */
module Publishing {
  import opened Base
  import opened Domain
  import opened Tables
  import opened Decisions
  import opened Runs
  import opened Storage
  import opened Outcomes
  import opened Ports

  /** The broker takes an event or refuses it; one it reports as refused may have been taken. */
  class Broker {
    ghost var accepted: set<(string, Event)>

    /** What it was asked to take, and what it said. */
    ghost var answers: seq<(string, bool)>

    constructor ()
      ensures accepted == {} && answers == []
    {
      accepted, answers := {}, [];
    }

    method Publish(row: OutboxRow) returns (ok: bool)
      modifies this
      ensures old(accepted) <= accepted <= old(accepted) + {(row.eventId, row.event)}
      ensures ok ==> (row.eventId, row.event) in accepted
      ensures answers == old(answers) + [(row.eventId, ok)]
    {
      ok := *;
      if ok { accepted := accepted + {(row.eventId, row.event)}; }
      answers := answers + [(row.eventId, ok)];
    }
  }

  /** Nothing counts as published that the broker never took. */
  ghost predicate PublishedWereAccepted(outbox: seq<OutboxRow>, accepted: set<(string, Event)>) {
    forall i :: 0 <= i < |outbox| && outbox[i].publishedAt != 0 ==> (outbox[i].eventId, outbox[i].event) in accepted
  }

  /** A claimed row and what the broker said of it. */
  datatype Offered = Offered(row: OutboxRow, ok: bool)

  function RowsIn(offered: seq<Offered>): (rows: seq<OutboxRow>)
    ensures |rows| == |offered| && forall k :: 0 <= k < |rows| ==> rows[k] == offered[k].row
  {
    seq(|offered|, k requires 0 <= k < |offered| => offered[k].row)
  }

  function AnswersIn(offered: seq<Offered>): (answers: seq<(string, bool)>)
    ensures |answers| == |offered|
    ensures forall k :: 0 <= k < |answers| ==> answers[k] == (offered[k].row.eventId, offered[k].ok)
  {
    seq(|offered|, k requires 0 <= k < |offered| => (offered[k].row.eventId, offered[k].ok))
  }

  /**
   * What becomes of a claimed row: taken, it is published now; refused, it has one attempt
   * more and is due again after a wait between half the backoff and all of it.
   */
  ghost predicate Handled(policy: Policy, a: OutboxRow, b: OutboxRow, ok: bool, now: Instant,
                          accepted: set<(string, Event)>)
    requires Normalised(policy)
  {
    if ok then b == a.(publishedAt := now) && (a.eventId, a.event) in accepted
    else
      && b == a.(attempts := a.attempts + 1, nextAttemptAt := b.nextAttemptAt)
      && now <= b.nextAttemptAt <= now + policy.maxBackoff
      && (Unwrapped(policy) ==>
            now + Backoff(policy, a.attempts) / 2 <= b.nextAttemptAt <= now + Backoff(policy, a.attempts))
  }

  predicate Claims(claimed: seq<OutboxRow>, id: string) {
    exists k :: 0 <= k < |claimed| && claimed[k].eventId == id
  }

  predicate Offers(offered: seq<Offered>, id: string) {
    exists k :: 0 <= k < |offered| && offered[k].row.eventId == id
  }

  /** The outbox after some of the claimed rows were offered: each as it was answered, every other untouched. */
  ghost predicate Passed(policy: Policy, before: seq<OutboxRow>, after: seq<OutboxRow>, offered: seq<Offered>,
                         now: Instant, accepted: set<(string, Event)>)
    requires Normalised(policy)
  {
    && |after| == |before|
    && (forall i, k :: 0 <= i < |before| && 0 <= k < |offered| && offered[k].row.eventId == before[i].eventId ==>
          Handled(policy, before[i], after[i], offered[k].ok, now, accepted))
    && (forall i :: 0 <= i < |before| && !Offers(offered, before[i].eventId) ==> after[i] == before[i])
  }

  /** Claimed rows stand in the outbox, unpublished, each once. */
  ghost predicate ClaimedFrom(outbox: seq<OutboxRow>, claimed: seq<OutboxRow>) {
    && (forall k :: 0 <= k < |claimed| ==> claimed[k] in outbox && claimed[k].publishedAt == 0)
    && (forall j, k :: 0 <= j < k < |claimed| ==> claimed[j].eventId != claimed[k].eventId)
  }

  lemma {:induction false} DueEventsAreDue(outbox: seq<OutboxRow>, now: Instant, held: set<string>)
    ensures forall row :: row in DueEvents(outbox, now, held)
                          <==> row in outbox && IsUnsent(row, now) && row.eventId !in held
  {
    if outbox != [] {
      var front, last := outbox[..|outbox| - 1], outbox[|outbox| - 1];
      DueEventsAreDue(front, now, held);
      assert outbox == front + [last];
    }
  }

  lemma {:induction false} DueEventsDiffer(outbox: seq<OutboxRow>, now: Instant, held: set<string>)
    requires DistinctEvents(outbox)
    ensures DistinctEvents(DueEvents(outbox, now, held))
  {
    if outbox != [] {
      var front, last := outbox[..|outbox| - 1], outbox[|outbox| - 1];
      DueEventsDiffer(front, now, held);
      DueEventsAreDue(front, now, held);
      var due := DueEvents(front, now, held);
      forall k | 0 <= k < |due|
        ensures due[k].eventId != last.eventId
      {
        assert due[k] in front;
        var i :| 0 <= i < |front| && front[i] == due[k];
        assert outbox[i] == front[i];
      }
    }
  }

  predicate NoneHeld(claimed: seq<OutboxRow>, held: set<string>) {
    forall k :: 0 <= k < |claimed| ==> claimed[k].eventId !in held
  }

  lemma DueEventsAreClaimable(outbox: seq<OutboxRow>, now: Instant, held: set<string>)
    requires DistinctEvents(outbox)
    ensures ClaimedFrom(outbox, DueEvents(outbox, now, held)) && NoneHeld(DueEvents(outbox, now, held), held)
    ensures forall row :: row in outbox && IsUnsent(row, now) && row.eventId !in held ==>
              row in DueEvents(outbox, now, held)
  {
    DueEventsAreDue(outbox, now, held);
    DueEventsDiffer(outbox, now, held);
    var due := DueEvents(outbox, now, held);
    forall k | 0 <= k < |due|
      ensures due[k] in outbox && IsUnsent(due[k], now) && due[k].eventId !in held
    {
      assert due[k] in due;
    }
  }

  lemma PassIsRepublication(policy: Policy, before: seq<OutboxRow>, after: seq<OutboxRow>, offered: seq<Offered>,
                            now: Instant, accepted: set<(string, Event)>)
    requires Normalised(policy) && Passed(policy, before, after, offered, now, accepted)
    requires DistinctEvents(before) && ClaimedFrom(before, RowsIn(offered))
    ensures Republished(before, after) && DistinctEvents(after)
    ensures PublishedWereAccepted(before, accepted) ==> PublishedWereAccepted(after, accepted)
  {
    hide Backoff;
    forall i | 0 <= i < |before|
      ensures after[i].eventId == before[i].eventId && after[i].event == before[i].event
      ensures before[i].publishedAt != 0 ==> before[i] == after[i]
      ensures after[i].publishedAt != 0 && after[i] != before[i] ==> (after[i].eventId, after[i].event) in accepted
    {
      if Offers(offered, before[i].eventId) {
        var k :| 0 <= k < |offered| && offered[k].row.eventId == before[i].eventId;
        assert RowsIn(offered)[k] in before;
        var j :| 0 <= j < |before| && before[j] == offered[k].row;
        assert j == i;
        assert Handled(policy, before[i], after[i], offered[k].ok, now, accepted);
      }
    }
  }

  /** One more claimed row is dealt with. */
  lemma OneMorePassed(policy: Policy, before: seq<OutboxRow>, mid: seq<OutboxRow>, after: seq<OutboxRow>,
                      offered: seq<Offered>, o: Offered, now: Instant, accepted0: set<(string, Event)>,
                      accepted: set<(string, Event)>)
    requires Normalised(policy) && Passed(policy, before, mid, offered, now, accepted0) && accepted0 <= accepted
    requires !Offers(offered, o.row.eventId) && o.row.publishedAt == 0 && o.row in before && DistinctEvents(before)
    requires |after| == |mid|
    requires forall i :: 0 <= i < |mid| ==>
               if mid[i].eventId == o.row.eventId && mid[i].publishedAt == 0
               then Handled(policy, mid[i], after[i], o.ok, now, accepted) else after[i] == mid[i]
    ensures Passed(policy, before, after, offered + [o], now, accepted)
  {
    hide Backoff;
    var more := offered + [o];
    assert more[|offered|] == o;
    forall i, k | 0 <= i < |before| && 0 <= k < |more| && more[k].row.eventId == before[i].eventId
      ensures Handled(policy, before[i], after[i], more[k].ok, now, accepted)
    {
      if k < |offered| {
        assert more[k] == offered[k] && Offers(offered, before[i].eventId);
        assert Handled(policy, before[i], mid[i], offered[k].ok, now, accepted0);
        assert mid[i].eventId != o.row.eventId;
      } else {
        var j :| 0 <= j < |before| && before[j] == o.row;
        assert j == i && !Offers(offered, before[i].eventId) && mid[i] == before[i];
      }
    }
    forall i | 0 <= i < |before| && !Offers(more, before[i].eventId)
      ensures after[i] == before[i]
    {
      NotOffered(offered, o, before[i].eventId);
      assert mid[i] == before[i];
    }
  }

  lemma NotOffered(offered: seq<Offered>, o: Offered, id: string)
    requires !Offers(offered + [o], id)
    ensures !Offers(offered, id) && o.row.eventId != id
  {
    var more := offered + [o];
    assert more[|offered|] == o;
    assert forall k :: 0 <= k < |offered| ==> more[k] == offered[k];
  }

  lemma NextOfferAt(policy: Policy, now: Instant, attempts: nat, jitter: nat)
    requires Normalised(policy)
    ensures var at := NextAttemptAt(policy, now, attempts + 1, jitter);
            && now <= at <= now + policy.maxBackoff
            && (Unwrapped(policy) ==> now + Backoff(policy, attempts) / 2 <= at <= now + Backoff(policy, attempts))
  {
    hide Window, Backoff;
    WindowIsPositive(policy, attempts + 1);
    if Unwrapped(policy) { BackoffIsTheWindow(policy, attempts); }
  }

  /** Offers one claimed row, and publishes it or puts it back as the broker answered; nothing else is touched. */
  method PublishOne(store: Store, broker: Broker, policy: Policy, row: OutboxRow, now: Instant, jitter: nat)
    returns (ghost ok: bool)
    requires Normalised(policy) && DistinctEvents(store.outbox) && row in store.outbox && row.publishedAt == 0
    modifies store`outbox, broker
    ensures |store.outbox| == |old(store.outbox)| && old(broker.accepted) <= broker.accepted
    ensures broker.answers == old(broker.answers) + [(row.eventId, ok)]
    ensures forall i :: 0 <= i < |store.outbox| ==>
              if old(store.outbox)[i].eventId == row.eventId && old(store.outbox)[i].publishedAt == 0
              then Handled(policy, old(store.outbox)[i], store.outbox[i], ok, now, broker.accepted)
              else store.outbox[i] == old(store.outbox)[i]
  {
    hide Window, Backoff;
    ghost var k :| 0 <= k < |store.outbox| && store.outbox[k] == row;
    assert forall i :: 0 <= i < |store.outbox| && store.outbox[i].eventId == row.eventId ==> i == k;
    var answer := broker.Publish(row);
    ok := answer;
    if !answer {
      NextOfferAt(policy, now, row.attempts, jitter);
      store.RescheduleEvent(row.eventId, NextAttemptAt(policy, now, row.attempts + 1, jitter));
      return;
    }
    var marked := store.MarkPublished(row.eventId, now);
    assert marked.Ok?;
  }

  /** What other instances do meanwhile: they may commit, publish to the same broker, take locks and release them. */
  method OthersPublish(store: Store, broker: Broker)
    requires Inv(store.View()) && PublishedWereAccepted(store.outbox, broker.accepted)
    modifies store, broker
    ensures Inv(store.View()) && Extends(old(store.View()), store.View())
    ensures old(broker.accepted) <= broker.accepted && PublishedWereAccepted(store.outbox, broker.accepted)
    ensures old(broker.answers) <= broker.answers
  {
    store.heldEvents := *;
    ExtendsReflexive(store.View());
  }

  /** What a try did: the events others held, and those it claimed, each with its answer. */
  datatype Batch = Batch(held: set<string>, offered: seq<Offered>)

  /** It took the first of the due rows nobody else held, and dealt with each as it was answered. */
  ghost predicate Dealt(policy: Policy, before: seq<OutboxRow>, after: seq<OutboxRow>, b: Batch, now: Instant,
                        batchSize: nat, accepted: set<(string, Event)>)
    requires Normalised(policy)
  {
    && RowsIn(b.offered) == Firsts(DueEvents(before, now, b.held), batchSize)
    && Passed(policy, before, after, b.offered, now, accepted)
  }

  /**
   * One try. Each row it claims ends published, if the broker said it was taken, or else
   * unpublished with one attempt more; every other row is untouched, and the count is of
   * rows claimed, not of rows published.
   */
  method PassOnce(store: Store, broker: Broker, policy: Policy, batchSize: nat, now: Instant, jitter: nat)
    returns (count: nat, ghost b: Batch)
    requires Normalised(policy) && Inv(store.View()) && now != 0
    requires PublishedWereAccepted(store.outbox, broker.accepted)
    modifies store`outbox, broker
    ensures Dealt(policy, old(store.outbox), store.outbox, b, now, batchSize, broker.accepted)
    ensures b.held == store.heldEvents && count == |b.offered|
    ensures old(broker.accepted) <= broker.accepted && broker.answers == old(broker.answers) + AnswersIn(b.offered)
    ensures Republished(old(store.outbox), store.outbox)
    ensures PublishedWereAccepted(old(store.outbox), broker.accepted)
    ensures PublishedWereAccepted(store.outbox, broker.accepted)
  {
    hide Inv, Passed, DueEvents, PublishedWereAccepted, Handled, ClaimedFrom, DistinctEvents, Republished;
    ghost var before := store.outbox;
    assert DistinctEvents(before) by { OutboxIsDistinct(store.View()); }
    DueEventsAreClaimable(before, now, store.heldEvents);
    var due := store.ClaimDueEvents(now, batchSize);
    count := 0;
    ghost var offered: seq<Offered> := [];
    FirstsAreClaimable(before, DueEvents(before, now, store.heldEvents), batchSize);
    NothingPassed(policy, before, now, broker.accepted);
    assert RowsIn(offered) == due[..0];
    while count < |due|
      invariant count <= |due| && RowsIn(offered) == due[..count]
      invariant Passed(policy, before, store.outbox, offered, now, broker.accepted)
      invariant old(broker.accepted) <= broker.accepted
      invariant broker.answers == old(broker.answers) + AnswersIn(offered)
    {
      ghost var mid, accepted0 := store.outbox, broker.accepted;
      ClaimedPrefix(before, due, count);
      StillThere(policy, before, mid, due, offered, now, accepted0);
      PassIsRepublication(policy, before, mid, offered, now, accepted0);
      ghost var ok := PublishOne(store, broker, policy, due[count], now, jitter);
      ghost var o := Offered(due[count], ok);
      OneMorePassed(policy, before, mid, store.outbox, offered, o, now, accepted0, broker.accepted);
      assert AnswersIn(offered + [o]) == AnswersIn(offered) + [(due[count].eventId, ok)];
      assert RowsIn(offered + [o]) == due[..count + 1];
      offered := offered + [o];
      count := count + 1;
    }
    assert due[..count] == due;
    b := Batch(store.heldEvents, offered);
    PassIsRepublication(policy, before, store.outbox, offered, now, broker.accepted);
    AcceptedGrows(before, old(broker.accepted), broker.accepted);
  }

  /* ---- what the count tells ---- */

  /** The rows claimed by all of these tries. */
  function ClaimedBy(tries: seq<Try<Batch>>): nat {
    if tries == [] then 0 else ClaimedBy(tries[..|tries| - 1]) + |tries[|tries| - 1].saw.offered|
  }

  /** How many of them the broker said it took. */
  function TakenIn(offered: seq<Offered>): nat {
    if offered == [] then 0
    else TakenIn(offered[..|offered| - 1]) + (if offered[|offered| - 1].ok then 1 else 0)
  }

  predicate AllTaken(offered: seq<Offered>) { forall k :: 0 <= k < |offered| ==> offered[k].ok }

  lemma {:induction false} TakenAtMost(offered: seq<Offered>)
    ensures TakenIn(offered) <= |offered| && (TakenIn(offered) == |offered| <==> AllTaken(offered))
  {
    if offered != [] { TakenAtMost(offered[..|offered| - 1]); }
  }

  predicate NoneClaimed(tries: seq<Try<Batch>>) { forall i :: 0 <= i < |tries| ==> tries[i].saw.offered == [] }

  lemma {:induction false} NoClaims(tries: seq<Try<Batch>>)
    ensures ClaimedBy(tries) == 0 <==> NoneClaimed(tries)
  {
    if tries != [] { NoClaims(tries[..|tries| - 1]); }
  }

  /** Every earlier try claimed nothing, and the last one put nothing back. */
  predicate CountIsTrue(tries: seq<Try<Batch>>)
    requires tries != []
  {
    NoneClaimed(tries[..|tries| - 1]) && AllTaken(tries[|tries| - 1].saw.offered)
  }

  /** The count is that of the events the committed try published, iff no other try claimed any and it put none back. */
  lemma CountTellsPublished(tries: seq<Try<Batch>>)
    requires tries != []
    ensures ClaimedBy(tries) == TakenIn(tries[|tries| - 1].saw.offered) <==> CountIsTrue(tries)
  {
    NoClaims(tries[..|tries| - 1]);
    TakenAtMost(tries[|tries| - 1].saw.offered);
  }

  /** An outbox of one row whose time has come. */
  predicate LoneDue(row: OutboxRow, now: Instant) { IsUnsent(row, now) && now != 0 }

  lemma LoneDealt(policy: Policy, row: OutboxRow, after: OutboxRow, ok: bool, now: Instant,
                  accepted: set<(string, Event)>)
    requires Normalised(policy) && LoneDue(row, now) && Handled(policy, row, after, ok, now, accepted)
    ensures Dealt(policy, [row], [after], Batch({}, [Offered(row, ok)]), now, 1, accepted)
  {
    hide Handled;
    assert DueEvents([row][..0], now, {}) == [];
    assert RowsIn([Offered(row, ok)]) == [row];
    assert Offers([Offered(row, ok)], row.eventId) by { assert [Offered(row, ok)][0].row.eventId == row.eventId; }
  }

  /** A row the broker refused is counted all the same; one that is retried is counted twice. */
  lemma CountCanMislead(policy: Policy, db: Db, row: OutboxRow, now: Instant, jitter: nat)
    requires Normalised(policy) && LoneDue(row, now)
    ensures var at := NextAttemptAt(policy, now, row.attempts + 1, jitter);
            var refused, taken := Batch({}, [Offered(row, false)]), Batch({}, [Offered(row, true)]);
            && Dealt(policy, [row], [row.(attempts := row.attempts + 1, nextAttemptAt := at)], refused, now, 1, {})
            && ClaimedBy([Try(db, Granted, refused)]) == 1 && TakenIn(refused.offered) == 0
            && Dealt(policy, [row], [row.(publishedAt := now)], taken, now, 1, {(row.eventId, row.event)})
            && ClaimedBy([Try(db, Denied(SerializationFailure), taken), Try(db, Granted, taken)]) == 2
            && TakenIn(taken.offered) == 1
  {
    hide Window, Dealt, Backoff;
    var at := NextAttemptAt(policy, now, row.attempts + 1, jitter);
    NextOfferAt(policy, now, row.attempts, jitter);
    LoneDealt(policy, row, row.(attempts := row.attempts + 1, nextAttemptAt := at), false, now, {});
    LoneDealt(policy, row, row.(publishedAt := now), true, now, {(row.eventId, row.event)});
    var refused, taken := Batch({}, [Offered(row, false)]), Batch({}, [Offered(row, true)]);
    var first, second := Try(db, Denied(SerializationFailure), taken), Try(db, Granted, taken);
    OneMoreClaim([], Try(db, Granted, refused));
    OneMoreClaim([], first);
    OneMoreClaim([first], second);
    assert [] + [Try(db, Granted, refused)] == [Try(db, Granted, refused)] && [] + [first] == [first];
    assert [first] + [second] == [first, second];
    assert refused.offered[..0] == [] && taken.offered[..0] == [];
  }

  lemma OneMoreClaim(tries: seq<Try<Batch>>, t: Try<Batch>)
    ensures ClaimedBy(tries + [t]) == ClaimedBy(tries) + |t.saw.offered|
  {
    assert (tries + [t])[..|tries|] == tries;
  }

  /** Each try claimed the first of what was due and free on its state, and failed only if it was denied. */
  ghost predicate BatchesFit(from: Db, tries: seq<Try<Batch>>, nows: seq<Instant>, batchSize: nat) {
    && |tries| <= |nows| && InSequence(from, tries)
    && forall i :: 0 <= i < |tries| ==>
         && RowsIn(tries[i].saw.offered)
            == Firsts(DueEvents(tries[i].begun.outbox, nows[i], tries[i].saw.held), batchSize)
         && Fits(tries[i].fate, None)
  }

  /** A committed try has dealt with what it claimed and changed nothing else; any other has changed nothing. */
  ghost predicate Finished(policy: Policy, t: Try<Batch>, after: Db, now: Instant, batchSize: nat,
                           accepted: set<(string, Event)>)
    requires Normalised(policy)
  {
    if t.fate.Granted? then
      && Dealt(policy, t.begun.outbox, after.outbox, t.saw, now, batchSize, accepted)
      && after == t.begun.(outbox := after.outbox)
    else after == t.begun
  }

  /** The broker's latest answers are these. */
  predicate EndsWith(answers: seq<(string, bool)>, last: seq<(string, bool)>) {
    |last| <= |answers| && answers[|answers| - |last|..] == last
  }

  /**
   * One pass, tried again while the commit fails for a transient reason. A try that does
   * not commit changes no row, though the broker may have taken some: they will go out
   * again under the same ids. The count is not reset between tries.
   */
  method RunOnce(store: Store, broker: Broker, policy: Policy, batchSize: nat, nows: seq<Instant>, jitter: nat)
    returns (published: nat, failed: Option<Error>, ghost tries: seq<Try<Batch>>)
    requires Normalised(policy) && Inv(store.View()) && nows != [] && forall i :: 0 <= i < |nows| ==> nows[i] != 0
    requires PublishedWereAccepted(store.outbox, broker.accepted)
    modifies store, broker
    ensures Inv(store.View()) && Extends(old(store.View()), store.View())
    ensures old(broker.accepted) <= broker.accepted && PublishedWereAccepted(store.outbox, broker.accepted)
    ensures 1 <= |tries| <= |nows| && BatchesFit(old(store.View()), tries, nows, batchSize)
    ensures published == ClaimedBy(tries) && failed == FailureOf(tries[|tries| - 1].fate)
    ensures IsRetried(tries[|tries| - 1].fate) ==> |tries| == |nows|
    ensures EndsWith(broker.answers, AnswersIn(tries[|tries| - 1].saw.offered))
    ensures Finished(policy, tries[|tries| - 1], store.View(), nows[|tries| - 1], batchSize, broker.accepted)
    ensures failed.None? ==> (published == TakenIn(tries[|tries| - 1].saw.offered) <==> CountIsTrue(tries))
    ensures failed.Some? ==> (published == 0 <==> NoneClaimed(tries))
  {
    hide Inv, Extends, Dealt, PublishedWereAccepted, Republished, ClaimedBy, TakenIn, Prior, BatchesFit, AnswersIn,
      EndsWith, NoneClaimed, AllTaken, InSequence, DueEvents, Firsts, RowsIn, Fits, CountIsTrue, FateOf, NextAttemptAt,
      DistinctEvents, Unique;
    published, failed, tries := 0, Some(Unavailable), [];
    var n := 0;
    ExtendsReflexive(store.View());
    NoBatches(store.View(), nows, batchSize);
    while n < |nows|
      invariant n == |tries| <= |nows| && published == ClaimedBy(tries)
      invariant BatchesFit(old(store.View()), tries, nows, batchSize)
      invariant Inv(store.View()) && store.View() == Prior(old(store.View()), tries, n)
      invariant Extends(old(store.View()), store.View())
      invariant old(broker.accepted) <= broker.accepted && PublishedWereAccepted(store.outbox, broker.accepted)
      invariant 0 < n ==>
                  && IsRetried(tries[n - 1].fate) && failed == FailureOf(tries[n - 1].fate)
                  && store.View() == tries[n - 1].begun
                  && EndsWith(broker.answers, AnswersIn(tries[n - 1].saw.offered))
      modifies store, broker
    {
      ghost var earlier := store.View();
      OthersPublish(store, broker);
      ghost var begun := store.View();
      ExtendsTransitive(old(store.View()), earlier, begun);
      ExtendsReflexive(begun);
      var start := store.View();
      ghost var asked := broker.answers;
      var count, b := PassOnce(store, broker, policy, batchSize, nows[n], jitter);
      PublishKeeps(begun, store.outbox);
      assert store.View() == begun.(outbox := store.outbox);
      failed := TryCommit();
      ghost var t := Try(begun, FateOf(None, failed), b);
      OneMoreClaim(tries, t);
      DealtClaims(policy, begun.outbox, store.outbox, b, nows[n], batchSize, broker.accepted);
      OneMoreBatch(old(store.View()), tries, nows, batchSize, t);
      published, tries, n := published + count, tries + [t], n + 1;
      LastBegun(old(store.View()), tries);
      NoClaims(tries);
      CountTellsPublished(tries);
      LatestAnswers(asked, b.offered, broker.answers);
      if failed.None? {
        ExtendsTransitive(old(store.View()), begun, store.View());
        return;
      }
      store.Restore(start);
      if !Transient(failed.value) { return; }
    }
    NoClaims(tries);
  }

  lemma LatestAnswers(asked: seq<(string, bool)>, offered: seq<Offered>, answers: seq<(string, bool)>)
    requires answers == asked + AnswersIn(offered)
    ensures EndsWith(answers, AnswersIn(offered))
  {
    assert answers[|asked|..] == AnswersIn(offered);
  }

  lemma DealtClaims(policy: Policy, before: seq<OutboxRow>, after: seq<OutboxRow>, b: Batch, now: Instant,
                    batchSize: nat, accepted: set<(string, Event)>)
    requires Normalised(policy) && Dealt(policy, before, after, b, now, batchSize, accepted)
    ensures RowsIn(b.offered) == Firsts(DueEvents(before, now, b.held), batchSize)
  {
  }

  lemma NoBatches(from: Db, nows: seq<Instant>, batchSize: nat)
    ensures BatchesFit(from, [], nows, batchSize) && ClaimedBy([]) == 0 && Prior<Batch>(from, [], 0) == from
  {
  }

  lemma OneMoreBatch(from: Db, tries: seq<Try<Batch>>, nows: seq<Instant>, batchSize: nat, t: Try<Batch>)
    requires BatchesFit(from, tries, nows, batchSize) && |tries| < |nows| && Fits(t.fate, None)
    requires RowsIn(t.saw.offered) == Firsts(DueEvents(t.begun.outbox, nows[|tries|], t.saw.held), batchSize)
    requires Inv(t.begun) && Extends(Prior(from, tries, |tries|), t.begun)
    requires tries != [] ==> IsRetried(tries[|tries| - 1].fate)
    ensures BatchesFit(from, tries + [t], nows, batchSize)
  {
    hide DueEvents, RowsIn, Inv, Extends, Prior, InSequence, Fits, IsRetried;
    OneMoreTry(from, tries, t);
  }

  lemma OutboxIsDistinct(db: Db)
    requires Inv(db)
    ensures DistinctEvents(db.outbox)
  {
  }

  lemma AcceptedGrows(outbox: seq<OutboxRow>, a: set<(string, Event)>, b: set<(string, Event)>)
    requires PublishedWereAccepted(outbox, a) && a <= b
    ensures PublishedWereAccepted(outbox, b)
  {
  }

  lemma FirstsAreClaimable(outbox: seq<OutboxRow>, claimed: seq<OutboxRow>, n: nat)
    requires ClaimedFrom(outbox, claimed)
    ensures ClaimedFrom(outbox, Firsts(claimed, n))
  {
  }

  lemma ClaimedPrefix(outbox: seq<OutboxRow>, claimed: seq<OutboxRow>, n: nat)
    requires ClaimedFrom(outbox, claimed) && n <= |claimed|
    ensures ClaimedFrom(outbox, claimed[..n])
  {
  }

  lemma NothingPassed(policy: Policy, outbox: seq<OutboxRow>, now: Instant, accepted: set<(string, Event)>)
    requires Normalised(policy)
    ensures Passed(policy, outbox, outbox, [], now, accepted)
  {
  }

  /** A row not offered yet is still in the outbox as it was claimed. */
  lemma StillThere(policy: Policy, before: seq<OutboxRow>, mid: seq<OutboxRow>, claimed: seq<OutboxRow>,
                   offered: seq<Offered>, now: Instant, accepted: set<(string, Event)>)
    requires Normalised(policy) && ClaimedFrom(before, claimed) && |offered| < |claimed|
    requires RowsIn(offered) == claimed[..|offered|] && Passed(policy, before, mid, offered, now, accepted)
    ensures !Offers(offered, claimed[|offered|].eventId) && claimed[|offered|] in before
    ensures claimed[|offered|] in mid && claimed[|offered|].publishedAt == 0
  {
    hide Handled;
    var n := |offered|;
    var i :| 0 <= i < |before| && before[i] == claimed[n];
    assert forall k :: 0 <= k < n ==> offered[k].row == RowsIn(offered)[k] == claimed[k];
    assert mid[i] == before[i];
  }
}
