/** Whole runs: any sequence of openings, submissions, deliveries, visits and publish passes. */
module Runs {
  import opened Money
  import opened Domain
  import opened Commands
  import opened Tables
  import opened Steps
  import opened Decisions
  import opened Serial
  import opened Openings
  import opened Queue

  datatype Action =
    | OpenAction(playerId: string, initial: Money, walletId: string, stamp: Stamp)
    | SubmitAction(command: SubmitCommand, stamp: Stamp, jitter: nat)
    | VisitAction(id: string, stamp: Stamp, jitter: nat)
    | DeliverAction(consumer: string, envelope: Envelope, stamp: Stamp, jitter: nat)
    | PublishAction(outbox: seq<OutboxRow>)

  /** A publish pass reschedules or marks rows; it never touches what they say or their ids. */
  predicate Republished(a: seq<OutboxRow>, b: seq<OutboxRow>) {
    |a| == |b| &&
    forall i :: 0 <= i < |a| ==>
      && a[i].eventId == b[i].eventId && a[i].event == b[i].event
      && (a[i].publishedAt != 0 ==> a[i] == b[i])
  }

  /** The clock has left zero. */
  predicate Ticking(a: Action) {
    match a
    case OpenAction(_, _, _, stamp) => 0 < stamp.now
    case SubmitAction(_, stamp, _) => 0 < stamp.now
    case VisitAction(_, stamp, _) => 0 < stamp.now
    case DeliverAction(_, _, stamp, _) => 0 < stamp.now
    case PublishAction(_) => true
  }

  ghost function Next(policy: Policy, db: Db, a: Action): Db
    requires Normalised(policy)
  {
    match a
    case OpenAction(playerId, initial, walletId, stamp) =>
      var o := Open(playerId, initial, walletId, stamp);
      if o.Ok? && OpeningAdmitted(db, o.value, stamp) then CommitOpening(db, o.value, stamp) else db
    case SubmitAction(command, stamp, jitter) =>
      After(db, Submit(policy, db, Parse(command), stamp, jitter), stamp)
    case VisitAction(id, stamp, jitter) =>
      if Due(db, id, stamp.now) then After(db, Visit(policy, db, id, stamp, jitter), stamp) else db
    case DeliverAction(consumer, envelope, stamp, jitter) =>
      Deliver(policy, db, consumer, envelope, stamp, jitter).0
    case PublishAction(outbox) =>
      if Republished(db.outbox, outbox) then db.(outbox := outbox) else db
  }

  ghost function Run(policy: Policy, db: Db, actions: seq<Action>): Db
    requires Normalised(policy)
    decreases |actions|
  {
    if actions == [] then db else Run(policy, Next(policy, db, actions[0]), actions[1..])
  }

  predicate AllTicking(actions: seq<Action>) {
    forall i :: 0 <= i < |actions| ==> Ticking(actions[i])
  }

  /* ---- the invariant over every run ---- */

  lemma MarkKeeps(db: Db, key: (string, string), hash: string, now: Instant)
    requires Inv(db) && now != 0 && key !in db.inbox
    ensures Inv(Mark(db, key, hash, now)) && Extends(db, Mark(db, key, hash, now))
  {
    hide BooksBalance, LogComplete, RowFits, Unique, ReversalsResolve, LedgerExplained;
    var after := Mark(db, key, hash, now);
    assert forall w: Wallet :: BooksBalance(after, w) == BooksBalance(db, w) by {
      forall w: Wallet
        ensures BooksBalance(after, w) == BooksBalance(db, w)
      {
        BooksIgnoreInbox(db, key, hash, now, w);
      }
    }
    assert LedgerExplained(after) by { LedgerIgnoresInbox(db, key, hash, now); }
    ExtendsReflexive(db);
  }

  lemma BooksIgnoreInbox(db: Db, key: (string, string), hash: string, now: Instant, w: Wallet)
    ensures BooksBalance(Mark(db, key, hash, now), w) == BooksBalance(db, w)
  {
  }

  lemma LedgerIgnoresInbox(db: Db, key: (string, string), hash: string, now: Instant)
    ensures LedgerExplained(Mark(db, key, hash, now)) == LedgerExplained(db)
  {
  }

  lemma AnswerKeeps(policy: Policy, db: Db, a: Answer, stamp: Stamp)
    requires Inv(db) && (a.Settled? ==> Sound(db, a.eff, stamp))
    ensures Inv(After(db, a, stamp)) && Extends(db, After(db, a, stamp)) && After(db, a, stamp).inbox == db.inbox
  {
    hide Inv, Sound, Extends;
    if a.Settled? {
      CommitKeepsInvariant(db, a.eff, stamp);
      CommitExtends(db, a.eff, stamp);
    } else {
      ExtendsReflexive(db);
    }
  }

  lemma PublishKeeps(db: Db, outbox: seq<OutboxRow>)
    requires Inv(db) && Republished(db.outbox, outbox)
    ensures Inv(db.(outbox := outbox)) && Extends(db, db.(outbox := outbox))
  {
    hide LogComplete, RowFits, Unique, ReversalsResolve, LedgerExplained;
    assert Events(outbox) == Events(db.outbox);
    assert EventIds(outbox) == EventIds(db.outbox);
    assert DistinctEvents(outbox) by {
      forall i, j | 0 <= i < j < |outbox|
        ensures outbox[i].eventId != outbox[j].eventId
      {
        assert db.outbox[i].eventId != db.outbox[j].eventId;
      }
    }
    forall id | id in db.wallets
      ensures BooksBalance(db.(outbox := outbox), db.wallets[id])
    {
      assert BooksBalance(db, db.wallets[id]);
    }
    assert LedgerExplained(db.(outbox := outbox)) by { LedgerIgnoresOutbox(db, outbox); }
    ExtendsReflexive(db);
  }

  lemma LedgerIgnoresOutbox(db: Db, outbox: seq<OutboxRow>)
    ensures LedgerExplained(db.(outbox := outbox)) == LedgerExplained(db)
  {
  }

  /** One action keeps the invariant and only moves history forward. */
  lemma NextKeeps(policy: Policy, db: Db, a: Action)
    requires Normalised(policy) && Inv(db) && Ticking(a)
    ensures Inv(Next(policy, db, a)) && Extends(db, Next(policy, db, a))
  {
    hide Inv, Extends, Submit, Visit, Parse, PayloadHash, OpeningAdmitted, Open, CommitOpening, Sound, After, Mark,
      Republished;
    ExtendsReflexive(db);
    match a
    case OpenAction(playerId, initial, walletId, stamp) =>
      var o := Open(playerId, initial, walletId, stamp);
      if o.Ok? && OpeningAdmitted(db, o.value, stamp) {
        OpeningKeepsInvariant(db, playerId, initial, walletId, stamp);
      }
    case SubmitAction(command, stamp, jitter) =>
      SubmitIsSound(policy, db, Parse(command), stamp, jitter);
      AnswerKeeps(policy, db, Submit(policy, db, Parse(command), stamp, jitter), stamp);
    case VisitAction(id, stamp, jitter) =>
      if Due(db, id, stamp.now) {
        VisitIsSound(policy, db, id, stamp, jitter);
        AnswerKeeps(policy, db, Visit(policy, db, id, stamp, jitter), stamp);
      }
    case DeliverAction(consumer, envelope, stamp, jitter) =>
      if envelope.Request? && (consumer, envelope.messageId) !in db.inbox {
        var answer := Submit(policy, db, Parse(envelope.command), stamp, jitter);
        SubmitIsSound(policy, db, Parse(envelope.command), stamp, jitter);
        AnswerKeeps(policy, db, answer, stamp);
        var key := (consumer, envelope.messageId);
        MarkKeeps(After(db, answer, stamp), key, PayloadHash(envelope.command), stamp.now);
        ExtendsTransitive(db, After(db, answer, stamp),
                          Mark(After(db, answer, stamp), key, PayloadHash(envelope.command), stamp.now));
      }
    case PublishAction(outbox) =>
      if Republished(db.outbox, outbox) {
        PublishKeeps(db, outbox);
      }
  }

  /** Over any run from any sound state: the invariant holds and history only grows. */
  lemma {:induction false} RunKeeps(policy: Policy, db: Db, actions: seq<Action>)
    requires Normalised(policy) && Inv(db) && AllTicking(actions)
    ensures Inv(Run(policy, db, actions)) && Extends(db, Run(policy, db, actions))
    decreases |actions|
  {
    hide Inv, Extends, Next;
    ExtendsReflexive(db);
    if actions != [] {
      var next := Next(policy, db, actions[0]);
      NextKeeps(policy, db, actions[0]);
      RunKeeps(policy, next, actions[1..]);
      ExtendsTransitive(db, next, Run(policy, next, actions[1..]));
    }
  }
}
