/** Any delivery history: duplicates, crashes before commit, failed deletes, reused ids. */
module Deliveries {
  import opened Commands
  import opened Tables
  import opened Steps
  import opened Decisions
  import opened Serial
  import opened Openings
  import opened Queue
  import opened Runs
  import opened ExactlyOnce

  /** A message on the queue; the receipt tells two sends of one body apart. */
  datatype Message = Message(receipt: string, envelope: Envelope)

  datatype System = System(db: Db, waiting: set<Message>, sent: set<Message>)

  /** What befalls a delivery: it never commits, its delete or release is lost, or all goes well. */
  datatype Fate = Crashed | FinishFailed | Finished

  datatype Happening =
    | Send(message: Message)
    | Receive(message: Message, fate: Fate, stamp: Stamp, jitter: nat)
    | Elsewhere(action: Action)

  predicate Clocked(h: Happening) {
    match h
    case Send(_) => true
    case Receive(_, _, stamp, _) => 0 < stamp.now
    case Elsewhere(action) => Ticking(action)
  }

  predicate AllClocked(hs: seq<Happening>) {
    forall i :: 0 <= i < |hs| ==> Clocked(hs[i])
  }

  ghost function Follow(policy: Policy, consumer: string, s: System, h: Happening): System
    requires Normalised(policy)
  {
    match h
    case Send(m) => s.(waiting := s.waiting + {m}, sent := s.sent + {m})
    case Receive(m, fate, stamp, jitter) =>
      if m !in s.waiting || fate.Crashed? then s
      else
        var (db, disposal) := Deliver(policy, s.db, consumer, m.envelope, stamp, jitter);
        s.(db := db, waiting := if fate.Finished? && disposal.Delete? then s.waiting - {m} else s.waiting)
    case Elsewhere(action) => if action.DeliverAction? then s else s.(db := Next(policy, s.db, action))
  }

  ghost function History(policy: Policy, consumer: string, s: System, hs: seq<Happening>): System
    requires Normalised(policy)
    decreases |hs|
  {
    if hs == [] then s else History(policy, consumer, Follow(policy, consumer, s, hs[0]), hs[1..])
  }

  predicate Handled(db: Db, consumer: string, id: string) {
    (consumer, id) in db.inbox && db.inbox[(consumer, id)].completedAt != 0
  }

  /** Nothing is owed to the message: it cannot be read, or its handling is committed. */
  predicate Accounted(db: Db, consumer: string, e: Envelope) {
    e.Request? ==> Handled(db, consumer, e.messageId)
  }

  /** Every message ever sent is still waiting or accounted for. */
  ghost predicate NothingLost(s: System, consumer: string) {
    forall m :: m in s.sent ==> m in s.waiting || Accounted(s.db, consumer, m.envelope)
  }

  /** A delivery of this id that wrote something. */
  ghost predicate TakesEffect(policy: Policy, consumer: string, s: System, h: Happening, id: string)
    requires Normalised(policy)
  {
    h.Receive? && h.message.envelope.Request? && h.message.envelope.messageId == id
    && Follow(policy, consumer, s, h).db != s.db
  }

  ghost function Effects(policy: Policy, consumer: string, s: System, hs: seq<Happening>, id: string): nat
    requires Normalised(policy)
    decreases |hs|
  {
    if hs == [] then 0
    else (if TakesEffect(policy, consumer, s, hs[0], id) then 1 else 0)
         + Effects(policy, consumer, Follow(policy, consumer, s, hs[0]), hs[1..], id)
  }

  /**
   * A delivery either commits the effect and its completed record together, or
   * changes nothing; it asks for deletion only when nothing is owed, and a
   * recorded id is never handed back: "claimed but never completed" cannot be seen.
   */
  lemma DeliveryIsAllOrNothing(policy: Policy, db: Db, consumer: string, e: Envelope, stamp: Stamp, jitter: nat)
    requires Normalised(policy) && Inv(db) && 0 < stamp.now
    ensures var (after, disposal) := Deliver(policy, db, consumer, e, stamp, jitter);
            && Inv(after) && Extends(db, after)
            && (disposal.Delete? ==> Accounted(after, consumer, e))
            && (disposal.Release? ==> after == db && e.Request? && !Handled(db, consumer, e.messageId))
            && (after != db ==> e.Request? && (consumer, e.messageId) !in db.inbox
                                && Handled(after, consumer, e.messageId))
  {
    hide Inv, Extends, Submit, Parse, PayloadHash, After;
    NextKeeps(policy, db, DeliverAction(consumer, e, stamp, jitter));
    InboxIsComplete(db);
  }

  /**
   * A message seen before changes nothing, and is handed back only if its first handling
   * is not through. A new one is recorded now, with its fingerprint, beside whatever the
   * submission writes, a domain refusal included; any other refusal hands it back.
   */
  lemma DeliveredByTable(policy: Policy, db: Db, consumer: string, id: string, command: SubmitCommand, stamp: Stamp,
                         jitter: nat)
    requires Normalised(policy)
    ensures var key, a := (consumer, id), Submit(policy, db, Parse(command), stamp, jitter);
            var (after, disposal) := Deliver(policy, db, consumer, Envelope.Request(id, command), stamp, jitter);
            if key in db.inbox then
              var unfinished := db.inbox[key].payloadHash == PayloadHash(command) && db.inbox[key].completedAt == 0;
              after == db && disposal == if unfinished then Release else Delete
            else if a.Refused? && !a.error.Domain? then after == db && disposal == Release
            else
              && disposal == Delete
              && after.inbox == db.inbox[key := InboxRow(PayloadHash(command), stamp.now, stamp.now)]
              && after.wallets == After(db, a, stamp).wallets && after.transactions == After(db, a, stamp).transactions
              && after.ledger == After(db, a, stamp).ledger && after.outbox == After(db, a, stamp).outbox
  {
    hide Submit, Parse, PayloadHash, After;
    AfterKeepsInbox(db, Submit(policy, db, Parse(command), stamp, jitter), stamp);
  }

  lemma AfterKeepsInbox(db: Db, a: Answer, stamp: Stamp)
    ensures After(db, a, stamp).inbox == db.inbox
  {
  }

  lemma InboxIsComplete(db: Db)
    requires Inv(db)
    ensures forall k :: k in db.inbox ==> db.inbox[k].completedAt != 0
  {
  }

  lemma RecordsStay(a: Db, b: Db, consumer: string)
    requires Extends(a, b)
    ensures forall id :: Handled(a, consumer, id) ==> Handled(b, consumer, id)
    ensures forall e :: Accounted(a, consumer, e) ==> Accounted(b, consumer, e)
  {
  }

  lemma FollowKeeps(policy: Policy, consumer: string, s: System, h: Happening)
    requires Normalised(policy) && Inv(s.db) && NothingLost(s, consumer) && Clocked(h)
    ensures var s' := Follow(policy, consumer, s, h);
            Inv(s'.db) && Extends(s.db, s'.db) && NothingLost(s', consumer)
  {
    hide Inv, Extends, Deliver, Next, Accounted;
    ExtendsReflexive(s.db);
    match h
    case Send(_) =>
    case Receive(m, fate, stamp, jitter) =>
      if m in s.waiting && !fate.Crashed? {
        DeliveryIsAllOrNothing(policy, s.db, consumer, m.envelope, stamp, jitter);
        RecordsStay(s.db, Deliver(policy, s.db, consumer, m.envelope, stamp, jitter).0, consumer);
      }
    case Elsewhere(action) =>
      if !action.DeliverAction? {
        NextKeeps(policy, s.db, action);
        RecordsStay(s.db, Next(policy, s.db, action), consumer);
      }
  }

  /** Over any history no message is lost: it waits until its handling is committed. */
  lemma {:induction false} NoMessageIsLost(policy: Policy, consumer: string, s: System, hs: seq<Happening>)
    requires Normalised(policy) && Inv(s.db) && NothingLost(s, consumer) && AllClocked(hs)
    ensures var s' := History(policy, consumer, s, hs);
            Inv(s'.db) && Extends(s.db, s'.db) && NothingLost(s', consumer)
    decreases |hs|
  {
    hide Inv, Extends, NothingLost, Follow;
    ExtendsReflexive(s.db);
    if hs != [] {
      var next := Follow(policy, consumer, s, hs[0]);
      FollowKeeps(policy, consumer, s, hs[0]);
      NoMessageIsLost(policy, consumer, next, hs[1..]);
      ExtendsTransitive(s.db, next.db, History(policy, consumer, next, hs[1..]).db);
    }
  }

  /** Over any history a message id takes effect at most once, and never after it is recorded. */
  lemma {:induction false} EffectsAtMostOnce(policy: Policy, consumer: string, s: System, hs: seq<Happening>,
                                             id: string)
    requires Normalised(policy) && Inv(s.db) && NothingLost(s, consumer) && AllClocked(hs)
    ensures var n, after := Effects(policy, consumer, s, hs, id), History(policy, consumer, s, hs).db;
            && n <= 1
            && (n == 1 <==> !Handled(s.db, consumer, id) && Handled(after, consumer, id))
    decreases |hs|
  {
    hide Inv, Extends, NothingLost, Follow, TakesEffect, Handled;
    if hs != [] {
      var h, next := hs[0], Follow(policy, consumer, s, hs[0]);
      FollowKeeps(policy, consumer, s, h);
      EffectsAtMostOnce(policy, consumer, next, hs[1..], id);
      OneEffect(policy, consumer, s, h, id);
      NoMessageIsLost(policy, consumer, next, hs[1..]);
      RecordsStay(s.db, next.db, consumer);
      RecordsStay(next.db, History(policy, consumer, next, hs[1..]).db, consumer);
    }
  }

  /** Only an effective delivery records an id, and it does so once. */
  lemma OneEffect(policy: Policy, consumer: string, s: System, h: Happening, id: string)
    requires Normalised(policy) && Inv(s.db) && Clocked(h)
    ensures TakesEffect(policy, consumer, s, h, id)
            <==> !Handled(s.db, consumer, id) && Handled(Follow(policy, consumer, s, h).db, consumer, id)
  {
    hide Inv, Extends, Deliver, Next;
    match h
    case Send(_) =>
    case Receive(m, fate, stamp, jitter) =>
      if m in s.waiting && !fate.Crashed? {
        DeliveryIsAllOrNothing(policy, s.db, consumer, m.envelope, stamp, jitter);
        if !m.envelope.Request? || m.envelope.messageId != id {
          OnlyItsOwnRecord(policy, s.db, consumer, m.envelope, stamp, jitter, id);
        }
      }
    case Elsewhere(action) =>
      if !action.DeliverAction? { InboxUntouched(policy, s.db, action); }
  }

  lemma OnlyItsOwnRecord(policy: Policy, db: Db, consumer: string, e: Envelope, stamp: Stamp, jitter: nat, id: string)
    requires Normalised(policy)
    requires e.Request? ==> e.messageId != id
    ensures Handled(Deliver(policy, db, consumer, e, stamp, jitter).0, consumer, id) == Handled(db, consumer, id)
  {
    hide Submit, Parse, PayloadHash;
  }

  lemma InboxUntouched(policy: Policy, db: Db, a: Action)
    requires Normalised(policy) && !a.DeliverAction?
    ensures Next(policy, db, a).inbox == db.inbox
  {
    hide Submit, Visit, Parse, PayloadHash, Open, OpeningAdmitted, Recorded;
  }

  /** Another message about a stored operation writes its inbox record and nothing financial. */
  lemma SecondMessageMovesNothing(policy: Policy, db: Db, id: string, original: SubmitCommand,
                                  consumer: string, e: Envelope, stamp: Stamp, jitter: nat)
    requires Normalised(policy) && Inv(db) && id in db.transactions && e.Request?
    requires IsBusiness(db.transactions[id], e.command.providerId, e.command.externalId)
    requires db.transactions[id].payloadHash == PayloadHash(original)
    requires db.transactions[id].idempotencyKey == original.idempotencyKey
    ensures Deliver(policy, db, consumer, e, stamp, jitter).0.(inbox := db.inbox) == db
  {
    hide Inv, Submit, Parse, PayloadHash, After, IsBusiness;
    StoredOperationAnswers(policy, db, id, original, e.command, stamp, jitter);
  }
}
