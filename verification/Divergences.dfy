/** The ways in which the code does less than it seems do happen: runs that show them. */
module Divergences {
  import opened Base
  import opened Domain
  import opened Tables
  import opened Steps
  import opened Decisions
  import opened Serial
  import opened Queue
  import opened Runs
  import opened Interleaving
  import opened Locking
  import opened Refinement
  import opened ExactlyOnce

  /* ---- a submission that nobody is in the way of ---- */

  /** Waits beside a unit of work on this wallet without holding anything it needs. */
  predicate Bystander(t: Txn, wallet: string) {
    !t.phase.Writing? && Held(true, t) != Some(wallet)
  }

  ghost predicate AllBystanders(others: map<string, Txn>, tid: string, wallet: string) {
    tid !in others && forall o :: o in others ==> Bystander(others[o], wallet)
  }

  function Advances(tid: string, n: nat): (es: seq<Turn>)
    ensures |es| == n
  {
    if n == 0 then [] else [Advance(tid)] + Advances(tid, n - 1)
  }

  lemma AdvancesUnfold(policy: Policy, s: System, tid: string, n: nat)
    requires Normalised(policy) && 0 < n
    ensures History(policy, true, s, Advances(tid, n))
            == History(policy, true, Step(policy, true, s, Advance(tid)), Advances(tid, n - 1))
  {
    hide Step;
    assert ([Advance(tid)] + Advances(tid, n - 1))[1..] == Advances(tid, n - 1);
  }

  /** One statement of a unit of work on its own, and what is left to do after it. */
  lemma AloneStep(policy: Policy, db: Db, others: map<string, Txn>, tid: string, t: Txn, next: Txn, wallet: string,
                  n: nat)
    requires Normalised(policy) && AllBystanders(others, tid, wallet) && 0 < n
    requires Statement(policy, db, t) == Go(next) && next.job.SubmitJob? && next.message.None?
    requires Held(true, next).None? || Held(true, next) == Some(wallet)
    ensures History(policy, true, System(db, others[tid := t]), Advances(tid, n))
            == History(policy, true, System(db, others[tid := next]), Advances(tid, n - 1))
  {
    hide Statement, History;
    AdvancesUnfold(policy, System(db, others[tid := t]), tid, n);
    assert others[tid := t][tid := next] == others[tid := next];
  }

  /** The unit of work once it has decided, and written nothing yet. */
  function Deciding(t: Txn, row: Transaction, from: Wallet, v: Verdict, eff: Effect): Txn {
    t.(phase := Writing(row, from, v, eff, 0))
  }

  function Reads(row: Transaction): nat { if row.kind.IsReversal() then 4 else 3 }

  /** Lookup, wallet, reference and its reversals: alone, the decision is the serial one. */
  lemma ReadsAlone(policy: Policy, db: Db, others: map<string, Txn>, tid: string, t: Txn, n: nat)
    requires Normalised(policy) && t.job.SubmitJob? && t.message.None? && t.phase.Begun?
    requires AllBystanders(others, tid, t.job.request.walletId)
    requires Submit(policy, db, Ok(t.job.request), t.stamp, t.jitter).Settled?
    requires var row := NewExternal(t.stamp.transactionId, t.job.request, t.stamp.now);
             row.Ok? ==> Reads(row.value) <= n
    ensures NewExternal(t.stamp.transactionId, t.job.request, t.stamp.now).Ok?
    ensures var row := NewExternal(t.stamp.transactionId, t.job.request, t.stamp.now).value;
            var eff := Submit(policy, db, Ok(t.job.request), t.stamp, t.jitter).eff;
            && row.walletId == t.job.request.walletId && row.walletId in db.wallets
            && exists v :: History(policy, true, System(db, others[tid := t]), Advances(tid, n))
                           == History(policy, true,
                                      System(db, others[tid := Deciding(t, row, db.wallets[row.walletId], v, eff)]),
                                      Advances(tid, n - Reads(row)))
  {
    hide History, NewExternal, SettleReversal, SettleDirect, Park, FindByBusinessId, Judge, Unreversed, Fresh, Refusal,
      AllBystanders;
    var p := t.job.request;
    NewRowWallet(db, p, t.stamp);
    var row := NewRow(db, p, t.stamp).value;
    var from := db.wallets[row.walletId];
    var ready, holding := t.(phase := Ready(row)), t.(phase := Holding(row, from));
    AloneStep(policy, db, others, tid, t, ready, p.walletId, n);
    RequestAccepted(t.stamp.transactionId, p, t.stamp.now);
    AloneStep(policy, db, others, tid, ready, holding, p.walletId, n - 1);
    if row.kind.IsReversal() {
      var v := Judge(row, FindByBusinessId(db.transactions, row.providerId, row.referenceExternalId));
      AloneStep(policy, db, others, tid, holding, t.(phase := Judged(row, from, v)), p.walletId, n - 2);
      var w := Resolve(db.transactions, row);
      var writing := Deciding(t, row, from, w, Submit(policy, db, Ok(p), t.stamp, t.jitter).eff);
      AloneStep(policy, db, others, tid, t.(phase := Judged(row, from, v)), writing, p.walletId, n - 3);
    } else {
      var writing := Deciding(t, row, from, Wait, Submit(policy, db, Ok(p), t.stamp, t.jitter).eff);
      AloneStep(policy, db, others, tid, holding, writing, p.walletId, n - 2);
    }
  }

  function Writes(eff: Effect): nat { if eff.move.Some? then 5 else 3 }

  /** Row, balance, entry, events, commit: alone, nothing refuses what the serial model admits. */
  lemma WritesAlone(policy: Policy, db: Db, others: map<string, Txn>, tid: string, t: Txn)
    requires Normalised(policy) && t.job.SubmitJob? && t.message.None? && t.phase.Writing? && t.phase.done == 0
    requires AllBystanders(others, tid, t.phase.row.walletId)
    requires Sound(db, t.phase.eff, t.stamp) && !t.phase.eff.known && |t.phase.eff.events| <= 2
    ensures History(policy, true, System(db, others[tid := t]), Advances(tid, Writes(t.phase.eff)))
            == System(Commit(db, t.phase.eff, t.stamp), others)
  {
    hide History, FreshIdentity, FreshEntry, FreshEvents, Commit, RowFits, EventsOf, DirectionOf, Undoes, RowAdvances,
      Moved;
    var n, w, eff := Writes(t.phase.eff), t.phase.row.walletId, t.phase.eff;
    var first := t.(phase := t.phase.(done := if eff.move.Some? then 1 else 3));
    AloneStep(policy, db, others, tid, t, first, w, n);
    var second, third := t.(phase := t.phase.(done := 2)), t.(phase := t.phase.(done := 3));
    var fourth := t.(phase := t.phase.(done := 4));
    if eff.move.Some? {
      AloneStep(policy, db, others, tid, first, second, w, 4);
      AloneStep(policy, db, others, tid, second, third, w, 3);
    }
    AloneStep(policy, db, others, tid, third, fourth, w, 2);
    AdvancesUnfold(policy, System(db, others[tid := fourth]), tid, 1);
    CommitAlone(policy, db, others, tid, fourth);
  }

  lemma CommitAlone(policy: Policy, db: Db, others: map<string, Txn>, tid: string, t: Txn)
    requires Normalised(policy) && tid !in others && t.phase.Writing? && t.phase.done == 4 && t.message.None?
    requires |t.phase.eff.events| <= 2
    ensures History(policy, true, Step(policy, true, System(db, others[tid := t]), Advance(tid)), Advances(tid, 0))
            == System(Commit(db, t.phase.eff, t.stamp), others)
  {
    hide Commit;
    assert others[tid := t] - {tid} == others;
  }

  function Alone(tid: string, p: Request, stamp: Stamp, jitter: nat, row: Transaction, eff: Effect): seq<Turn> {
    [BeginSubmit(tid, p, stamp, jitter)] + Advances(tid, Reads(row) + Writes(eff))
  }

  /** Only these requests are ever asked for, and nothing is published meanwhile. */
  predicate Asks(es: seq<Turn>, requests: set<Request>) {
    forall i :: 0 <= i < |es| ==>
      && !es[i].PublishNow?
      && (es[i].BeginSubmit? ==> es[i].request in requests)
      && (es[i].BeginDelivery? ==> es[i].request in requests)
  }

  lemma {:induction false} AdvancesAskNothing(tid: string, n: nat, requests: set<Request>)
    ensures Asks(Advances(tid, n), requests)
  {
    if 0 < n { AdvancesAskNothing(tid, n - 1, requests); }
  }

  /** A submission that is run alone does exactly what the serial model does. */
  lemma LoneSubmission(policy: Policy, db: Db, others: map<string, Txn>, tid: string, p: Request, stamp: Stamp,
                       jitter: nat)
    requires Normalised(policy) && Inv(db) && AllBystanders(others, tid, p.walletId)
    requires Submit(policy, db, Ok(p), stamp, jitter).Settled?
    ensures var a := Submit(policy, db, Ok(p), stamp, jitter);
            exists es ::
              Asks(es, {p}) && History(policy, true, System(db, others), es) == System(After(db, a, stamp), others)
  {
    hide Inv, History, Submit, Sound, NewExternal, Commit;
    var a := Submit(policy, db, Ok(p), stamp, jitter);
    SubmitIsSound(policy, db, Ok(p), stamp, jitter);
    SoundIsShort(db, a.eff, stamp);
    var t := Txn(SubmitJob(p), None, stamp, jitter, Begun);
    SubmitHasRow(policy, db, p, stamp, jitter);
    var row := NewExternal(stamp.transactionId, p, stamp.now).value;
    var es := Alone(tid, p, stamp, jitter, row, a.eff);
    BeginAlone(policy, db, others, tid, t, es[1..]);
    ReadsAlone(policy, db, others, tid, t, Reads(row) + Writes(a.eff));
    var v :| History(policy, true, System(db, others[tid := t]), Advances(tid, Reads(row) + Writes(a.eff)))
             == History(policy, true,
                        System(db, others[tid := Deciding(t, row, db.wallets[row.walletId], v, a.eff)]),
                        Advances(tid, Writes(a.eff)));
    WritesAlone(policy, db, others, tid, Deciding(t, row, db.wallets[row.walletId], v, a.eff));
    assert es[1..] == Advances(tid, Reads(row) + Writes(a.eff));
    AdvancesAskNothing(tid, Reads(row) + Writes(a.eff), {p});
  }

  lemma SubmitHasRow(policy: Policy, db: Db, p: Request, stamp: Stamp, jitter: nat)
    requires Normalised(policy) && Submit(policy, db, Ok(p), stamp, jitter).Settled?
    ensures NewExternal(stamp.transactionId, p, stamp.now).Ok?
  {
  }

  lemma BeginAlone(policy: Policy, db: Db, others: map<string, Txn>, tid: string, t: Txn, rest: seq<Turn>)
    requires Normalised(policy) && t.job.SubmitJob? && t.message.None? && t.phase.Begun?
    requires AllBystanders(others, tid, t.job.request.walletId)
    ensures History(policy, true, System(db, others), [BeginSubmit(tid, t.job.request, t.stamp, t.jitter)] + rest)
            == History(policy, true, System(db, others[tid := t]), rest)
  {
    var es := [BeginSubmit(tid, t.job.request, t.stamp, t.jitter)] + rest;
    assert es[1..] == rest;
    assert Step(policy, true, System(db, others), es[0]) == System(db, others[tid := t]);
  }

  /* ---- a reversal given up although its reference has ended ---- */

  /** A visit to a reversal at its last attempt, so far without a reference. */
  ghost predicate LastVisit(policy: Policy, db: Db, id: string, stamp: Stamp) {
    && Due(db, id, stamp.now) && 0 < stamp.now && id != "" && db.transactions[id].id == id
    && db.transactions[id].kind.IsReversal() && db.transactions[id].attempts >= policy.maxAttempts
    && FindByBusinessId(db.transactions, db.transactions[id].providerId, db.transactions[id].referenceExternalId).None?
  }

  function GivingUp(row: Transaction, from: Wallet, at: Instant): Effect
    requires RejectWith(row, true, from, ReferenceNotFound, at).Ok?
  {
    RejectWith(row, true, from, ReferenceNotFound, at).value
  }

  lemma RejectionAtLast(row: Transaction, from: Wallet, at: Instant)
    requires row.id != "" && at != 0 && row.status.PendingReference?
    ensures RejectWith(row, true, from, ReferenceNotFound, at).Ok?
    ensures var eff := GivingUp(row, from, at);
            eff.row.status.Rejected? && eff.row.failureCode == ReferenceNotFound && eff.move.None? && |eff.events| == 1
            && eff.row.id == row.id && eff.known
  {
  }

  lemma BeginOnly(policy: Policy, db: Db, id: string, stamp: Stamp, jitter: nat, rest: seq<Turn>)
    requires Normalised(policy) && Due(db, id, stamp.now)
    ensures var t := Txn(VisitJob(db.transactions[id]), None, stamp, jitter, Ready(db.transactions[id]));
            History(policy, true, System(db, map[]), [BeginVisit("only", id, stamp, jitter)] + rest)
            == History(policy, true, System(db, map["only" := t]), rest)
  {
    var es := [BeginVisit("only", id, stamp, jitter)] + rest;
    assert es[1..] == rest;
    var t := Txn(VisitJob(db.transactions[id]), None, stamp, jitter, Ready(db.transactions[id]));
    assert Step(policy, true, System(db, map[]), es[0]) == System(db, map["only" := t]);
  }

  lemma OnlyUnit(policy: Policy, db: Db, t: Txn, next: Txn, n: nat)
    requires Normalised(policy) && 0 < n && Statement(policy, db, t) == Go(next)
    ensures History(policy, true, System(db, map["only" := t]), Advances("only", n))
            == History(policy, true, System(db, map["only" := next]), Advances("only", n - 1))
  {
    hide Statement, History;
    AdvancesUnfold(policy, System(db, map["only" := t]), "only", n);
    assert map["only" := t]["only" := next] == map["only" := next];
  }

  /** The visit claims its row, reads the wallet, and finds no reference. */
  lemma VisitReadsNothing(policy: Policy, db: Db, id: string, stamp: Stamp, jitter: nat)
    requires Normalised(policy) && LastVisit(policy, db, id, stamp)
    ensures var row := db.transactions[id];
            var t := Txn(VisitJob(row), None, stamp, jitter, Judged(row, db.wallets[row.walletId], Wait));
            History(policy, true, System(db, map[]), [BeginVisit("only", id, stamp, jitter)] + Advances("only", 2))
            == System(db, map["only" := t])
  {
    hide FindByBusinessId, Step;
    var row := db.transactions[id];
    var from := db.wallets[row.walletId];
    var ready := Txn(VisitJob(row), None, stamp, jitter, Ready(row));
    var holding, judged := ready.(phase := Holding(row, from)), ready.(phase := Judged(row, from, Wait));
    BeginOnly(policy, db, id, stamp, jitter, Advances("only", 2));
    assert Judge(row, None) == Wait;
    OnlyUnit(policy, db, ready, holding, 2);
    OnlyUnit(policy, db, holding, judged, 1);
    assert History(policy, true, System(db, map["only" := judged]), Advances("only", 0))
           == System(db, map["only" := judged]);
  }

  /** Having read nothing, it gives up, whatever has been committed elsewhere meanwhile. */
  lemma VisitGivesUp(policy: Policy, db: Db, row: Transaction, from: Wallet, stamp: Stamp, jitter: nat)
    requires Normalised(policy) && row.id in db.transactions && db.transactions[row.id] == row
    requires row.status.PendingReference? && row.id != "" && stamp.now != 0 && row.attempts >= policy.maxAttempts
    requires FreshEvent(db.outbox, stamp.firstEvent)
    ensures RejectWith(row, true, from, ReferenceNotFound, stamp.now).Ok?
    ensures var t := Txn(VisitJob(row), None, stamp, jitter, Judged(row, from, Wait));
            var end := History(policy, true, System(db, map["only" := t]), Advances("only", 4));
            end.live == map[] && end.db.transactions == db.transactions[row.id := GivingUp(row, from, stamp.now).row]
  {
    hide GivingUp, Statement, RejectWith, Commit, Step, History, FreshEvent;
    RejectionAtLast(row, from, stamp.now);
    var eff := GivingUp(row, from, stamp.now);
    var t := Txn(VisitJob(row), None, stamp, jitter, Judged(row, from, Wait));
    var a := t.(phase := Writing(row, from, Wait, eff, 0));
    var b, c := a.(phase := a.phase.(done := 3)), a.(phase := a.phase.(done := 4));
    GivingUpStatements(policy, db, row, from, stamp, jitter);
    OnlyUnit(policy, db, t, a, 4);
    OnlyUnit(policy, db, a, b, 3);
    OnlyUnit(policy, db, b, c, 2);
    AdvancesUnfold(policy, System(db, map["only" := c]), "only", 1);
    CommitOnly(policy, db, c);
    assert Commit(db, eff, stamp).transactions == db.transactions[eff.row.id := eff.row] by {
      CommitRows(db, eff, stamp);
    }
  }

  lemma CommitRows(db: Db, eff: Effect, stamp: Stamp)
    requires |eff.events| <= 2
    ensures Commit(db, eff, stamp).transactions == db.transactions[eff.row.id := eff.row]
  {
  }

  lemma CommitOnly(policy: Policy, db: Db, t: Txn)
    requires Normalised(policy) && t.phase.Writing? && t.phase.done == 4 && t.message.None? && |t.phase.eff.events| <= 2
    ensures History(policy, true, Step(policy, true, System(db, map["only" := t]), Advance("only")),
                    Advances("only", 0))
            == System(Commit(db, t.phase.eff, t.stamp), map[])
  {
    hide Commit;
    assert map["only" := t] - {"only"} == map[];
  }

  /** What each statement does on the way to giving up. */
  lemma GivingUpStatements(policy: Policy, db: Db, row: Transaction, from: Wallet, stamp: Stamp, jitter: nat)
    requires Normalised(policy) && row.id in db.transactions && db.transactions[row.id] == row
    requires row.status.PendingReference? && row.id != "" && stamp.now != 0 && row.attempts >= policy.maxAttempts
    requires FreshEvent(db.outbox, stamp.firstEvent)
    ensures RejectWith(row, true, from, ReferenceNotFound, stamp.now).Ok?
    ensures var eff := GivingUp(row, from, stamp.now);
            var t := Txn(VisitJob(row), None, stamp, jitter, Judged(row, from, Wait));
            var a := t.(phase := Writing(row, from, Wait, eff, 0));
            var b, c := a.(phase := a.phase.(done := 3)), a.(phase := a.phase.(done := 4));
            && Statement(policy, db, t) == Go(a) && Statement(policy, db, a) == Go(b)
            && Statement(policy, db, b) == Go(c)
  {
    hide GivingUp, Decide, RejectWith, FreshEvent, FreshIdentity, Judge, NewExternal, FindByBusinessId;
    RejectionAtLast(row, from, stamp.now);
    var t := Txn(VisitJob(row), None, stamp, jitter, Judged(row, from, Wait));
    GivingUpIsDecided(policy, t, row, from);
    GivingUpIs(row, from, stamp.now);
  }

  lemma GivingUpIs(row: Transaction, from: Wallet, at: Instant)
    requires RejectWith(row, true, from, ReferenceNotFound, at).Ok?
    ensures RejectWith(row, true, from, ReferenceNotFound, at) == Ok(GivingUp(row, from, at))
  {
  }

  lemma GivingUpIsDecided(policy: Policy, t: Txn, row: Transaction, from: Wallet)
    requires Normalised(policy) && t.job.VisitJob? && row.attempts >= policy.maxAttempts
    ensures Decide(policy, t, row, from, Wait) == RejectWith(row, true, from, ReferenceNotFound, t.stamp.now)
  {
  }

  /** The last visit reads nothing, the reference arrives alone and ends, and the visit goes on to give up. */
  lemma ReadBeforeItEnded(policy: Policy, db: Db, id: string, sv: Stamp, jv: nat, reference: Request, sr: Stamp,
                          jr: nat)
    requires Normalised(policy) && Inv(db) && LastVisit(policy, db, id, sv)
    requires reference.providerId == db.transactions[id].providerId
    requires reference.externalId == db.transactions[id].referenceExternalId
    requires reference.walletId != db.transactions[id].walletId
    requires Submit(policy, db, Ok(reference), sr, jr).Settled?
    requires Submit(policy, db, Ok(reference), sr, jr).eff.row.status.IsTerminal()
    requires FreshEvent(After(db, Submit(policy, db, Ok(reference), sr, jr), sr).outbox, sv.firstEvent)
    ensures var meanwhile := After(db, Submit(policy, db, Ok(reference), sr, jr), sr);
            var row, from := db.transactions[id], db.wallets[db.transactions[id].walletId];
            var t := Txn(VisitJob(row), None, sv, jv, Judged(row, from, Wait));
            exists es ::
              && Asks(es, {reference})
              && History(policy, true, System(db, map[]), es)
                 == History(policy, true, System(meanwhile, map["only" := t]), Advances("only", 4))
  {
    hide Inv, History, Submit, FindByBusinessId, Commit, EventsOf;
    var row := db.transactions[id];
    var t := Txn(VisitJob(row), None, sv, jv, Judged(row, db.wallets[row.walletId], Wait));
    var a := Submit(policy, db, Ok(reference), sr, jr);
    VisitReadsNothing(policy, db, id, sv, jv);
    var others := map["only" := t];
    assert AllBystanders(others, "reference", reference.walletId);
    LoneSubmission(policy, db, others, "reference", reference, sr, jr);
    var es :| Asks(es, {reference})
              && History(policy, true, System(db, others), es) == System(After(db, a, sr), others);
    AdvancesAskNothing("only", 2, {reference});
    AdvancesAskNothing("only", 4, {reference});
    var reading := [BeginVisit("only", id, sv, jv)] + Advances("only", 2);
    HistoryConcat(policy, true, System(db, map[]), reading, es);
    HistoryConcat(policy, true, System(db, map[]), reading + es, Advances("only", 4));
  }

  /**
   * The worker reads no reference; the reference is then submitted, on another wallet,
   * and ends; the worker gives the reversal up as not found, where looking again would
   * have refused it under another code.
   */
  lemma GivenUpUnaware(policy: Policy, db: Db, id: string, sv: Stamp, jv: nat, reference: Request, sr: Stamp, jr: nat)
    requires Normalised(policy) && Inv(db) && LastVisit(policy, db, id, sv)
    requires reference.providerId == db.transactions[id].providerId
    requires reference.externalId == db.transactions[id].referenceExternalId
    requires reference.walletId != db.transactions[id].walletId
    requires Submit(policy, db, Ok(reference), sr, jr).Settled?
    requires Submit(policy, db, Ok(reference), sr, jr).eff.row.status.IsTerminal()
    requires FreshEvent(After(db, Submit(policy, db, Ok(reference), sr, jr), sr).outbox, sv.firstEvent)
    ensures var row := db.transactions[id];
            var meanwhile := After(db, Submit(policy, db, Ok(reference), sr, jr), sr);
            && (exists es :: var end := History(policy, true, System(db, map[]), es);
                             Asks(es, {reference}) && end.live == map[] && id in end.db.transactions
                             && end.db.transactions[id].status.Rejected?
                             && end.db.transactions[id].failureCode == ReferenceNotFound
                             && sr.transactionId in end.db.transactions
                             && end.db.transactions[sr.transactionId]
                                == Submit(policy, db, Ok(reference), sr, jr).eff.row)
            && Missed(meanwhile, row)
            && Resolve(meanwhile.transactions, row).Refuse?
            && Resolve(meanwhile.transactions, row).code != ReferenceNotFound
  {
    hide Inv, History, Submit, FindByBusinessId, Commit, Missed, Resolve, EventsOf;
    var row, from := db.transactions[id], db.wallets[db.transactions[id].walletId];
    var meanwhile := After(db, Submit(policy, db, Ok(reference), sr, jr), sr);
    ReadBeforeItEnded(policy, db, id, sv, jv, reference, sr, jr);
    ReferenceHasEnded(policy, db, row, reference, sr, jr);
    VisitGivesUp(policy, meanwhile, row, from, sv, jv);
    RejectionAtLast(row, from, sv.now);
    MissedIsRefused(meanwhile, row);
  }

  lemma ReferenceHasEnded(policy: Policy, db: Db, row: Transaction, p: Request, stamp: Stamp, jitter: nat)
    requires Normalised(policy) && Inv(db) && Submit(policy, db, Ok(p), stamp, jitter).Settled?
    requires row.id in db.transactions && db.transactions[row.id] == row
    requires Submit(policy, db, Ok(p), stamp, jitter).eff.row.status.IsTerminal()
    requires p.providerId == row.providerId && p.externalId == row.referenceExternalId && p.walletId != row.walletId
    ensures var a := Submit(policy, db, Ok(p), stamp, jitter);
            var after := After(db, a, stamp);
            && Missed(after, row) && stamp.transactionId != row.id
            && row.id in after.transactions && after.transactions[row.id] == row
            && stamp.transactionId in after.transactions && after.transactions[stamp.transactionId] == a.eff.row
  {
    hide Inv, Submit, FindByBusinessId, Sound, Recorded, Unique;
    var a := Submit(policy, db, Ok(p), stamp, jitter);
    SubmitIsSound(policy, db, Ok(p), stamp, jitter);
    SoundIsShort(db, a.eff, stamp);
    UnseenCommit(db, a.eff, stamp);
    AnswerKeeps(policy, db, a, stamp);
    var after := After(db, a, stamp);
    assert Unique(after.transactions) by { InvIsUnique(after); }
    SettledPair(policy, db, p, stamp, jitter);
    FoundIsUnique(after.transactions, stamp.transactionId);
  }

  /** A settled submission's row is found under the request's own pair. */
  lemma SettledPair(policy: Policy, db: Db, p: Request, stamp: Stamp, jitter: nat)
    requires Normalised(policy) && Submit(policy, db, Ok(p), stamp, jitter).Settled?
    ensures var row := Submit(policy, db, Ok(p), stamp, jitter).eff.row;
            IsBusiness(row, p.providerId, p.externalId) && row.walletId == p.walletId && row.id == stamp.transactionId
  {
    hide FindByBusinessId, Resolve, SettleSubmit, Fresh, Refusal;
    NewRowWallet(db, p, stamp);
    var row := NewRow(db, p, stamp).value;
    NewRowShape(stamp.transactionId, p, stamp.now);
    SubmitKeepsIdentity(policy, row, db.wallets[p.walletId], Resolve(db.transactions, row), stamp, jitter);
    IdentityKeeps(Submit(policy, db, Ok(p), stamp, jitter).eff.row, row);
  }

  /* ---- a visit that nobody is in the way of ---- */

  /** Wallet, reference and its reversals: alone, the visit decides as the serial one. */
  lemma VisitReads(policy: Policy, db: Db, id: string, stamp: Stamp, jitter: nat, n: nat)
    requires Normalised(policy) && Inv(db) && Due(db, id, stamp.now) && 3 <= n
    requires Visit(policy, db, id, stamp, jitter).Settled?
    ensures var row, eff := db.transactions[id], Visit(policy, db, id, stamp, jitter).eff;
            var t := Txn(VisitJob(row), None, stamp, jitter, Ready(row));
            exists v :: History(policy, true, System(db, map["only" := t]), Advances("only", n))
                        == History(policy, true,
                                   System(db, map["only" := Deciding(t, row, db.wallets[row.walletId], v, eff)]),
                                   Advances("only", n - 3))
  {
    hide Inv, History, SettleReversal, FindByBusinessId, Judge, Unreversed, Fresh, Refusal;
    var row := db.transactions[id];
    ClaimedIsReversal(db, id);
    var from := db.wallets[row.walletId];
    var v := Judge(row, FindByBusinessId(db.transactions, row.providerId, row.referenceExternalId));
    var ready := Txn(VisitJob(row), None, stamp, jitter, Ready(row));
    var holding, judged := ready.(phase := Holding(row, from)), ready.(phase := Judged(row, from, v));
    var w, eff := Resolve(db.transactions, row), Visit(policy, db, id, stamp, jitter).eff;
    OnlyUnit(policy, db, ready, holding, n);
    OnlyUnit(policy, db, holding, judged, n - 1);
    OnlyUnit(policy, db, judged, Deciding(ready, row, from, w, eff), n - 2);
  }

  /** Row, balance, entry, events, commit: alone, nothing refuses what the serial model admits. */
  lemma VisitWrites(policy: Policy, db: Db, t: Txn)
    requires Normalised(policy) && t.job.VisitJob? && t.message.None? && t.phase.Writing? && t.phase.done == 0
    requires Sound(db, t.phase.eff, t.stamp) && t.phase.eff.known && |t.phase.eff.events| <= 2
    ensures History(policy, true, System(db, map["only" := t]), Advances("only", Writes(t.phase.eff)))
            == System(Commit(db, t.phase.eff, t.stamp), map[])
  {
    hide History, FreshIdentity, FreshEntry, FreshEvents, Commit, RowFits, EventsOf, DirectionOf, Undoes, RowAdvances,
      Moved;
    var n, eff := Writes(t.phase.eff), t.phase.eff;
    var first := t.(phase := t.phase.(done := if eff.move.Some? then 1 else 3));
    OnlyUnit(policy, db, t, first, n);
    var second, third := t.(phase := t.phase.(done := 2)), t.(phase := t.phase.(done := 3));
    var fourth := t.(phase := t.phase.(done := 4));
    if eff.move.Some? {
      OnlyUnit(policy, db, first, second, 4);
      OnlyUnit(policy, db, second, third, 3);
    }
    OnlyUnit(policy, db, third, fourth, 2);
    AdvancesUnfold(policy, System(db, map["only" := fourth]), "only", 1);
    CommitOnly(policy, db, fourth);
  }

  /** A visit that is run alone does exactly what the serial model does. */
  lemma LoneVisit(policy: Policy, db: Db, id: string, stamp: Stamp, jitter: nat)
    requires Normalised(policy) && Inv(db) && Due(db, id, stamp.now) && Visit(policy, db, id, stamp, jitter).Settled?
    ensures var a := Visit(policy, db, id, stamp, jitter);
            exists es ::
              Asks(es, {}) && History(policy, true, System(db, map[]), es) == System(After(db, a, stamp), map[])
  {
    hide Inv, History, Visit, Sound, Commit;
    var row, a := db.transactions[id], Visit(policy, db, id, stamp, jitter);
    VisitIsSound(policy, db, id, stamp, jitter);
    SoundIsShort(db, a.eff, stamp);
    var n := 3 + Writes(a.eff);
    BeginOnly(policy, db, id, stamp, jitter, Advances("only", n));
    VisitReads(policy, db, id, stamp, jitter, n);
    var t := Txn(VisitJob(row), None, stamp, jitter, Ready(row));
    var v :| History(policy, true, System(db, map["only" := t]), Advances("only", n))
             == History(policy, true,
                        System(db, map["only" := Deciding(t, row, db.wallets[row.walletId], v, a.eff)]),
                        Advances("only", n - 3));
    VisitWrites(policy, db, Deciding(t, row, db.wallets[row.walletId], v, a.eff));
    AdvancesAskNothing("only", n, {});
    assert Asks([BeginVisit("only", id, stamp, jitter)] + Advances("only", n), {});
  }

  /* ---- a delivery that nobody is in the way of ---- */

  lemma DeliveryBegins(policy: Policy, db: Db, t: Txn, rest: seq<Turn>)
    requires Normalised(policy) && t.job.SubmitJob? && t.message.Some? && t.phase.Begun? && 0 < t.stamp.now
    requires t.message.value !in db.inbox
    ensures History(policy, true, System(db, map[]),
                    [BeginDelivery("only", t.message.value, t.job.request, t.stamp, t.jitter), Advance("only")] + rest)
            == History(policy, true, System(db, map["only" := t]), rest)
  {
    var arriving := t.(phase := Arriving);
    var es := [BeginDelivery("only", t.message.value, t.job.request, t.stamp, t.jitter), Advance("only")] + rest;
    assert es[1..][0] == Advance("only") && es[1..][1..] == rest;
    assert Step(policy, true, System(db, map[]), es[0]) == System(db, map["only" := arriving]);
    assert map["only" := arriving]["only" := t] == map["only" := t];
    assert Step(policy, true, System(db, map["only" := arriving]), Advance("only")) == System(db, map["only" := t]);
  }

  /** The database with the delivery's message recorded as handled now. */
  ghost function Recording(t: Txn, db: Db): Db
    requires t.job.SubmitJob? && t.message.Some?
  {
    Mark(db, t.message.value, t.job.request.payloadHash, t.stamp.now)
  }

  /** A delivery with nothing but its record to write commits it. */
  lemma AbsorbedAlone(policy: Policy, db: Db, t: Txn)
    requires Normalised(policy) && t.phase.Absorbed? && t.job.SubmitJob? && t.message.Some?
    ensures History(policy, true, System(db, map["only" := t]), Advances("only", 1))
            == System(Recording(t, db), map[])
  {
    AdvancesUnfold(policy, System(db, map["only" := t]), "only", 1);
    assert map["only" := t] - {"only"} == map[];
  }

  lemma DeliveryWrites(policy: Policy, db: Db, t: Txn)
    requires Normalised(policy) && t.job.SubmitJob? && t.message.Some? && t.phase.Writing? && t.phase.done == 0
    requires Sound(db, t.phase.eff, t.stamp) && !t.phase.eff.known && |t.phase.eff.events| <= 2
    ensures History(policy, true, System(db, map["only" := t]), Advances("only", Writes(t.phase.eff)))
            == System(Recording(t, Commit(db, t.phase.eff, t.stamp)), map[])
  {
    hide History, FreshIdentity, FreshEntry, FreshEvents, Commit, RowFits, EventsOf, DirectionOf, Undoes, RowAdvances,
      Moved;
    var n, eff := Writes(t.phase.eff), t.phase.eff;
    var first := t.(phase := t.phase.(done := if eff.move.Some? then 1 else 3));
    OnlyUnit(policy, db, t, first, n);
    var second, third := t.(phase := t.phase.(done := 2)), t.(phase := t.phase.(done := 3));
    var fourth := t.(phase := t.phase.(done := 4));
    if eff.move.Some? {
      OnlyUnit(policy, db, first, second, 4);
      OnlyUnit(policy, db, second, third, 3);
    }
    OnlyUnit(policy, db, third, fourth, 2);
    AdvancesUnfold(policy, System(db, map["only" := fourth]), "only", 1);
    CommitDelivery(policy, db, fourth);
  }

  lemma CommitDelivery(policy: Policy, db: Db, t: Txn)
    requires Normalised(policy) && t.phase.Writing? && t.phase.done == 4 && t.message.Some? && t.job.SubmitJob?
    requires |t.phase.eff.events| <= 2
    ensures History(policy, true, Step(policy, true, System(db, map["only" := t]), Advance("only")),
                    Advances("only", 0))
            == System(Recording(t, Commit(db, t.phase.eff, t.stamp)), map[])
  {
    hide Commit;
    assert map["only" := t] - {"only"} == map[];
  }

  /** Up to the wallet read: the row is made and the wallet held, or the request makes no operation. */
  lemma DeliveryReadsWallet(policy: Policy, db: Db, t: Txn, n: nat)
    requires Normalised(policy) && t.job.SubmitJob? && t.message.Some? && t.phase.Begun? && 2 <= n
    requires FindByBusinessId(db.transactions, t.job.request.providerId, t.job.request.externalId).None?
    requires NewRow(db, t.job.request, t.stamp).Ok?
    ensures t.job.request.walletId in db.wallets
    ensures var p := t.job.request;
            var holding := t.(phase := Holding(NewRow(db, p, t.stamp).value, db.wallets[p.walletId]));
            History(policy, true, System(db, map["only" := t]), Advances("only", n))
            == History(policy, true, System(db, map["only" := holding]), Advances("only", n - 2))
  {
    hide History, NewExternal, FindByBusinessId;
    var p := t.job.request;
    NewRowWallet(db, p, t.stamp);
    var row := NewRow(db, p, t.stamp).value;
    var ready := t.(phase := Ready(row));
    RequestAccepted(t.stamp.transactionId, p, t.stamp.now);
    OnlyUnit(policy, db, t, ready, n);
    OnlyUnit(policy, db, ready, t.(phase := Holding(row, db.wallets[row.walletId])), n - 1);
  }

  /** From there: what the decision makes of it is what the serial decision is. */
  lemma DeliveryDecides(policy: Policy, db: Db, t: Txn, row: Transaction, from: Wallet, n: nat)
    requires Normalised(policy) && t.job.SubmitJob? && t.message.Some? && t.phase == Holding(row, from)
    requires Reads(row) - 2 <= n
    ensures var r := SettleSubmit(policy, row, from, Resolve(db.transactions, row), t.stamp, t.jitter);
            && (r.Ok? ==>
                  exists v :: History(policy, true, System(db, map["only" := t]), Advances("only", n))
                              == History(policy, true, System(db, map["only" := Deciding(t, row, from, v, r.value)]),
                                         Advances("only", n + 2 - Reads(row))))
            && (r.Err? && r.error.Domain? ==>
                  History(policy, true, System(db, map["only" := t]), Advances("only", n))
                  == History(policy, true, System(db, map["only" := t.(phase := Absorbed(RefusedFor(r.error)))]),
                             Advances("only", n + 2 - Reads(row))))
  {
    hide History, SettleReversal, SettleDirect, Park, FindByBusinessId, Judge, Unreversed;
    var w := Resolve(db.transactions, row);
    var r := SettleSubmit(policy, row, from, w, t.stamp, t.jitter);
    var found := FindByBusinessId(db.transactions, row.providerId, row.referenceExternalId);
    var judged := t.(phase := Judged(row, from, Judge(row, found)));
    var absorbed := if r.Err? then t.(phase := Absorbed(RefusedFor(r.error))) else t;
    if row.kind.IsReversal() {
      OnlyUnit(policy, db, t, judged, n);
      if r.Ok? {
        OnlyUnit(policy, db, judged, Deciding(t, row, from, w, r.value), n - 1);
      } else if r.error.Domain? {
        OnlyUnit(policy, db, judged, absorbed, n - 1);
      }
    } else {
      if r.Ok? {
        OnlyUnit(policy, db, t, Deciding(t, row, from, Wait, r.value), n);
      } else if r.error.Domain? {
        OnlyUnit(policy, db, t, absorbed, n);
      }
    }
  }

  /** A delivery settled, alone: its statements up to its commit, and its message as handled. */
  lemma SettledDelivery(policy: Policy, db: Db, t: Txn) returns (es: seq<Turn>)
    requires Normalised(policy) && Inv(db) && t.job.SubmitJob? && t.message.Some? && t.phase.Begun?
    requires Submit(policy, db, Ok(t.job.request), t.stamp, t.jitter).Settled?
    ensures var a := Submit(policy, db, Ok(t.job.request), t.stamp, t.jitter);
            History(policy, true, System(db, map["only" := t]), es)
            == System(Recording(t, After(db, a, t.stamp)), map[])
  {
    hide Inv, History, Sound, Commit, NewRow, SettleSubmit, Resolve, FindByBusinessId, Fresh, Refusal;
    var p := t.job.request;
    var a := Submit(policy, db, Ok(p), t.stamp, t.jitter);
    SubmitIsSound(policy, db, Ok(p), t.stamp, t.jitter);
    SoundIsShort(db, a.eff, t.stamp);
    NewRowWallet(db, p, t.stamp);
    var row := NewRow(db, p, t.stamp).value;
    var n := Reads(row) + Writes(a.eff);
    DeliveryReadsWallet(policy, db, t, n);
    var from := db.wallets[p.walletId];
    var holding := t.(phase := Holding(row, from));
    DeliveryDecides(policy, db, holding, row, from, n - 2);
    var v :| History(policy, true, System(db, map["only" := holding]), Advances("only", n - 2))
             == History(policy, true, System(db, map["only" := Deciding(holding, row, from, v, a.eff)]),
                        Advances("only", Writes(a.eff)));
    DeliveryWrites(policy, db, Deciding(holding, row, from, v, a.eff));
    es := Advances("only", n);
  }

  /** A delivery whose operation is stored, or that a domain rule refuses, alone: its record and nothing else. */
  lemma AbsorbedDelivery(policy: Policy, db: Db, t: Txn) returns (es: seq<Turn>)
    requires Normalised(policy) && Inv(db) && t.job.SubmitJob? && t.message.Some? && t.phase.Begun?
    requires var a := Submit(policy, db, Ok(t.job.request), t.stamp, t.jitter);
             a.Replayed? || (a.Refused? && a.error.Domain?)
    ensures History(policy, true, System(db, map["only" := t]), es)
            == System(Recording(t, db), map[])
  {
    hide Inv, History, NewExternal, SettleSubmit, Resolve, FindByBusinessId, Fresh;
    var p := t.job.request;
    match FindByBusinessId(db.transactions, p.providerId, p.externalId)
    case Some(stored) =>
      var absorbed := t.(phase := Absorbed(AlreadyStored(stored)));
      OnlyUnit(policy, db, t, absorbed, 2);
      AbsorbedAlone(policy, db, absorbed);
      es := Advances("only", 2);
    case None =>
      var made := NewExternal(t.stamp.transactionId, p, t.stamp.now);
      if made.Err? {
        var absorbed := t.(phase := Absorbed(RefusedFor(made.error)));
        NewRowFails(t.stamp.transactionId, p, t.stamp.now);
        OnlyUnit(policy, db, t, absorbed, 2);
        AbsorbedAlone(policy, db, absorbed);
        es := Advances("only", 2);
      } else {
        var row := NewRow(db, p, t.stamp).value;
        var n := Reads(row) + 1;
        DeliveryReadsWallet(policy, db, t, n);
        var from := db.wallets[p.walletId];
        var holding := t.(phase := Holding(row, from));
        DeliveryDecides(policy, db, holding, row, from, n - 2);
        var r := SettleSubmit(policy, row, from, Resolve(db.transactions, row), t.stamp, t.jitter);
        AbsorbedAlone(policy, db, t.(phase := Absorbed(RefusedFor(r.error))));
        es := Advances("only", n);
      }
  }

  /** A delivery that is run alone does exactly what the serial delivery does, when that handles the message. */
  lemma LoneDelivery(policy: Policy, db: Db, p: Request, message: (string, string), stamp: Stamp, jitter: nat)
    requires Normalised(policy) && Inv(db) && 0 < stamp.now && message !in db.inbox
    requires var a := Submit(policy, db, Ok(p), stamp, jitter); a.Refused? ==> a.error.Domain?
    ensures exists es ::
              History(policy, true, System(db, map[]), es)
              == System(Received(policy, db, p, message, stamp, jitter), map[])
  {
    hide Inv, History, Submit, Commit, Mark;
    var t := Txn(SubmitJob(p), Some(message), stamp, jitter, Begun);
    var es: seq<Turn>;
    if Submit(policy, db, Ok(p), stamp, jitter).Settled? {
      es := SettledDelivery(policy, db, t);
    } else {
      es := AbsorbedDelivery(policy, db, t);
    }
    DeliveryBegins(policy, db, t, es);
    var all := [BeginDelivery("only", message, p, stamp, jitter), Advance("only")] + es;
    assert History(policy, true, System(db, map[]), all)
           == System(Received(policy, db, p, message, stamp, jitter), map[]);
  }
}
