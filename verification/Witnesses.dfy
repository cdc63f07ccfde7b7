/** Runs from the empty database, with commands that parse, in which the code does less than it seems. */
module Witnesses {
  import opened Base
  import opened Money
  import opened MoneyText
  import opened Domain
  import opened Commands
  import opened Tables
  import opened Steps
  import opened Decisions
  import opened Serial
  import opened Queue
  import opened Interleaving
  import opened Guards
  import opened Locking
  import opened Refinement
  import opened ExactlyOnce
  import opened Storage
  import opened Ports
  import opened Publishing
  import opened Replays
  import opened Outgoing
  import opened Ordering
  import opened Divergences

  /* ---- the cast ---- */

  /** One attempt, the shortest waits. */
  const ONE_TRY := Policy(1, 1, 1, 1)

  const ANNA := Wallet("w1", "anna", Money(0, "EUR"), 1, 1, 1)
  const BEN := Wallet("w2", "ben", Money(0, "EUR"), 1, 1, 1)
  const OPENED := EMPTY.(wallets := map["w1" := ANNA, "w2" := BEN])
  const OPENINGS := [
    OpenNow("anna", Money(0, "EUR"), "w1", Stamp(1, "", "", "", "")),
    OpenNow("ben", Money(0, "EUR"), "w2", Stamp(1, "", "", "", ""))]

  /** The amount in every command: five hundredths, as the printer writes it. */
  const AMOUNT := Spelling(5)

  /** A rollback on Anna's wallet of a bet that turns out to be Ben's. */
  const ROLLBACK_COMMAND :=
    SubmitCommand("k1", "provider", "x2", "anna", "w1", "round", "game", "ROLLBACK", AMOUNT, "EUR", "x1")
  const BET_COMMAND := SubmitCommand("k2", "provider", "x1", "ben", "w2", "round", "game", "BET", AMOUNT, "EUR", "")

  /** What they parse to. */
  ghost const ROLLBACK := Request.Request("k1", PayloadHash(ROLLBACK_COMMAND), "provider", "x2", "anna", "w1", "round",
                                          "game", Rollback, Money(5, "EUR"), "x1")
  ghost const BET := Request.Request("k2", PayloadHash(BET_COMMAND), "provider", "x1", "ben", "w2", "round", "game",
                                     Bet, Money(5, "EUR"), "")

  lemma HashIsSet(c: SubmitCommand)
    ensures PayloadHash(c) != ""
  {
    assert PayloadHash(c)[0] == 's';
  }

  /** Some command parses to this request. */
  ghost predicate IsParsed(p: Request) { exists c :: Parse(c) == Ok(p) }

  /** Whoever begins a submission or a delivery brings a command that parses; nothing is published meanwhile. */
  ghost predicate FromCommands(es: seq<Turn>) {
    forall i :: 0 <= i < |es| ==>
      && !es[i].PublishNow?
      && (es[i].BeginSubmit? ==> IsParsed(es[i].request))
      && (es[i].BeginDelivery? ==> IsParsed(es[i].request))
  }

  lemma AskedIsParsed(es: seq<Turn>, p: Request)
    requires Asks(es, {p}) && IsParsed(p)
    ensures FromCommands(es)
  {
    hide IsParsed;
  }

  lemma CommandsParse()
    ensures Parse(ROLLBACK_COMMAND) == Ok(ROLLBACK) && Parse(BET_COMMAND) == Ok(BET)
    ensures IsParsed(ROLLBACK) && IsParsed(BET)
  {
    hide PayloadHash, ParseMinor, Spelling;
    ParsePrinted(5);
  }

  const FIRST := Stamp(1, "t1", "e1", "v1", "v2")
  const SECOND_STAMP := Stamp(1, "t2", "e2", "v3", "v4")
  const THIRD := Stamp(5, "t3", "e3", "v5", "v6")

  ghost const PARKED := Transaction("t1", External, Rollback, PendingReference, "w1", "anna", Money(5, "EUR"),
                                    "provider", "x2", "k1", PayloadHash(ROLLBACK_COMMAND), "round", "game", "x1", "",
                                    NoCode, 1, 1, 2, UNSET, 1, 1)

  lemma WalletsOpen()
    ensures History(ONE_TRY, true, System(EMPTY, map[]), OPENINGS) == System(OPENED, map[])
  {
    hide PayloadHash, Spelling;
    var s0 := System(EMPTY, map[]);
    var s1 := System(EMPTY.(wallets := map["w1" := ANNA]), map[]);
    assert Step(ONE_TRY, true, s0, OPENINGS[0]) == s1 by { OpensEmpty(EMPTY, "anna", "w1", ANNA); }
    assert "w2" != "w1" && "ben" != "anna" by { assert "w2"[1] != "w1"[1] && |"ben"| != |"anna"|; }
    assert Step(ONE_TRY, true, s1, OPENINGS[1]) == System(OPENED, map[]) by { OpensEmpty(s1.db, "ben", "w2", BEN); }
    assert OPENINGS[1..] == [OPENINGS[1]] && OPENINGS[1..][1..] == [];
  }

  lemma OpensEmpty(db: Db, player: string, wallet: string, w: Wallet)
    requires player != "" && wallet != "" && w == Wallet(wallet, player, Money(0, "EUR"), 1, 1, 1)
    requires wallet !in db.wallets && forall id :: id in db.wallets ==> !SameOwner(db.wallets[id], w)
    ensures Step(ONE_TRY, true, System(db, map[]), OpenNow(player, Money(0, "EUR"), wallet, Stamp(1, "", "", "", "")))
            == System(db.(wallets := db.wallets[wallet := w]), map[])
  {
    hide PayloadHash, Spelling;
  }

  /** The rollback and the bet as they are built, and the bet as it ends. */
  ghost const NEW_ROLLBACK := PARKED.(status := Status.Pending, attempts := 0, nextAttemptAt := 0, deadlineAt := 0)
  ghost const NEW_BET := Transaction("t2", External, Bet, Status.Pending, "w2", "ben", Money(5, "EUR"), "provider",
                                     "x1", "k2", PayloadHash(BET_COMMAND), "round", "game", "", "", NoCode, 0, 0, 0,
                                     UNSET, 1, 1)
  ghost const REFUSED_BET := NEW_BET.(status := Rejected, failureCode := InsufficientFunds)

  ghost const PARKING := Effect(PARKED, false, ANNA, None, [TransactionPendingReference(Fact(PARKED), "x1", 1, 2, 1)])
  ghost const REFUSING := Effect(REFUSED_BET, false, BEN, None, [TransactionRejected(Fact(REFUSED_BET), 1)])

  lemma NoRowsNoneFound(provider: string, external: string)
    ensures FindByBusinessId(map[], provider, external) == None
  {
    hide PayloadHash, Spelling;
  }

  lemma RollbackRow()
    ensures NewRow(OPENED, ROLLBACK, FIRST) == Ok(NEW_ROLLBACK)
  {
    hide PayloadHash, Spelling;
    HashIsSet(ROLLBACK_COMMAND);
  }

  lemma RollbackDecided()
    ensures SettleSubmit(ONE_TRY, NEW_ROLLBACK, ANNA, Wait, FIRST, 0) == Ok(PARKING)
  {
    hide PayloadHash, Spelling, NextAttemptAt;
    assert NextAttemptAt(ONE_TRY, 1, 1, 0) == 1 by { ShortestWait(); }
    assert NEW_ROLLBACK.MarkPendingReference(1, 1, 2) == Ok(PARKED);
  }

  lemma ShortestWait()
    ensures NextAttemptAt(ONE_TRY, 1, 1, 0) == 1
  {
    hide PayloadHash, Spelling;
    assert Doubled(0) == 1;
    assert Window(ONE_TRY, 1) == 1;
  }

  /** A submission that is decided and admitted is settled. */
  lemma DecidedIsSettled(policy: Policy, db: Db, p: Request, stamp: Stamp, jitter: nat, row: Transaction, eff: Effect)
    requires Normalised(policy) && FindByBusinessId(db.transactions, p.providerId, p.externalId) == None
    requires NewRow(db, p, stamp) == Ok(row)
    requires SettleSubmit(policy, row, db.wallets[p.walletId], Resolve(db.transactions, row), stamp, jitter) == Ok(eff)
    requires Fresh(db, eff, stamp)
    ensures Submit(policy, db, Ok(p), stamp, jitter) == Settled(eff)
  {
    hide PayloadHash, Spelling, FindByBusinessId, SettleSubmit, Resolve, Fresh, NewRow;
  }

  lemma FirstWaits()
    ensures Resolve(map[], NEW_ROLLBACK) == Wait
  {
    hide PayloadHash, Spelling;
    NoRowsNoneFound("provider", "x1");
  }

  lemma RollbackParks()
    ensures Submit(ONE_TRY, OPENED, Ok(ROLLBACK), FIRST, 0) == Settled(PARKING)
  {
    hide PayloadHash, Spelling, FindByBusinessId, SettleSubmit, Resolve, NewRow, Submit;
    NoRowsNoneFound("provider", "x2");
    RollbackRow();
    RollbackDecided();
    FirstWaits();
    assert OPENED.wallets["w1"] == ANNA by { assert "w2"[1] != "w1"[1]; }
    DecidedIsSettled(ONE_TRY, OPENED, ROLLBACK, FIRST, 0, NEW_ROLLBACK, PARKING);
  }

  /** The database once the rollback waits. */
  ghost function Waiting(): Db {
    After(OPENED, Submit(ONE_TRY, OPENED, Ok(ROLLBACK), FIRST, 0), FIRST)
  }

  lemma WaitingShape()
    ensures Waiting().transactions == map["t1" := PARKED] && Waiting().wallets == OPENED.wallets
    ensures Waiting().ledger == []
    ensures |Waiting().outbox| == 1 && Waiting().outbox[0].eventId == "v1"
  {
    hide PayloadHash, Spelling, Submit;
    RollbackParks();
  }

  lemma OnlyParkedFound(external: string)
    requires external != "x2"
    ensures FindByBusinessId(map["t1" := PARKED], "provider", external) == None
  {
    hide PayloadHash, Spelling;
    assert !IsBusiness(PARKED, "provider", external);
  }

  lemma BetRow()
    ensures NewRow(Waiting(), BET, SECOND_STAMP) == Ok(NEW_BET)
  {
    hide PayloadHash, Spelling, Waiting;
    HashIsSet(BET_COMMAND);
    WaitingShape();
  }

  lemma BetDecided(v: Verdict)
    ensures SettleSubmit(ONE_TRY, NEW_BET, BEN, v, SECOND_STAMP, 0) == Ok(REFUSING)
  {
    hide PayloadHash, Spelling;
    assert Move(BEN, Debit, "e2", "t2", Money(5, "EUR"), 1) == Err(Domain(InsufficientFunds));
  }

  lemma BetIsFresh()
    ensures Fresh(Waiting(), REFUSING, SECOND_STAMP)
  {
    hide PayloadHash, Spelling, Waiting;
    WaitingShape();
    assert "x1"[1] != "x2"[1] && "t1"[1] != "t2"[1] && "k1"[1] != "k2"[1] && "v1"[1] != "v3"[1];
    assert !SameBusiness(PARKED, REFUSED_BET) && !SameKey(PARKED, REFUSED_BET);
  }

  lemma BetIsRefused()
    ensures Submit(ONE_TRY, Waiting(), Ok(BET), SECOND_STAMP, 0) == Settled(REFUSING)
  {
    hide PayloadHash, Spelling, FindByBusinessId, SettleSubmit, Resolve, NewRow, Submit, Fresh, Waiting;
    WaitingShape();
    assert "x1" != "x2" by { assert "x1"[1] != "x2"[1]; }
    OnlyParkedFound("x1");
    BetRow();
    BetIsFresh();
    BetDecided(Resolve(Waiting().transactions, NEW_BET));
    DecidedIsSettled(ONE_TRY, Waiting(), BET, SECOND_STAMP, 0, NEW_BET, REFUSING);
  }

  /**
   * Starting from the empty database, statement by statement and under the lock: a
   * reversal ends as not found although its reference had ended before it committed.
   */
  lemma UnawareHappens()
    ensures exists es: seq<Turn> :: FromCommands(es) && EndsUnaware(History(ONE_TRY, true, System(EMPTY, map[]), es))
  {
    hide PayloadHash, Spelling, Inv, History, Submit, Commit, EndsUnaware, Waiting, IsParsed;
    var parking := WaitsFromNothing();
    var db := Waiting();
    var rest := UnawareFromWaiting();
    HistoryConcat(ONE_TRY, true, System(EMPTY, map[]), parking, rest);
    assert FromCommands(parking + rest) && EndsUnaware(History(ONE_TRY, true, System(EMPTY, map[]), parking + rest));
  }

  /** The rollback ended as not found, the bet it names ended too, on the other wallet. */
  ghost predicate EndsUnaware(s: System) {
    && s.live == map[] && "t1" in s.db.transactions && "t2" in s.db.transactions
    && s.db.transactions["t1"].status.Rejected? && s.db.transactions["t1"].failureCode == ReferenceNotFound
    && s.db.transactions["t2"] == REFUSED_BET
    && s.db.transactions["t1"].referenceExternalId == REFUSED_BET.externalId
  }

  lemma WaitsFromNothing() returns (es: seq<Turn>)
    ensures History(ONE_TRY, true, System(EMPTY, map[]), es) == System(Waiting(), map[]) && Inv(Waiting())
    ensures FromCommands(es)
  {
    hide PayloadHash, Spelling, Inv, History, Submit, Commit, Extends, Parse, IsParsed;
    WalletsOpen();
    EmptyIsSound();
    IdleIsLocked(ONE_TRY, EMPTY);
    LockedIsSystem(ONE_TRY, System(EMPTY, map[]));
    EveryInterleavingIsSound(ONE_TRY, true, System(EMPTY, map[]), OPENINGS);
    RollbackParks();
    LoneSubmission(ONE_TRY, OPENED, map[], "rollback", ROLLBACK, FIRST, 0);
    es :| Asks(es, {ROLLBACK}) && History(ONE_TRY, true, System(OPENED, map[]), es) == System(Waiting(), map[]);
    CommandsParse();
    AskedIsParsed(es, ROLLBACK);
    HistoryConcat(ONE_TRY, true, System(EMPTY, map[]), OPENINGS, es);
    es := OPENINGS + es;
    EveryInterleavingIsSound(ONE_TRY, true, System(EMPTY, map[]), es);
  }

  lemma LockedIsSystem(policy: Policy, s: System)
    requires Normalised(policy) && LockedOk(policy, s)
    ensures SystemOk(policy, true, s)
  {
    hide PayloadHash, Spelling;
  }

  lemma UnawareFromWaiting() returns (es: seq<Turn>)
    requires Inv(Waiting())
    ensures FromCommands(es) && EndsUnaware(History(ONE_TRY, true, System(Waiting(), map[]), es))
  {
    hide PayloadHash, Spelling, Inv, History, Submit, Commit, Waiting, LastVisit, Extends, Resolve, Missed, Parse,
      IsParsed;
    var db := Waiting();
    BetIsRefused();
    WaitingIsLastVisit();
    PairIsTheBets();
    GivenUpUnaware(ONE_TRY, db, "t1", THIRD, 0, BET, SECOND_STAMP, 0);
    es :| var end := History(ONE_TRY, true, System(db, map[]), es);
          Asks(es, {BET}) && end.live == map[] && "t1" in end.db.transactions
          && end.db.transactions["t1"].status.Rejected?
          && end.db.transactions["t1"].failureCode == ReferenceNotFound
          && "t2" in end.db.transactions && end.db.transactions["t2"] == REFUSED_BET;
    CommandsParse();
    AskedIsParsed(es, BET);
    IdleIsLocked(ONE_TRY, db);
    LockedIsSystem(ONE_TRY, System(db, map[]));
    EveryInterleavingIsSound(ONE_TRY, true, System(db, map[]), es);
    SameReferenceName(db, History(ONE_TRY, true, System(db, map[]), es).db);
  }

  lemma PairIsTheBets()
    ensures BET.providerId == PARKED.providerId && BET.externalId == PARKED.referenceExternalId
    ensures BET.walletId != PARKED.walletId
    ensures REFUSED_BET.status.IsTerminal() && SECOND_STAMP.transactionId == "t2" && THIRD.firstEvent == "v5"
  {
    hide PayloadHash, Spelling;
    assert "w1"[1] != "w2"[1];
  }

  lemma SameReferenceName(a: Db, b: Db)
    requires Extends(a, b) && "t1" in a.transactions && a.transactions["t1"] == PARKED
    ensures "t1" in b.transactions && b.transactions["t1"].referenceExternalId == "x1"
  {
    hide PayloadHash, Spelling;
    var t := b.transactions["t1"];
    assert RowAdvances(PARKED, t);
    assert PARKED.Identity().referenceExternalId == "x1" && t.Identity().referenceExternalId == t.referenceExternalId;
  }

  lemma WaitingIsLastVisit()
    ensures LastVisit(ONE_TRY, Waiting(), "t1", THIRD) && "t1" in Waiting().transactions
    ensures Waiting().transactions["t1"] == PARKED
    ensures FreshEvent(After(Waiting(), Settled(REFUSING), SECOND_STAMP).outbox, "v5")
  {
    hide PayloadHash, Spelling, Submit, Waiting, FindByBusinessId;
    WaitingShape();
    assert "x1" != "x2" by { assert "x1"[1] != "x2"[1]; }
    OnlyParkedFound("x1");
    assert "v5"[1] != "v1"[1] && "v5"[1] != "v3"[1];
  }

  /* ---- a refused delivery that was overtaken ---- */

  /** A loss with an amount, which no one can ever submit, under the bet's pair. */
  const BAD_LOSS_COMMAND :=
    SubmitCommand("k3", "provider", "x1", "anna", "w1", "round", "game", "LOSS", AMOUNT, "EUR", "")
  ghost const BAD_LOSS := Request.Request("k3", PayloadHash(BAD_LOSS_COMMAND), "provider", "x1", "anna", "w1", "round",
                                          "game", Loss, Money(5, "EUR"), "")
  const MESSAGE := ("consumer", "m1")

  ghost function Delivery(phase: Phase): Txn { Txn(SubmitJob(BAD_LOSS), Some(MESSAGE), THIRD, 0, phase) }

  ghost const ABSORBED := Delivery(Absorbed(RefusedFor(Domain(InvalidAmountForKind))))

  lemma BadLossParses()
    ensures Parse(BAD_LOSS_COMMAND) == Ok(BAD_LOSS) && IsParsed(BAD_LOSS)
  {
    hide PayloadHash, ParseMinor, Spelling;
    ParsePrinted(5);
  }

  lemma BadLossIsRefused()
    ensures NewExternal("t3", BAD_LOSS, 5) == Err(Domain(InvalidAmountForKind))
    ensures Serial.Replay(REFUSED_BET, BAD_LOSS) == Refused(Conflict(DifferentContent))
  {
    hide PayloadHash, Spelling;
    HashIsSet(BAD_LOSS_COMMAND);
    HashIdentifiesContent(BET_COMMAND, BAD_LOSS_COMMAND);
  }

  /** The delivery claims its message, finds the pair free, and is refused. */
  lemma DeliveryArrives()
    ensures Step(ONE_TRY, true, System(OPENED, map[]), BeginDelivery("delivery", MESSAGE, BAD_LOSS, THIRD, 0))
            == System(OPENED, map["delivery" := Delivery(Arriving)])
    ensures Step(ONE_TRY, true, System(OPENED, map["delivery" := Delivery(Arriving)]), Advance("delivery"))
            == System(OPENED, map["delivery" := Delivery(Begun)])
  {
    hide PayloadHash, Spelling, FindByBusinessId, NewExternal;
    assert map["delivery" := Delivery(Arriving)]["delivery" := Delivery(Begun)] == map["delivery" := Delivery(Begun)];
  }

  lemma DeliveryRefused()
    ensures Step(ONE_TRY, true, System(OPENED, map["delivery" := Delivery(Begun)]), Advance("delivery"))
            == System(OPENED, map["delivery" := ABSORBED])
  {
    hide PayloadHash, Spelling, FindByBusinessId, NewExternal;
    NoRowsNoneFound("provider", "x1");
    BadLossIsRefused();
    assert map["delivery" := Delivery(Begun)]["delivery" := ABSORBED] == map["delivery" := ABSORBED];
  }

  lemma DeliveryIsRefused()
    ensures History(ONE_TRY, true, System(OPENED, map[]),
                    [BeginDelivery("delivery", MESSAGE, BAD_LOSS, THIRD, 0)] + Advances("delivery", 2))
            == System(OPENED, map["delivery" := ABSORBED])
  {
    hide PayloadHash, Spelling, Step;
    var es := [BeginDelivery("delivery", MESSAGE, BAD_LOSS, THIRD, 0)] + Advances("delivery", 2);
    assert es[0] == BeginDelivery("delivery", MESSAGE, BAD_LOSS, THIRD, 0) && es[1..] == Advances("delivery", 2);
    DeliveryArrives();
    AdvancesUnfold(ONE_TRY, System(OPENED, map["delivery" := Delivery(Arriving)]), "delivery", 2);
    AdvancesUnfold(ONE_TRY, System(OPENED, map["delivery" := Delivery(Begun)]), "delivery", 1);
    DeliveryRefused();
  }

  lemma BetAlone()
    ensures Submit(ONE_TRY, OPENED, Ok(BET), SECOND_STAMP, 0) == Settled(REFUSING)
  {
    hide PayloadHash, Spelling, FindByBusinessId, SettleSubmit, Resolve, NewRow, Submit, Fresh;
    NoRowsNoneFound("provider", "x1");
    assert NewRow(OPENED, BET, SECOND_STAMP) == Ok(NEW_BET) by { BetRowAlone(); }
    assert Fresh(OPENED, REFUSING, SECOND_STAMP) by { BetFreshAlone(); }
    BetDecided(Resolve(OPENED.transactions, NEW_BET));
    DecidedIsSettled(ONE_TRY, OPENED, BET, SECOND_STAMP, 0, NEW_BET, REFUSING);
  }

  lemma BetRowAlone()
    ensures NewRow(OPENED, BET, SECOND_STAMP) == Ok(NEW_BET)
  {
    hide PayloadHash, Spelling;
    HashIsSet(BET_COMMAND);
  }

  lemma BetFreshAlone()
    ensures Fresh(OPENED, REFUSING, SECOND_STAMP)
  {
    hide PayloadHash, Spelling;
  }

  /** The database once the bet is stored. */
  ghost function Stored(): Db { After(OPENED, Settled(REFUSING), SECOND_STAMP) }

  lemma AbsorbedCommits()
    ensures Step(ONE_TRY, true, System(Stored(), map["delivery" := ABSORBED]), Advance("delivery"))
            == System(Mark(Stored(), MESSAGE, BAD_LOSS.payloadHash, 5), map[])
  {
    hide PayloadHash, Spelling, Stored;
    assert map["delivery" := ABSORBED] - {"delivery"} == map[];
  }

  /**
   * From the empty database: a delivery is refused, its pair is then stored by another
   * submission, and it still records its message, where the serial delivery would
   * change nothing and release it.
   */
  lemma OvertakenHappens()
    ensures exists es: seq<Turn> ::
              && FromCommands(es)
              && History(ONE_TRY, true, System(EMPTY, map[]), es)
                 == System(Mark(Stored(), MESSAGE, PayloadHash(BAD_LOSS_COMMAND), 5), map[])
    ensures Deliver(ONE_TRY, Stored(), MESSAGE.0, Envelope.Request(MESSAGE.1, BAD_LOSS_COMMAND), THIRD, 0)
            == (Stored(), Release)
    ensures Stored() != Mark(Stored(), MESSAGE, PayloadHash(BAD_LOSS_COMMAND), 5)
  {
    hide PayloadHash, Spelling, History, Submit, Inv, Stored, Step, Parse, IsParsed, FromCommands;
    var claiming := [BeginDelivery("delivery", MESSAGE, BAD_LOSS, THIRD, 0)] + Advances("delivery", 2);
    var storing := StoresMeanwhile();
    AbsorbedCommits();
    LastTurn(System(Stored(), map["delivery" := ABSORBED]), Advance("delivery"));
    WalletsOpen();
    DeliveryIsRefused();
    HistoryConcat(ONE_TRY, true, System(EMPTY, map[]), OPENINGS, claiming);
    HistoryConcat(ONE_TRY, true, System(EMPTY, map[]), OPENINGS + claiming, storing);
    HistoryConcat(ONE_TRY, true, System(EMPTY, map[]), OPENINGS + claiming + storing, [Advance("delivery")]);
    OvertakingParses(storing);
    StoredReleases();
  }

  lemma StoresMeanwhile() returns (es: seq<Turn>)
    ensures FromCommands(es)
    ensures History(ONE_TRY, true, System(OPENED, map["delivery" := ABSORBED]), es)
            == System(Stored(), map["delivery" := ABSORBED])
  {
    hide PayloadHash, Spelling, History, Submit, Inv, Stored, Step, Parse, IsParsed, FromCommands;
    WalletsOpen();
    BetAlone();
    assert Inv(OPENED) by {
      EmptyIsSound();
      IdleIsLocked(ONE_TRY, EMPTY);
      LockedIsSystem(ONE_TRY, System(EMPTY, map[]));
      EveryInterleavingIsSound(ONE_TRY, true, System(EMPTY, map[]), OPENINGS);
    }
    LoneSubmission(ONE_TRY, OPENED, map["delivery" := ABSORBED], "bet", BET, SECOND_STAMP, 0);
    es :| && Asks(es, {BET})
          && History(ONE_TRY, true, System(OPENED, map["delivery" := ABSORBED]), es)
             == System(After(OPENED, Settled(REFUSING), SECOND_STAMP), map["delivery" := ABSORBED]);
    assert After(OPENED, Settled(REFUSING), SECOND_STAMP) == Stored() by { StoredIs(); }
    CommandsParse();
    AskedIsParsed(es, BET);
  }

  lemma OvertakingParses(storing: seq<Turn>)
    requires FromCommands(storing)
    ensures FromCommands(OPENINGS + ([BeginDelivery("delivery", MESSAGE, BAD_LOSS, THIRD, 0)] + Advances("delivery", 2))
                         + storing + [Advance("delivery")])
  {
    hide PayloadHash, Spelling, Parse, IsParsed;
    BadLossParses();
    AdvancesAskNothing("delivery", 2, {BAD_LOSS});
  }

  lemma StoredIs()
    ensures After(OPENED, Settled(REFUSING), SECOND_STAMP) == Stored()
  {
    hide PayloadHash, Spelling;
  }

  lemma LastTurn(s: System, e: Turn)
    ensures History(ONE_TRY, true, s, [e]) == Step(ONE_TRY, true, s, e)
  {
    hide PayloadHash, Spelling;
    assert [e][1..] == [];
    assert History(ONE_TRY, true, Step(ONE_TRY, true, s, e), []) == Step(ONE_TRY, true, s, e);
  }

  lemma StoredReleases()
    ensures Deliver(ONE_TRY, Stored(), MESSAGE.0, Envelope.Request(MESSAGE.1, BAD_LOSS_COMMAND), THIRD, 0)
            == (Stored(), Release)
    ensures Stored() != Mark(Stored(), MESSAGE, PayloadHash(BAD_LOSS_COMMAND), 5)
  {
    hide PayloadHash, Spelling, FindByBusinessId, Parse;
    assert Stored().transactions == map["t2" := REFUSED_BET] && MESSAGE !in Stored().inbox;
    assert FindByBusinessId(Stored().transactions, "provider", "x1") == Some(REFUSED_BET) by { BetFound(); }
    BadLossIsRefused();
    BadLossParses();
    FoundIsReplayed(ONE_TRY, Stored(), BAD_LOSS, THIRD, 0);
    assert MESSAGE in Mark(Stored(), MESSAGE, PayloadHash(BAD_LOSS_COMMAND), 5).inbox;
  }

  lemma BetFound()
    ensures FindByBusinessId(map["t2" := REFUSED_BET], "provider", "x1") == Some(REFUSED_BET)
  {
    hide PayloadHash, Spelling;
    var rows := map["t2" := REFUSED_BET];
    assert IsBusiness(rows["t2"], "provider", "x1");
  }

  /* ---- a pass that says it worked when it did not ---- */

  lemma WorkerGivesUp()
    ensures "t1" in Waiting().transactions && Claimable(Waiting(), "t1")
    ensures var a := Visit(ONE_TRY, Waiting(), "t1", THIRD, 0); a.Settled? && a.eff.row.status.Rejected?
  {
    hide PayloadHash, Spelling, Waiting, FindByBusinessId, SettleVisit, Resolve;
    WaitingShape();
    assert "x1"[1] != "x2"[1] && "v5"[1] != "v1"[1] && "w1"[1] != "w2"[1];
    OnlyParkedFound("x1");
    assert Resolve(Waiting().transactions, PARKED) == Wait by { ParkedWaits(); }
    RejectionAtLast(PARKED, ANNA, 5);
    assert SettleVisit(ONE_TRY, PARKED, ANNA, Wait, THIRD, 0) == Ok(GivingUp(PARKED, ANNA, 5)) by { LastTry(); }
  }

  lemma ParkedWaits()
    ensures Resolve(map["t1" := PARKED], PARKED) == Wait
  {
    hide PayloadHash, Spelling;
    assert "x1"[1] != "x2"[1];
    OnlyParkedFound("x1");
  }

  lemma LastTry()
    ensures RejectWith(PARKED, true, ANNA, ReferenceNotFound, 5).Ok?
    ensures SettleVisit(ONE_TRY, PARKED, ANNA, Wait, THIRD, 0) == Ok(GivingUp(PARKED, ANNA, 5))
  {
    hide PayloadHash, Spelling;
    RejectionAtLast(PARKED, ANNA, 5);
  }

  const TRIES := [THIRD, THIRD.(now := 6)]

  /** The rollback is the one reversal due, and nothing is once it has been given up. */
  lemma OnlyOneIsDue()
    ensures OldestDue(Waiting().transactions, TRIES[0].now, {}, Some(PARKED))
    ensures forall id :: id in Waiting().transactions && id != PARKED.id ==>
              !IsDue(Waiting().transactions[id], TRIES[1].now)
  {
    hide PayloadHash, Spelling, Waiting;
    WaitingShape();
    assert Waiting().transactions["t1"] == PARKED;
  }

  lemma RejectedIsNotDue(t: Transaction, now: Instant)
    requires t.status.Rejected?
    ensures !IsDue(t, now)
  {
    hide PayloadHash, Spelling;
  }

  lemma WaitingIsSound()
    ensures Inv(Waiting()) && PARKED.id in Waiting().transactions && Waiting().transactions[PARKED.id] == PARKED
  {
    hide PayloadHash, Spelling, Inv, Waiting;
    var _ := WaitsFromNothing();
    WaitingShape();
  }

  lemma SecondTryFindsNothing()
    ensures CanMislead(ONE_TRY, Waiting(), PARKED, THIRD, 0, {}, {}, TRIES, 0)
  {
    hide PayloadHash, Spelling, Inv, Visit, Waiting, Claimable, OldestDue, IsDue;
    WaitingIsSound();
    WorkerGivesUp();
    OnlyOneIsDue();
    RejectedIsNotDue(Visit(ONE_TRY, Waiting(), "t1", THIRD, 0).eff.row, TRIES[1].now);
  }

  /**
   * Two workers meet on one waiting reversal: the first try of one is rolled back, the
   * other ends the wait, and the second try commits having found nothing.
   */
  lemma MisleadingHappens()
    ensures exists es: seq<Turn> ::
              FromCommands(es) && History(ONE_TRY, true, System(EMPTY, map[]), es) == System(Waiting(), map[])
    ensures exists after: Db ::
              var looks := [Try(Waiting(), Denied(SerializationFailure), Sight({}, Some(PARKED))),
                            Try(after, Granted, Sight({}, None))];
              TriesFit(ONE_TRY, Waiting(), looks, TRIES, 0) && Misleads(looks)
  {
    hide PayloadHash, Spelling, Inv, Visit, Waiting, TriesFit, Misleads, CanMislead, Commit, History, FromCommands;
    var es := WaitsFromNothing();
    assert FromCommands(es);
    WaitingIsSound();
    SecondTryFindsNothing();
    PassCanMislead(ONE_TRY, Waiting(), PARKED, THIRD, 0, {}, {}, TRIES, 0);
  }

  /* ---- a publisher's count that is not of what it published ---- */

  lemma WaitingEvent() returns (row: OutboxRow)
    ensures Waiting().outbox == [row] && LoneDue(row, 5)
  {
    hide PayloadHash, Spelling, Submit;
    RollbackParks();
    row := Unsent(FIRST, PARKING.events[0], "v1");
    assert [] + [row] == [row];
  }

  /** On that database, a pass that the broker refuses counts one, and one that is retried counts two. */
  lemma CountMisleads()
    ensures exists es: seq<Turn>, row: OutboxRow ::
              && FromCommands(es) && History(ONE_TRY, true, System(EMPTY, map[]), es) == System(Waiting(), map[])
              && Waiting().outbox == [row] && Miscounts(row)
  {
    hide PayloadHash, Spelling, Waiting, FromCommands, History, Dealt, ClaimedBy, TakenIn, NextAttemptAt;
    var es := WaitsFromNothing();
    var row := WaitingEvent();
    CountCanMislead(ONE_TRY, Waiting(), row, 5, 0);
    assert FromCommands(es) && Miscounts(row);
  }

  ghost predicate Miscounts(row: OutboxRow) {
    var later := row.(attempts := row.attempts + 1, nextAttemptAt := NextAttemptAt(ONE_TRY, 5, row.attempts + 1, 0));
    var refused, taken := Batch({}, [Offered(row, false)]), Batch({}, [Offered(row, true)]);
    && Dealt(ONE_TRY, [row], [later], refused, 5, 1, {})
    && ClaimedBy([Try(Waiting(), Granted, refused)]) == 1 && TakenIn(refused.offered) == 0
    && Dealt(ONE_TRY, [row], [row.(publishedAt := 5)], taken, 5, 1, {(row.eventId, row.event)})
    && ClaimedBy([Try(Waiting(), Denied(SerializationFailure), taken), Try(Waiting(), Granted, taken)]) == 2
    && TakenIn(taken.offered) == 1
  }

  /* ---- a replay that tells another balance ---- */

  /** Anna wins twice while her rollback of the first win, which came early, is waiting. */
  const WIN_COMMAND := SubmitCommand("k4", "provider", "x1", "anna", "w1", "round", "game", "WIN", AMOUNT, "EUR", "")
  const BONUS_COMMAND := SubmitCommand("k5", "provider", "x3", "anna", "w1", "round", "game", "WIN", AMOUNT, "EUR", "")

  ghost function WinOf(c: SubmitCommand): Request {
    Request.Request(c.idempotencyKey, PayloadHash(c), "provider", c.externalId, "anna", "w1", "round", "game",
                    Win, Money(5, "EUR"), "")
  }

  lemma WinsParse()
    ensures Parse(WIN_COMMAND) == Ok(WinOf(WIN_COMMAND)) && Parse(BONUS_COMMAND) == Ok(WinOf(BONUS_COMMAND))
    ensures IsParsed(WinOf(WIN_COMMAND)) && IsParsed(WinOf(BONUS_COMMAND))
  {
    hide PayloadHash, ParseMinor, Spelling;
    ParsePrinted(5);
  }

  const FOURTH := Stamp(1, "t4", "e4", "v7", "v8")
  const FIFTH := Stamp(1, "t5", "e5", "v9", "w0")

  ghost function NewWin(c: SubmitCommand, id: string): Transaction {
    Transaction(id, External, Win, Status.Pending, "w1", "anna", Money(5, "EUR"), "provider", c.externalId,
                c.idempotencyKey, PayloadHash(c), "round", "game", "", "", NoCode, 0, 0, 0, UNSET, 1, 1)
  }

  /** The win from a balance to five more. */
  ghost function Winning(c: SubmitCommand, stamp: Stamp, from: Wallet, balance: int64): Effect
    requires InInt64(balance + 5)
  {
    var won := NewWin(c, stamp.transactionId).(status := Processed, balanceAfter := Money(balance + 5, "EUR"));
    var entry := Entry(stamp.entryId, "w1", stamp.transactionId, Credit, Money(5, "EUR"), Money(balance, "EUR"),
                       Money(balance + 5, "EUR"), 1);
    var wallet := from.(balance := Money(balance + 5, "EUR"), version := Wrap64(from.version + 1), updatedAt := 1);
    Decisions.Finish(won, false, from, Some(Movement(wallet, entry)))
  }

  function AnnaAt(balance: int64, version: int64): Wallet { Wallet("w1", "anna", Money(balance, "EUR"), version, 1, 1) }

  lemma WinDecided(c: SubmitCommand, stamp: Stamp, balance: int64, version: int64, v: Verdict)
    requires 0 <= balance <= 5 && 1 <= version <= 2 && stamp.now == 1 && stamp.transactionId != ""
    requires stamp.entryId != ""
    ensures SettleSubmit(ONE_TRY, NewWin(c, stamp.transactionId), AnnaAt(balance, version), v, stamp, 0)
            == Ok(Winning(c, stamp, AnnaAt(balance, version), balance))
    ensures |Winning(c, stamp, AnnaAt(balance, version), balance).events| == 2
  {
    hide PayloadHash, Spelling;
  }

  lemma WinRow(db: Db, c: SubmitCommand, stamp: Stamp)
    requires "w1" in db.wallets && db.wallets["w1"].playerId == "anna" && stamp.now == 1 && stamp.transactionId != ""
    requires c.externalId != "" && c.idempotencyKey != ""
    ensures NewRow(db, WinOf(c), stamp) == Ok(NewWin(c, stamp.transactionId))
  {
    hide PayloadHash, Spelling;
    HashIsSet(c);
  }

  /** What is used up: the rows' ids, pairs and keys, and the ids of entries and events. */
  ghost predicate Used(db: Db, ids: set<string>, pairs: set<string>, keys: set<string>, entries: set<string>,
                       events: set<string>) {
    && db.transactions.Keys <= ids
    && (forall id :: id in db.transactions ==>
          db.transactions[id].externalId in pairs && db.transactions[id].idempotencyKey in keys)
    && (forall i :: 0 <= i < |db.ledger| ==> db.ledger[i].id in entries)
    && (forall i :: 0 <= i < |db.outbox| ==> db.outbox[i].eventId in events)
  }

  lemma UnusedIsFresh(db: Db, eff: Effect, stamp: Stamp, ids: set<string>, pairs: set<string>, keys: set<string>,
                      entries: set<string>, events: set<string>)
    requires Used(db, ids, pairs, keys, entries, events) && stamp.firstEvent != stamp.secondEvent
    requires eff.row.id !in ids && eff.row.externalId !in pairs && eff.row.idempotencyKey !in keys
    requires eff.from.version < MAX_INT64
    requires stamp.firstEvent !in events && stamp.secondEvent !in events
    requires eff.move.Some? ==> eff.move.value.entry.id !in entries
    ensures Fresh(db, eff, stamp)
  {
    hide PayloadHash, Spelling;
  }

  lemma UsedByCommit(db: Db, eff: Effect, stamp: Stamp, ids: set<string>, pairs: set<string>, keys: set<string>,
                     entries: set<string>, events: set<string>)
    requires Used(db, ids, pairs, keys, entries, events) && |eff.events| <= 2 && eff.move.Some?
    ensures Used(Commit(db, eff, stamp), ids + {eff.row.id}, pairs + {eff.row.externalId},
                 keys + {eff.row.idempotencyKey},
                 entries + {eff.move.value.entry.id}, events + {stamp.firstEvent, stamp.secondEvent})
  {
    hide PayloadHash, Spelling;
  }

  lemma UnusedNotFound(db: Db, ids: set<string>, pairs: set<string>, keys: set<string>, entries: set<string>,
                       events: set<string>, external: string)
    requires Used(db, ids, pairs, keys, entries, events) && external !in pairs
    ensures FindByBusinessId(db.transactions, "provider", external) == None
  {
    hide PayloadHash, Spelling;
  }

  /** A win on Anna's wallet settles, and what it leaves. */
  lemma WinSettles(db: Db, c: SubmitCommand, stamp: Stamp, balance: int64, version: int64, ids: set<string>,
                   pairs: set<string>, keys: set<string>, entries: set<string>, events: set<string>)
    requires "w1" in db.wallets && db.wallets["w1"] == AnnaAt(balance, version)
    requires 0 <= balance <= 5 && 1 <= version <= 2
    requires stamp.now == 1 && stamp.transactionId != "" && stamp.entryId != "" && stamp.firstEvent != stamp.secondEvent
    requires c.externalId != "" && c.idempotencyKey != "" && Used(db, ids, pairs, keys, entries, events)
    requires stamp.transactionId !in ids && c.externalId !in pairs && c.idempotencyKey !in keys
    requires stamp.entryId !in entries
    requires stamp.firstEvent !in events && stamp.secondEvent !in events
    ensures var eff := Winning(c, stamp, AnnaAt(balance, version), balance);
            var after := After(db, Settled(eff), stamp);
            && Submit(ONE_TRY, db, Ok(WinOf(c)), stamp, 0) == Settled(eff)
            && after.transactions == db.transactions[stamp.transactionId := eff.row]
            && after.wallets == db.wallets["w1" := AnnaAt(balance + 5, version + 1)]
            && Used(after, ids + {stamp.transactionId}, pairs + {c.externalId}, keys + {c.idempotencyKey},
                    entries + {stamp.entryId}, events + {stamp.firstEvent, stamp.secondEvent})
  {
    hide PayloadHash, Spelling, FindByBusinessId, SettleSubmit, Resolve, NewRow, Submit, Fresh, Used, EventsOf;
    var eff, row := Winning(c, stamp, AnnaAt(balance, version), balance), NewWin(c, stamp.transactionId);
    UnusedNotFound(db, ids, pairs, keys, entries, events, c.externalId);
    WinRow(db, c, stamp);
    WinDecided(c, stamp, balance, version, Resolve(db.transactions, row));
    UnusedIsFresh(db, eff, stamp, ids, pairs, keys, entries, events);
    DecidedIsSettled(ONE_TRY, db, WinOf(c), stamp, 0, row, eff);
    UsedByCommit(db, eff, stamp, ids, pairs, keys, entries, events);
    assert eff.move.value.wallet == AnnaAt(balance + 5, version + 1) by { NextVersion(version); }
  }

  lemma NextVersion(version: int64)
    requires 1 <= version <= 2
    ensures Wrap64(version + 1) == version + 1
  {
  }

  ghost function Won(): Db { After(Waiting(), Settled(Winning(WIN_COMMAND, FOURTH, AnnaAt(0, 1), 0)), FOURTH) }
  ghost function WonTwice(): Db { After(Won(), Settled(Winning(BONUS_COMMAND, FIFTH, AnnaAt(5, 2), 5)), FIFTH) }

  lemma WaitingUses()
    ensures Used(Waiting(), {"t1"}, {"x2"}, {"k1"}, {}, {"v1"})
    ensures "w1" in Waiting().wallets && Waiting().wallets["w1"] == AnnaAt(0, 1)
  {
    hide PayloadHash, Spelling, Waiting;
    WaitingShape();
    assert "w2"[1] != "w1"[1];
  }

  /** The names in use are all different: they differ in their second letter, or in their first. */
  lemma NamesDiffer()
    ensures "t4" !in {"t1"} && "x1" !in {"x2"} && "k4" !in {"k1"} && "v7" !in {"v1"} && "v8" !in {"v1"} && "v7" != "v8"
    ensures "t5" !in {"t1"} + {"t4"} && "x3" !in {"x2"} + {"x1"} && "k5" !in {"k1"} + {"k4"} && "e5" !in {} + {"e4"}
    ensures "v9" !in {"v1"} + {"v7", "v8"} && "w0" !in {"v1"} + {"v7", "v8"} && "v9" != "w0"
    ensures "e3" !in {} + {"e4"} + {"e5"} && "v5" != "v6"
    ensures "v5" !in {"v1"} + {"v7", "v8"} + {"v9", "w0"} && "v6" !in {"v1"} + {"v7", "v8"} + {"v9", "w0"}
  {
    assert "t4"[1] != "t1"[1] && "t5"[1] != "t1"[1] && "t5"[1] != "t4"[1];
    assert "x1"[1] != "x2"[1] && "x3"[1] != "x2"[1] && "x3"[1] != "x1"[1];
    assert "k4"[1] != "k1"[1] && "k5"[1] != "k1"[1] && "k5"[1] != "k4"[1];
    assert "e5"[1] != "e4"[1] && "e3"[1] != "e4"[1] && "e3"[1] != "e5"[1];
    assert "v7"[1] != "v1"[1] && "v8"[1] != "v1"[1] && "v7"[1] != "v8"[1];
    assert "v9"[1] != "v1"[1] && "v9"[1] != "v7"[1] && "v9"[1] != "v8"[1] && "w0"[0] != "v1"[0];
    assert "w0"[0] != "v7"[0] && "w0"[0] != "v8"[0] && "w0"[0] != "v9"[0];
    assert "v5"[1] != "v1"[1] && "v5"[1] != "v7"[1] && "v5"[1] != "v8"[1] && "v5"[1] != "v9"[1] && "v5"[1] != "v6"[1];
    assert "v6"[1] != "v1"[1] && "v6"[1] != "v7"[1] && "v6"[1] != "v8"[1] && "v6"[1] != "v9"[1];
    assert "v5"[0] != "w0"[0] && "v6"[0] != "w0"[0];
  }

  lemma AnnaWins()
    ensures Submit(ONE_TRY, Waiting(), Ok(WinOf(WIN_COMMAND)), FOURTH, 0)
            == Settled(Winning(WIN_COMMAND, FOURTH, AnnaAt(0, 1), 0))
    ensures Won().transactions == Waiting().transactions["t4" := Winning(WIN_COMMAND, FOURTH, AnnaAt(0, 1), 0).row]
    ensures Won().wallets == Waiting().wallets["w1" := AnnaAt(5, 2)]
    ensures Used(Won(), {"t1"} + {"t4"}, {"x2"} + {"x1"}, {"k1"} + {"k4"}, {} + {"e4"}, {"v1"} + {"v7", "v8"})
  {
    hide PayloadHash, Spelling, Waiting, Used, Submit, Winning, Commit;
    WaitingUses();
    NamesDiffer();
    WinSettles(Waiting(), WIN_COMMAND, FOURTH, 0, 1, {"t1"}, {"x2"}, {"k1"}, {}, {"v1"});
  }

  lemma AnnaWinsAgain()
    ensures Submit(ONE_TRY, Won(), Ok(WinOf(BONUS_COMMAND)), FIFTH, 0)
            == Settled(Winning(BONUS_COMMAND, FIFTH, AnnaAt(5, 2), 5))
    ensures WonTwice().transactions == Won().transactions["t5" := Winning(BONUS_COMMAND, FIFTH, AnnaAt(5, 2), 5).row]
    ensures WonTwice().wallets == Won().wallets["w1" := AnnaAt(10, 3)]
    ensures Used(WonTwice(), {"t1"} + {"t4"} + {"t5"}, {"x2"} + {"x1"} + {"x3"}, {"k1"} + {"k4"} + {"k5"},
                 {} + {"e4"} + {"e5"}, {"v1"} + {"v7", "v8"} + {"v9", "w0"})
  {
    hide PayloadHash, Spelling, Waiting, Won, Used, Submit, Winning, Commit;
    AnnaWins();
    NamesDiffer();
    WinSettles(Won(), BONUS_COMMAND, FIFTH, 5, 2, {"t1"} + {"t4"}, {"x2"} + {"x1"}, {"k1"} + {"k4"}, {} + {"e4"},
               {"v1"} + {"v7", "v8"});
  }

  /* the visit */

  const REFUNDED := AnnaAt(5, 4).(updatedAt := 5)

  ghost const TAKEN_BACK :=
    PARKED.(status := Processed, resolvedReferenceId := "t4", balanceAfter := Money(5, "EUR"), updatedAt := 5)

  ghost function TakingBack(): Effect {
    var entry := Entry("e3", "w1", "t1", Debit, Money(5, "EUR"), Money(10, "EUR"), Money(5, "EUR"), 5);
    Decisions.Finish(TAKEN_BACK, true, AnnaAt(10, 3), Some(Movement(REFUNDED, entry)))
  }

  ghost function TheWin(): Transaction { Winning(WIN_COMMAND, FOURTH, AnnaAt(0, 1), 0).row }

  lemma WinIsReversible()
    ensures Judge(PARKED, Some(TheWin())) == Apply(TheWin(), Debit) && TheWin().id == "t4"
    ensures IsBusiness(TheWin(), "provider", "x1") && !IsProcessedReversalOf(TheWin(), "t4")
    ensures !IsProcessedReversalOf(PARKED, "t4")
    ensures !IsProcessedReversalOf(Winning(BONUS_COMMAND, FIFTH, AnnaAt(5, 2), 5).row, "t4")
  {
    hide PayloadHash, Spelling;
  }

  lemma TakingBackDecided(v: Verdict)
    requires v == Apply(TheWin(), Debit)
    ensures SettleVisit(ONE_TRY, PARKED, AnnaAt(10, 3), v, THIRD, 0) == Ok(TakingBack())
    ensures |TakingBack().events| == 2 && TakingBack().row == TAKEN_BACK
  {
    hide PayloadHash, Spelling;
    WinIsReversible();
    assert Undo(PARKED, AnnaAt(10, 3), v, "e3", 5).Ok?;
  }

  ghost function TheBonus(): Transaction { Winning(BONUS_COMMAND, FIFTH, AnnaAt(5, 2), 5).row }

  lemma WonTwiceRows()
    ensures WonTwice().transactions == map["t1" := PARKED, "t4" := TheWin(), "t5" := TheBonus()]
    ensures "t4" != "t1" && "t5" != "t1" && "t5" != "t4"
    ensures "w1" in WonTwice().wallets && WonTwice().wallets["w1"] == AnnaAt(10, 3)
  {
    hide PayloadHash, Spelling, Waiting, Won, WonTwice, Used, Winning;
    WaitingShape();
    AnnaWins();
    AnnaWinsAgain();
    assert "t4"[1] != "t1"[1] && "t5"[1] != "t1"[1] && "t5"[1] != "t4"[1];
  }

  lemma WinResolves(rows: Rows)
    requires rows == map["t1" := PARKED, "t4" := TheWin(), "t5" := TheBonus()] && Unique(rows)
    requires "t4" != "t1" && "t5" != "t1" && "t5" != "t4"
    ensures Resolve(rows, PARKED) == Apply(TheWin(), Debit)
  {
    hide PayloadHash, Spelling, Winning, TheWin, TheBonus, Judge, IsProcessedReversalOf, Unique, FindByBusinessId;
    TheWinIs();
    TheBonusIs();
    WinIsReversible();
    FoundIsUnique(rows, "t4");
  }

  lemma TheBonusIs()
    ensures TheBonus() == Winning(BONUS_COMMAND, FIFTH, AnnaAt(5, 2), 5).row
  {
    hide PayloadHash, Spelling;
  }

  lemma WonTwiceHolds()
    requires Inv(WonTwice())
    ensures Claimable(WonTwice(), "t1") && WonTwice().transactions["t1"] == PARKED
    ensures "w1" in WonTwice().wallets && WonTwice().wallets["w1"] == AnnaAt(10, 3)
    ensures Resolve(WonTwice().transactions, PARKED) == Apply(TheWin(), Debit)
    ensures Used(WonTwice(), {"t1"} + {"t4"} + {"t5"}, {"x2"} + {"x1"} + {"x3"}, {"k1"} + {"k4"} + {"k5"},
                 {} + {"e4"} + {"e5"}, {"v1"} + {"v7", "v8"} + {"v9", "w0"})
  {
    hide PayloadHash, Spelling, Won, WonTwice, Used, Winning, Inv, TheWin, TheBonus, Resolve, Unique;
    WonTwiceRows();
    AnnaWinsAgain();
    InvIsUnique(WonTwice());
    WinResolves(WonTwice().transactions);
  }

  lemma TheWinIs()
    ensures TheWin() == Winning(WIN_COMMAND, FOURTH, AnnaAt(0, 1), 0).row
    ensures TheWin().providerId == "provider" && TheWin().externalId == "x1" && TheWin().origin.External?
  {
    hide PayloadHash, Spelling;
  }

  lemma AnnaTakesBack()
    requires Inv(WonTwice())
    ensures Due(WonTwice(), "t1", 5) && Visit(ONE_TRY, WonTwice(), "t1", THIRD, 0) == Settled(TakingBack())
    ensures var after := After(WonTwice(), Settled(TakingBack()), THIRD);
            "t1" in after.transactions && after.transactions["t1"] == TAKEN_BACK
  {
    hide PayloadHash, Spelling, WonTwice, Winning, Used, Inv, TheWin, SettleVisit, Resolve, Fresh, FindByBusinessId;
    WonTwiceHolds();
    NamesDiffer();
    TakingBackDecided(Apply(TheWin(), Debit));
    TakingBackIsFresh();
  }

  lemma TakingBackIsFresh()
    requires Inv(WonTwice())
    ensures Fresh(WonTwice(), TakingBack(), THIRD)
  {
    hide PayloadHash, Spelling, WonTwice, Winning, Inv, TheWin, EventsOf;
    WonTwiceHolds();
    NamesDiffer();
  }

  /** The run up to the wins, and the one after them. */
  lemma WinsHappen() returns (es: seq<Turn>)
    ensures FromCommands(es) && Inv(WonTwice())
    ensures History(ONE_TRY, true, System(Waiting(), map[]), es) == System(WonTwice(), map[])
  {
    hide PayloadHash, Spelling, Waiting, Won, WonTwice, Winning, Inv, Submit, History, Commit, Parse, IsParsed, Extends,
      Used;
    WaitingIsSound();
    WinsParse();
    AnnaWins();
    LoneSubmission(ONE_TRY, Waiting(), map[], "win", WinOf(WIN_COMMAND), FOURTH, 0);
    var first :| && Asks(first, {WinOf(WIN_COMMAND)})
                 && History(ONE_TRY, true, System(Waiting(), map[]), first)
                    == System(After(Waiting(), Settled(Winning(WIN_COMMAND, FOURTH, AnnaAt(0, 1), 0)), FOURTH), map[]);
    WonAre();
    StaysSound(Waiting(), first);
    AskedIsParsed(first, WinOf(WIN_COMMAND));
    AnnaWinsAgain();
    LoneSubmission(ONE_TRY, Won(), map[], "bonus", WinOf(BONUS_COMMAND), FIFTH, 0);
    var second :| && Asks(second, {WinOf(BONUS_COMMAND)})
                  && History(ONE_TRY, true, System(Won(), map[]), second)
                     == System(After(Won(), Settled(Winning(BONUS_COMMAND, FIFTH, AnnaAt(5, 2), 5)), FIFTH), map[]);
    StaysSound(Won(), second);
    AskedIsParsed(second, WinOf(BONUS_COMMAND));
    HistoryConcat(ONE_TRY, true, System(Waiting(), map[]), first, second);
    es := first + second;
  }

  lemma WonAre()
    ensures Won() == After(Waiting(), Settled(Winning(WIN_COMMAND, FOURTH, AnnaAt(0, 1), 0)), FOURTH)
    ensures WonTwice() == After(Won(), Settled(Winning(BONUS_COMMAND, FIFTH, AnnaAt(5, 2), 5)), FIFTH)
  {
    hide PayloadHash, Spelling;
  }

  lemma StaysSound(db: Db, es: seq<Turn>)
    requires Inv(db)
    ensures Inv(History(ONE_TRY, true, System(db, map[]), es).db)
  {
    hide Inv, History, PayloadHash, Spelling;
    IdleIsLocked(ONE_TRY, db);
    LockedIsSystem(ONE_TRY, System(db, map[]));
    EveryInterleavingIsSound(ONE_TRY, true, System(db, map[]), es);
  }

  /** The rollback's answer at first, when it parked, and its row at last. */
  lemma FirstAndLast()
    ensures PARKING.Balance() == Money(0, "EUR") != TAKEN_BACK.balanceAfter
    ensures PARKING.row == PARKED && TAKEN_BACK.status.Processed?
  {
    hide PayloadHash, Spelling;
  }

  /**
   * From the empty database: a rollback comes early and is told a balance of nothing; it
   * is processed later, after two wins, and from then on a replay tells five. Processed
   * or not, what decides is whether its own submission processed it.
   */
  lemma ReplayTellsAnother()
    ensures exists first: seq<Turn>, later: seq<Turn> ::
              && FromCommands(first) && FromCommands(later)
              && History(ONE_TRY, true, System(EMPTY, map[]), first) == System(Waiting(), map[])
              && RetoldAfter(History(ONE_TRY, true, System(Waiting(), map[]), later).db)
    ensures JustAnswered(Waiting(), PARKING, ROLLBACK_COMMAND)
    ensures PARKING.Balance() == Money(0, "EUR") != TAKEN_BACK.balanceAfter && TAKEN_BACK.status.Processed?
  {
    hide PayloadHash, Spelling, Waiting, WonTwice, Inv, Submit, Visit, History, Commit, Parse, IsParsed, FromCommands,
      RetoldAfter, JustAnswered;
    var first := WaitsFromNothing();
    var winning := WinsHappen();
    AnnaTakesBack();
    LoneVisit(ONE_TRY, WonTwice(), "t1", THIRD, 0);
    var visiting :| && Asks(visiting, {})
                    && History(ONE_TRY, true, System(WonTwice(), map[]), visiting)
                       == System(After(WonTwice(), Settled(TakingBack()), THIRD), map[]);
    NothingAskedParses(winning, visiting);
    HistoryConcat(ONE_TRY, true, System(Waiting(), map[]), winning, visiting);
    StaysSound(WonTwice(), visiting);
    var end := History(ONE_TRY, true, System(Waiting(), map[]), winning + visiting).db;
    TakenBackIsRetold(end);
    WaitingIsAnswered();
    FirstAndLast();
    assert FromCommands(first) && FromCommands(winning + visiting) && RetoldAfter(end);
  }

  lemma NothingAskedParses(winning: seq<Turn>, visiting: seq<Turn>)
    requires FromCommands(winning) && Asks(visiting, {})
    ensures FromCommands(winning + visiting)
  {
    hide IsParsed, PayloadHash, Spelling;
  }

  /** Whoever repeats the rollback now is told the balance it left. */
  ghost predicate RetoldAfter(end: Db) {
    && "t1" in end.transactions && end.transactions["t1"] == TAKEN_BACK
    && forall stamp: Stamp, jitter: nat ::
         Submit(ONE_TRY, end, Parse(ROLLBACK_COMMAND), stamp, jitter) == Replayed(TAKEN_BACK)
  }

  lemma TakenBackIsRetold(end: Db)
    requires Inv(end) && "t1" in end.transactions && end.transactions["t1"] == TAKEN_BACK
    ensures RetoldAfter(end)
  {
    hide Inv, Submit, Parse, PayloadHash, Spelling;
    CommandsParse();
    forall stamp: Stamp, jitter: nat
      ensures Submit(ONE_TRY, end, Parse(ROLLBACK_COMMAND), stamp, jitter) == Replayed(TAKEN_BACK)
    {
      StoredOperationAnswers(ONE_TRY, end, "t1", ROLLBACK_COMMAND, ROLLBACK_COMMAND, stamp, jitter);
    }
  }

  lemma WaitingIsAnswered()
    ensures JustAnswered(Waiting(), PARKING, ROLLBACK_COMMAND)
  {
    hide Inv, Submit, Parse, PayloadHash, Spelling, JustAnswered;
    RollbackParks();
    CommandsParse();
    assert Inv(OPENED) by {
      WalletsOpen();
      EmptyIsSound();
      StaysSound(EMPTY, OPENINGS);
    }
    SettledIsAnswered(ONE_TRY, OPENED, ROLLBACK_COMMAND, FIRST, 0);
  }

  /* ---- an event that overtakes another of its aggregate ---- */

  /** The same turns, with no publisher at work. */
  function Quietly(es: seq<Turn>): seq<Happening> {
    if es == [] then [] else [Happening.Elsewhere(es[0])] + Quietly(es[1..])
  }

  lemma QuietFollow(s: System, e: Turn)
    requires !e.PublishNow?
    ensures Follow(ONE_TRY, true, World(s, map[], {}), Happening.Elsewhere(e))
            == World(Step(ONE_TRY, true, s, e), map[], {})
  {
    hide Step;
  }

  lemma FirstHappening(w: World, h: Happening, hs: seq<Happening>)
    ensures Chronicle(ONE_TRY, true, w, [h] + hs) == Chronicle(ONE_TRY, true, Follow(ONE_TRY, true, w, h), hs)
  {
    hide Follow;
    assert ([h] + hs)[1..] == hs;
  }

  lemma {:induction false} QuietChronicle(s: System, es: seq<Turn>, hs: seq<Happening>)
    requires forall i :: 0 <= i < |es| ==> !es[i].PublishNow?
    ensures Chronicle(ONE_TRY, true, World(s, map[], {}), Quietly(es) + hs)
            == Chronicle(ONE_TRY, true, World(History(ONE_TRY, true, s, es), map[], {}), hs)
    decreases |es|
  {
    hide Step, Follow, Chronicle, PayloadHash, Spelling;
    if es == [] {
      assert Quietly(es) + hs == hs;
    } else {
      var h, rest := Happening.Elsewhere(es[0]), Quietly(es[1..]) + hs;
      assert Quietly(es) + hs == [h] + rest;
      QuietFollow(s, es[0]);
      FirstHappening(World(s, map[], {}), h, rest);
      QuietChronicle(Step(ONE_TRY, true, s, es[0]), es[1..], hs);
    }
  }

  /** The worker gives the rollback up, and both of its events wait for the publisher. */
  lemma WorkerRuns() returns (es: seq<Turn>, db: Db, a: OutboxRow, b: OutboxRow)
    ensures FromCommands(es) && History(ONE_TRY, true, System(EMPTY, map[]), es) == System(db, map[])
    ensures db.outbox == [a, b] && IsUnsent(a, 5) && IsUnsent(b, 5) && Aggregate(a.event) == Aggregate(b.event) == "t1"
  {
    hide PayloadHash, Spelling, Waiting, Inv, Visit, History, IsParsed, Aggregate, Claimable;
    var waiting := WaitsFromNothing();
    WaitingIsLastVisit();
    var eff := WorkerEvent();
    LoneVisit(ONE_TRY, Waiting(), "t1", THIRD, 0);
    db := After(Waiting(), Settled(eff), THIRD);
    var visiting :| Asks(visiting, {})
                    && History(ONE_TRY, true, System(Waiting(), map[]), visiting) == System(db, map[]);
    NothingAskedParses(waiting, visiting);
    HistoryConcat(ONE_TRY, true, System(EMPTY, map[]), waiting, visiting);
    es := waiting + visiting;
    a := WaitingEvent();
    b := Unsent(THIRD, eff.events[0], THIRD.firstEvent);
    WaitingAggregate(a);
    assert [a] + [b] == [a, b];
  }

  lemma WaitingAggregate(a: OutboxRow)
    requires Waiting().outbox == [a]
    ensures Aggregate(a.event) == "t1"
  {
    hide PayloadHash, Spelling, Submit;
    RollbackParks();
    assert Waiting().outbox[0].event == PARKING.events[0];
  }

  lemma WorkerEvent() returns (eff: Effect)
    ensures "t1" in Waiting().transactions && Claimable(Waiting(), "t1")
    ensures Visit(ONE_TRY, Waiting(), "t1", THIRD, 0) == Settled(eff) && |eff.events| == 1
    ensures Aggregate(eff.events[0]) == "t1"
  {
    hide PayloadHash, Spelling, Waiting, FindByBusinessId, SettleVisit, Resolve;
    WorkerGivesUp();
    eff := Visit(ONE_TRY, Waiting(), "t1", THIRD, 0).eff;
    WaitingShape();
    assert "w2"[1] != "w1"[1];
    assert Resolve(Waiting().transactions, PARKED) == Wait by { ParkedWaits(); }
    LastTry();
    assert eff == GivingUp(PARKED, ANNA, 5);
    RejectionEvent();
  }

  lemma RejectionEvent()
    ensures RejectWith(PARKED, true, ANNA, ReferenceNotFound, 5).Ok?
    ensures |GivingUp(PARKED, ANNA, 5).events| == 1 && Aggregate(GivingUp(PARKED, ANNA, 5).events[0]) == "t1"
  {
    hide PayloadHash, Spelling;
    RejectionAtLast(PARKED, ANNA, 5);
  }

  lemma DueTwo(a: OutboxRow, b: OutboxRow, now: Instant)
    requires IsUnsent(a, now) && IsUnsent(b, now)
    ensures DueEvents([a, b], now, {}) == [a, b]
  {
    assert [a, b][..1] == [a] && [a][..0] == [];
    assert DueEvents([a], now, {}) == [a];
  }

  /**
   * From nothing: the rollback's waiting is recorded, then its end. The broker refuses
   * the first event and takes the second, which so goes out before the first.
   */
  lemma OrderBreaks()
    ensures exists es: seq<Turn> ::
              && FromCommands(es)
              && var end := Chronicle(ONE_TRY, true, NOTHING,
                                      Quietly(es) + [Claim("p", 5, 2), Offer("p", Declined, 0), Offer("p", Taken, 0)]);
                 !InOrder(end.system.db.outbox, end.accepted)
  {
    hide PayloadHash, Spelling, History, FromCommands, Inv, InOrder, Chronicle, Aggregate, Reached;
    var es, db, a, b := WorkerRuns();
    DueTwo(a, b, 5);
    var w, hs := World(System(db, map[]), map[], {}), [Claim("p", 5, 2), Offer("p", Declined, 0), Offer("p", Taken, 0)];
    NothingPublished(es);
    QuietChronicle(System(EMPTY, map[]), es, hs);
    assert OrderOk(ONE_TRY, true, w) by { WorldFromNothing(es); }
    assert !Reached(a, {}) by { NothingReached(a); }
    RefusalReorders(ONE_TRY, true, w, 5, 0);
    assert FromCommands(es);
  }

  lemma NothingReached(a: OutboxRow)
    ensures !Reached(a, {})
  {
  }

  lemma NothingPublished(es: seq<Turn>)
    requires FromCommands(es)
    ensures forall i :: 0 <= i < |es| ==> !es[i].PublishNow?
  {
    hide IsParsed;
  }

  lemma WorldFromNothing(es: seq<Turn>)
    requires FromCommands(es)
    ensures OrderOk(ONE_TRY, true, World(History(ONE_TRY, true, System(EMPTY, map[]), es), map[], {}))
  {
    hide PayloadHash, Spelling, FromCommands, WorldOk, History, SawOutbox;
    NothingPublished(es);
    NothingIsSound(ONE_TRY, true);
    QuietChronicle(System(EMPTY, map[]), es, []);
    assert Quietly(es) + [] == Quietly(es);
    var end := World(History(ONE_TRY, true, System(EMPTY, map[]), es), map[], {});
    assert Chronicle(ONE_TRY, true, end, []) == end;
    ChronicleKeeps(ONE_TRY, true, NOTHING, Quietly(es));
  }
}
