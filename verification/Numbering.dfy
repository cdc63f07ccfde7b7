/**
 * Sequence numbers: drawn when an entry is inserted, visible when its unit of work
 * commits. Across wallets they become visible in any order; on one wallet, in theirs.
 */
module Numbering {
  import opened Base
  import opened Domain
  import opened Tables
  import opened Steps
  import opened Decisions
  import opened Serial
  import opened Openings
  import opened Commands
  import opened Runs
  import opened Interleaving
  import opened Guards
  import opened Paging

  /** The system, the last number drawn, the number each live unit of work holds, and those of the ledger. */
  datatype Numbered = Numbered(system: System, counter: nat, drawn: map<string, nat>, numbers: seq<nat>)

  /** The insert of an entry; one that fails has drawn its number all the same. */
  predicate Inserting(t: Txn) { t.phase.Writing? && t.phase.done == 2 && t.phase.eff.move.Some? }

  ghost function Turned(policy: Policy, locking: bool, c: Numbered, e: Turn): Numbered
    requires Normalised(policy)
  {
    var s, s' := c.system, Step(policy, locking, c.system, e);
    match e
    case Advance(tid) =>
      if tid !in s.live then c.(system := s')
      else if tid in s'.live then
        if !Appended(s.live[tid]) && Appended(s'.live[tid])
        then c.(system := s', counter := c.counter + 1, drawn := c.drawn[tid := c.counter + 1])
        else c.(system := s')
      else
        c.(system := s',
           counter := if Inserting(s.live[tid]) then c.counter + 1 else c.counter,
           drawn := c.drawn - {tid},
           numbers := if s'.db.ledger != s.db.ledger && tid in c.drawn then c.numbers + [c.drawn[tid]] else c.numbers)
    case Crash(tid) => c.(system := s', drawn := c.drawn - {tid})
    case OpenNow(_, _, _, _) =>
      if s'.db.ledger == s.db.ledger then c.(system := s')
      else c.(system := s', counter := c.counter + 1, numbers := c.numbers + [c.counter + 1])
    case _ => c.(system := s')
  }

  ghost function Turns(policy: Policy, locking: bool, c: Numbered, es: seq<Turn>): Numbered
    requires Normalised(policy)
    decreases |es|
  {
    if es == [] then c else Turns(policy, locking, Turned(policy, locking, c, es[0]), es[1..])
  }

  /* ---- the invariant ---- */

  predicate Bounded(c: Numbered) {
    && |c.numbers| == |c.system.db.ledger|
    && (forall i :: 0 <= i < |c.numbers| ==> 1 <= c.numbers[i] <= c.counter)
    && (forall tid :: tid in c.drawn ==> 1 <= c.drawn[tid] <= c.counter)
  }

  /** The units of work that hold a number are those whose entry is inserted. */
  ghost predicate Holders(c: Numbered) {
    forall tid :: tid in c.drawn <==> tid in c.system.live && Appended(c.system.live[tid])
  }

  /** No number is used twice. */
  predicate NumbersDiffer(c: Numbered) {
    && (forall i, j :: 0 <= i < j < |c.numbers| ==> c.numbers[i] != c.numbers[j])
    && (forall tid, i :: tid in c.drawn && 0 <= i < |c.numbers| ==> c.drawn[tid] != c.numbers[i])
    && (forall a, b :: a in c.drawn && b in c.drawn && a != b ==> c.drawn[a] != c.drawn[b])
  }

  predicate Before(ledger: seq<Entry>, numbers: seq<nat>, i: nat, j: nat)
    requires i < |ledger| && j < |ledger| && |numbers| == |ledger|
  {
    ledger[i].walletId == ledger[j].walletId ==> numbers[i] < numbers[j]
  }

  /** One wallet's visible entries carry ascending numbers. */
  predicate EntriesAscend(c: Numbered)
    requires |c.numbers| == |c.system.db.ledger|
  {
    forall i: nat, j: nat :: i < j < |c.numbers| ==> Before(c.system.db.ledger, c.numbers, i, j)
  }

  /** A number held back is past every visible one of its wallet. */
  ghost predicate HeldAreLast(c: Numbered)
    requires |c.numbers| == |c.system.db.ledger| && Holders(c)
  {
    forall tid, i :: tid in c.drawn && 0 <= i < |c.numbers| ==>
      (c.system.db.ledger[i].walletId == c.system.live[tid].phase.row.walletId ==> c.numbers[i] < c.drawn[tid])
  }

  ghost predicate NumberedOk(policy: Policy, locking: bool, c: Numbered)
    requires Normalised(policy)
  {
    && SystemOk(policy, locking, c.system)
    && Bounded(c) && Holders(c) && NumbersDiffer(c) && EntriesAscend(c) && HeldAreLast(c)
  }

  /* ---- turns that leave the ledger alone ---- */

  /** A turn that only moves one unit of work that holds no number before or after. */
  lemma SameNumbers(c: Numbered, c': Numbered)
    requires Bounded(c) && Holders(c) && NumbersDiffer(c) && EntriesAscend(c) && HeldAreLast(c)
    requires c'.system.db.ledger == c.system.db.ledger && c'.numbers == c.numbers && c.counter <= c'.counter
    requires c'.drawn.Keys <= c.drawn.Keys && Holders(c')
    requires forall tid :: tid in c'.drawn ==>
               c'.drawn[tid] == c.drawn[tid] && c'.system.live[tid].phase.row == c.system.live[tid].phase.row
    ensures Bounded(c') && NumbersDiffer(c') && EntriesAscend(c') && HeldAreLast(c')
  {
    forall i: nat, j: nat | i < j < |c'.numbers|
      ensures Before(c'.system.db.ledger, c'.numbers, i, j)
    {
      assert Before(c.system.db.ledger, c.numbers, i, j);
    }
  }

  /** The wallets' visible numbers do not depend on what is drawn. */
  lemma StillAscend(c: Numbered, c': Numbered)
    requires |c.numbers| == |c.system.db.ledger| && EntriesAscend(c)
    requires c'.system.db.ledger == c.system.db.ledger && c'.numbers == c.numbers
    ensures EntriesAscend(c')
  {
    hide Before;
  }

  lemma DrawnDiffer(c: Numbered, c': Numbered, tid: string)
    requires Bounded(c) && NumbersDiffer(c) && c'.numbers == c.numbers
    requires c'.drawn == c.drawn[tid := c.counter + 1] && tid !in c.drawn
    ensures NumbersDiffer(c')
  {
  }

  /** A number is drawn: it is past every other. */
  lemma NumberDrawn(c: Numbered, c': Numbered, tid: string)
    requires Bounded(c) && Holders(c) && NumbersDiffer(c) && EntriesAscend(c) && HeldAreLast(c)
    requires c'.system.db.ledger == c.system.db.ledger && c'.numbers == c.numbers && c'.counter == c.counter + 1
    requires c'.drawn == c.drawn[tid := c.counter + 1] && tid !in c.drawn && Holders(c')
    requires forall o :: o in c.drawn ==> o in c'.system.live && c'.system.live[o] == c.system.live[o]
    ensures Bounded(c') && NumbersDiffer(c') && EntriesAscend(c') && HeldAreLast(c')
  {
    hide EntriesAscend, NumbersDiffer, Appended;
    StillAscend(c, c');
    DrawnDiffer(c, c', tid);
  }

  lemma ShownAscend(c: Numbered, c': Numbered, e: Entry, n: nat)
    requires |c.numbers| == |c.system.db.ledger| && EntriesAscend(c)
    requires c'.system.db.ledger == c.system.db.ledger + [e] && c'.numbers == c.numbers + [n]
    requires forall i :: 0 <= i < |c.numbers| && c.system.db.ledger[i].walletId == e.walletId ==> c.numbers[i] < n
    ensures EntriesAscend(c')
  {
    forall i: nat, j: nat | i < j < |c'.numbers|
      ensures Before(c'.system.db.ledger, c'.numbers, i, j)
    {
      if j < |c.numbers| { assert Before(c.system.db.ledger, c.numbers, i, j); }
    }
  }

  lemma ShownDiffer(c: Numbered, c': Numbered, n: nat)
    requires NumbersDiffer(c) && c'.numbers == c.numbers + [n] && c'.drawn.Keys <= c.drawn.Keys
    requires forall i :: 0 <= i < |c.numbers| ==> c.numbers[i] != n
    requires forall tid :: tid in c'.drawn ==> c'.drawn[tid] == c.drawn[tid] != n
    ensures NumbersDiffer(c')
  {
  }

  /** An entry becomes visible under a number past its wallet's others; nobody else holds one for that wallet. */
  lemma NumberShown(c: Numbered, c': Numbered, e: Entry, n: nat)
    requires Bounded(c) && Holders(c) && NumbersDiffer(c) && EntriesAscend(c) && HeldAreLast(c)
    requires c'.system.db.ledger == c.system.db.ledger + [e] && c'.numbers == c.numbers + [n]
    requires c.counter <= c'.counter && 1 <= n <= c'.counter
    requires forall i :: 0 <= i < |c.numbers| ==> c.numbers[i] != n
    requires forall i :: 0 <= i < |c.numbers| && c.system.db.ledger[i].walletId == e.walletId ==> c.numbers[i] < n
    requires c'.drawn.Keys <= c.drawn.Keys && Holders(c')
    requires forall tid :: tid in c'.drawn ==>
               && c'.drawn[tid] == c.drawn[tid] != n && c'.system.live[tid] == c.system.live[tid]
               && c.system.live[tid].phase.row.walletId != e.walletId
    ensures Bounded(c') && NumbersDiffer(c') && EntriesAscend(c') && HeldAreLast(c')
  {
    hide NumbersDiffer, EntriesAscend, Appended;
    ShownAscend(c, c', e, n);
    ShownDiffer(c, c', n);
  }

  /* ---- every turn ---- */

  lemma OneStatement(policy: Policy, db: Db, t: Txn)
    requires Normalised(policy) && Statement(policy, db, t).Go?
    ensures var next := Statement(policy, db, t).next;
            && (Appended(t) ==> Appended(next) && next.phase.row == t.phase.row)
  {
    hide FindByBusinessId, NewExternal, SettleSubmit, SettleVisit, Judge, Unreversed, FreshIdentity, FreshEntry,
      FreshEvents;
  }

  /** What one more statement that goes on does to the numbering: a number is drawn, or nothing changes. */
  lemma GoesOn(policy: Policy, locking: bool, c: Numbered, tid: string)
    requires Normalised(policy) && tid in c.system.live
    requires Statement(policy, c.system.db, c.system.live[tid]).Go?
    ensures var c', s, t := Turned(policy, locking, c, Advance(tid)), c.system, c.system.live[tid];
            && c'.system.db == s.db && c'.numbers == c.numbers && c'.system.live.Keys == s.live.Keys
            && (forall o :: o in s.live && o != tid ==> c'.system.live[o] == s.live[o])
            && (c'.system.live[tid] == t || c'.system.live[tid] == Statement(policy, s.db, t).next)
            && if !Appended(t) && Appended(c'.system.live[tid])
               then c'.counter == c.counter + 1 && c'.drawn == c.drawn[tid := c.counter + 1]
               else c'.counter == c.counter && c'.drawn == c.drawn
  {
    hide Statement, Compatible, Appended, Inserting, Outcome;
  }

  /** A unit of work that keeps running changes nobody else and no table. */
  lemma RunsOn(policy: Policy, locking: bool, c: Numbered, tid: string)
    requires Normalised(policy) && NumberedOk(policy, locking, c) && tid in c.system.live
    requires Statement(policy, c.system.db, c.system.live[tid]).Go?
    ensures var c' := Turned(policy, locking, c, Advance(tid));
            Bounded(c') && Holders(c') && NumbersDiffer(c') && EntriesAscend(c') && HeldAreLast(c')
  {
    hide SystemOk, Statement, Bounded, NumbersDiffer, EntriesAscend, HeldAreLast, Turned, Appended;
    OneStatement(policy, c.system.db, c.system.live[tid]);
    GoesOn(policy, locking, c, tid);
    LengthsAgree(c);
    var c' := Turned(policy, locking, c, Advance(tid));
    if !Appended(c.system.live[tid]) && Appended(c'.system.live[tid]) {
      NumberDrawn(c, c', tid);
    } else {
      SameNumbers(c, c');
    }
  }

  lemma LengthsAgree(c: Numbered)
    requires Bounded(c)
    ensures |c.numbers| == |c.system.db.ledger|
  {
  }

  lemma EndsWithout(policy: Policy, locking: bool, c: Numbered, c': Numbered, tid: string)
    requires Normalised(policy) && NumberedOk(policy, locking, c)
    requires c'.system == c.system.(live := c.system.live - {tid}) && c'.drawn == c.drawn - {tid}
    requires c'.numbers == c.numbers && c.counter <= c'.counter
    ensures Bounded(c') && Holders(c') && NumbersDiffer(c') && EntriesAscend(c') && HeldAreLast(c')
  {
    hide SystemOk, Bounded, NumbersDiffer, EntriesAscend, HeldAreLast;
    LengthsAgree(c);
    SameNumbers(c, c');
  }

  /** What a commit adds to the ledger, and who else can be holding a number then. */
  lemma CommitShows(policy: Policy, locking: bool, s: System, tid: string)
    requires Normalised(policy) && SystemOk(policy, locking, s) && tid in s.live
    requires Statement(policy, s.db, s.live[tid]).CommitNow?
    ensures var t, s' := s.live[tid], Step(policy, locking, s, Advance(tid));
            && tid !in s'.live && s'.live == s.live - {tid}
            && (if Appended(t) then
                  && s'.db.ledger == s.db.ledger + [t.phase.eff.move.value.entry]
                  && t.phase.eff.move.value.entry.walletId == t.phase.row.walletId
                  && forall o :: o in s.live && o != tid && Appended(s.live[o]) ==>
                       s.live[o].phase.row.walletId != t.phase.row.walletId
                else s'.db.ledger == s.db.ledger)
  {
    hide Inv, LiveOk, Statement, Extends, Recorded;
    var t := s.live[tid];
    CommitKeeps(policy, locking, s, tid);
    OnlyTheFinishedCommit(policy, s.db, t);
    if t.phase.Writing? {
      EntryIsOnItsWallet(policy, s.db, t);
      forall o | o in s.live && o != tid && Appended(s.live[o]) && Appended(t)
        ensures s.live[o].phase.row.walletId != t.phase.row.walletId
      {
        assert Compatible(locking, t, s.live[o]);
      }
    }
  }

  lemma EntryIsOnItsWallet(policy: Policy, db: Db, t: Txn)
    requires Normalised(policy) && Inv(db) && LiveOk(policy, db, t) && t.phase.Writing? && t.phase.done >= 4
    ensures t.phase.eff.move.Some? ==> t.phase.eff.move.value.entry.walletId == t.phase.row.walletId
  {
    hide LogComplete, BooksBalance, LedgerExplained, ReversalsResolve, Unique, Fresh, Current;
    ReadyToCommitIsSound(policy, db, t);
    DecisionFollows(policy, t, t.phase.row, t.phase.from, t.phase.v);
    SoundFacts(db, t.phase.eff);
  }

  lemma Commits(policy: Policy, locking: bool, c: Numbered, tid: string)
    requires Normalised(policy) && NumberedOk(policy, locking, c) && tid in c.system.live
    requires Statement(policy, c.system.db, c.system.live[tid]).CommitNow?
    ensures var c' := Turned(policy, locking, c, Advance(tid));
            Bounded(c') && Holders(c') && NumbersDiffer(c') && EntriesAscend(c') && HeldAreLast(c')
  {
    hide SystemOk, Statement, Compatible, EntriesAscend, Inserting, Step;
    var t, c' := c.system.live[tid], Turned(policy, locking, c, Advance(tid));
    CommitShows(policy, locking, c.system, tid);
    if Appended(t) {
      NumberShown(c, c', t.phase.eff.move.value.entry, c.drawn[tid]);
    } else {
      SameNumbers(c, c');
    }
  }

  /** An opening draws and shows its number at once; its wallet had none. */
  lemma Opens(policy: Policy, locking: bool, c: Numbered, e: Turn)
    requires Normalised(policy) && NumberedOk(policy, locking, c) && e.OpenNow?
    ensures var c' := Turned(policy, locking, c, e);
            Bounded(c') && Holders(c') && NumbersDiffer(c') && EntriesAscend(c') && HeldAreLast(c')
  {
    hide SystemOk, Step, EntriesAscend;
    var c' := Turned(policy, locking, c, e);
    OpeningShows(policy, locking, c.system, e);
    if c'.system.db.ledger == c.system.db.ledger {
      SameNumbers(c, c');
    } else {
      var entry :| c'.system.db.ledger == c.system.db.ledger + [entry]
                   && (forall i :: 0 <= i < |c.system.db.ledger| ==> c.system.db.ledger[i].walletId != entry.walletId)
                   && forall t :: t in c.system.live && Appended(c.system.live[t]) ==>
                        c.system.live[t].phase.row.walletId != entry.walletId;
      NumberShown(c, c', entry, c.counter + 1);
    }
  }

  lemma OpeningShows(policy: Policy, locking: bool, s: System, e: Turn)
    requires Normalised(policy) && SystemOk(policy, locking, s) && e.OpenNow?
    ensures var s' := Step(policy, locking, s, e);
            && s'.live == s.live
            && (s'.db.ledger == s.db.ledger
                || exists entry: Entry ::
                     && s'.db.ledger == s.db.ledger + [entry]
                     && (forall i :: 0 <= i < |s.db.ledger| ==> s.db.ledger[i].walletId != entry.walletId)
                     && forall t :: t in s.live && Appended(s.live[t]) ==>
                          s.live[t].phase.row.walletId != entry.walletId)
  {
    hide Inv, Open, Compatible, EventsOf, Recorded, FreshEntry, FreshEvent;
    var o, s' := Open(e.playerId, e.initial, e.walletId, e.stamp), Step(policy, locking, s, e);
    OpenShape(e.playerId, e.initial, e.walletId, e.stamp);
    if s'.db.ledger != s.db.ledger {
      var entry := o.value.credit.value.1;
      NewWalletIsUnused(s.db, o.value.wallet.id);
      forall t | t in s.live && Appended(s.live[t])
        ensures s.live[t].phase.row.walletId != entry.walletId
      {
        assert WalletRead(s.db, s.live[t].phase.row, s.live[t].phase.from) by {
          assert LiveOk(policy, s.db, s.live[t]);
        }
      }
    }
  }

  lemma NewWalletIsUnused(db: Db, wallet: string)
    requires Inv(db) && wallet !in db.wallets
    ensures forall i :: 0 <= i < |db.ledger| ==> db.ledger[i].walletId != wallet
  {
    hide LogComplete, BooksBalance, ReversalsResolve, Unique, SchemaAccepts, StatusFits;
    forall i | 0 <= i < |db.ledger|
      ensures db.ledger[i].walletId != wallet
    {
      assert Explains(db.transactions, db.ledger[i]);
      assert RowFits(db.transactions[db.ledger[i].transactionId], db.wallets);
    }
  }

  predicate Quietly(e: Turn) { e.BeginSubmit? || e.BeginDelivery? || e.BeginVisit? || e.PublishNow? || e.AbsorbNow? }

  /** A turn that neither inserts, ends nor commits anything: at most someone begins. */
  lemma SomeoneBegins(policy: Policy, locking: bool, s: System, e: Turn)
    requires Normalised(policy) && Quietly(e)
    ensures var s' := Step(policy, locking, s, e);
            && s'.db.ledger == s.db.ledger && s.live.Keys <= s'.live.Keys
            && (forall tid :: tid in s.live ==> s'.live[tid] == s.live[tid])
            && (forall tid :: tid in s'.live && tid !in s.live ==> !Appended(s'.live[tid]))
  {
    hide Compatible, Due, Republished, Parse, PayloadHash, Statement, Outcome, Open, OpeningAdmitted, CommitOpening,
      OpeningClear;
  }

  lemma Quiet(policy: Policy, locking: bool, c: Numbered, e: Turn)
    requires Normalised(policy) && NumberedOk(policy, locking, c) && Quietly(e)
    ensures var c' := Turned(policy, locking, c, e);
            Bounded(c') && Holders(c') && NumbersDiffer(c') && EntriesAscend(c') && HeldAreLast(c')
  {
    hide SystemOk, Bounded, NumbersDiffer, EntriesAscend, HeldAreLast, Step, Appended;
    LengthsAgree(c);
    SomeoneBegins(policy, locking, c.system, e);
    SameNumbers(c, Turned(policy, locking, c, e));
  }

  lemma Advanced(policy: Policy, locking: bool, c: Numbered, tid: string)
    requires Normalised(policy) && NumberedOk(policy, locking, c)
    ensures var c' := Turned(policy, locking, c, Advance(tid));
            Bounded(c') && Holders(c') && NumbersDiffer(c') && EntriesAscend(c') && HeldAreLast(c')
  {
    if tid in c.system.live {
      hide SystemOk, Statement, Bounded, NumbersDiffer, EntriesAscend, HeldAreLast, Compatible, Holders, Inserting,
        Appended, Outcome;
      match Statement(policy, c.system.db, c.system.live[tid])
      case End => EndsWithout(policy, locking, c, Turned(policy, locking, c, Advance(tid)), tid);
      case Go(_) => RunsOn(policy, locking, c, tid);
      case CommitNow => Commits(policy, locking, c, tid);
    }
  }

  lemma NumbersKeep(policy: Policy, locking: bool, c: Numbered, e: Turn)
    requires Normalised(policy) && NumberedOk(policy, locking, c)
    ensures var c' := Turned(policy, locking, c, e);
            Bounded(c') && Holders(c') && NumbersDiffer(c') && EntriesAscend(c') && HeldAreLast(c')
  {
    hide SystemOk, Bounded, NumbersDiffer, EntriesAscend, HeldAreLast, Holders;
    match e
    case Advance(tid) => Advanced(policy, locking, c, tid);
    case Crash(tid) => EndsWithout(policy, locking, c, Turned(policy, locking, c, e), tid);
    case OpenNow(_, _, _, _) => Opens(policy, locking, c, e);
    case BeginSubmit(_, _, _, _) => Quiet(policy, locking, c, e);
    case BeginDelivery(_, _, _, _, _) => Quiet(policy, locking, c, e);
    case BeginVisit(_, _, _, _) => Quiet(policy, locking, c, e);
    case PublishNow(_) => Quiet(policy, locking, c, e);
    case AbsorbNow(_, _, _) => Quiet(policy, locking, c, e);
  }

  lemma TurnedIsStep(policy: Policy, locking: bool, c: Numbered, e: Turn)
    requires Normalised(policy)
    ensures Turned(policy, locking, c, e).system == Step(policy, locking, c.system, e)
    ensures c.numbers <= Turned(policy, locking, c, e).numbers
  {
    hide Step, Appended, Inserting;
  }

  /** Every turn keeps the numbering, and only adds to what is visible. */
  lemma TurnedKeeps(policy: Policy, locking: bool, c: Numbered, e: Turn)
    requires Normalised(policy) && NumberedOk(policy, locking, c)
    ensures NumberedOk(policy, locking, Turned(policy, locking, c, e))
    ensures c.numbers <= Turned(policy, locking, c, e).numbers
    ensures c.system.db.ledger <= Turned(policy, locking, c, e).system.db.ledger
  {
    hide SystemOk, Bounded, NumbersDiffer, EntriesAscend, HeldAreLast, Holders, Turned, Step;
    TurnedIsStep(policy, locking, c, e);
    StepKeeps(policy, locking, c.system, e);
    NumbersKeep(policy, locking, c, e);
    LedgerOnlyGrows(c.system.db, Step(policy, locking, c.system, e).db);
  }

  lemma LedgerOnlyGrows(a: Db, b: Db)
    requires Extends(a, b)
    ensures a.ledger <= b.ledger
  {
  }

  lemma {:induction false} TurnsKeep(policy: Policy, locking: bool, c: Numbered, es: seq<Turn>)
    requires Normalised(policy) && NumberedOk(policy, locking, c)
    ensures NumberedOk(policy, locking, Turns(policy, locking, c, es))
    ensures c.numbers <= Turns(policy, locking, c, es).numbers
    ensures c.system.db.ledger <= Turns(policy, locking, c, es).system.db.ledger
    decreases |es|
  {
    hide NumberedOk, Turned;
    if es != [] {
      TurnedKeeps(policy, locking, c, es[0]);
      TurnsKeep(policy, locking, Turned(policy, locking, c, es[0]), es[1..]);
    }
  }

  /* ---- what is visible ---- */

  /** The visible ledger, each entry under its number, in the order they became visible. */
  function Visible(ledger: seq<Entry>, numbers: seq<nat>): (rows: seq<Row>)
    requires |numbers| == |ledger|
    ensures |rows| == |ledger| && forall i :: 0 <= i < |rows| ==> rows[i] == Row(numbers[i], ledger[i])
  {
    seq(|ledger|, i requires 0 <= i < |ledger| => Row(numbers[i], ledger[i]))
  }

  function Table(c: Numbered): seq<Row>
    requires Bounded(c)
  {
    Visible(c.system.db.ledger, c.numbers)
  }

  /** One wallet's rows are rows of the table, in its order. */
  lemma {:induction false} RowsOfAscend(table: seq<Row>, wallet: string)
    requires forall i, j :: 0 <= i < j < |table| && table[i].entry.walletId == table[j].entry.walletId ==>
               table[i].number < table[j].number
    ensures WalletAscends(table, wallet)
    ensures forall i | 0 <= i < |RowsOf(table, wallet)| ::
              RowsOf(table, wallet)[i] in table && RowsOf(table, wallet)[i].entry.walletId == wallet
  {
    if table != [] {
      var front, last := table[..|table| - 1], table[|table| - 1];
      RowsOfAscend(front, wallet);
      var rows := RowsOf(front, wallet);
      forall i | 0 <= i < |rows| && last.entry.walletId == wallet
        ensures rows[i].number < last.number
      {
        var k :| 0 <= k < |front| && front[k] == rows[i];
        assert table[k] == front[k];
      }
    }
  }

  lemma TableAscends(policy: Policy, locking: bool, c: Numbered, wallet: string)
    requires Normalised(policy) && NumberedOk(policy, locking, c)
    ensures WalletAscends(Table(c), wallet)
  {
    hide SystemOk, Holders, NumbersDiffer;
    var table := Table(c);
    forall i: nat, j: nat | i < j < |table| && table[i].entry.walletId == table[j].entry.walletId
      ensures table[i].number < table[j].number
    {
      assert Before(c.system.db.ledger, c.numbers, i, j);
    }
    RowsOfAscend(table, wallet);
  }

  lemma {:induction false} RowsOfGrow(table: seq<Row>, longer: seq<Row>, wallet: string)
    requires table <= longer
    ensures RowsOf(table, wallet) <= RowsOf(longer, wallet)
    decreases |longer|
  {
    if |table| == |longer| {
      assert table == longer;
    } else {
      RowsOfGrow(table, longer[..|longer| - 1], wallet);
    }
  }

  /** From the start, the rows served are the wallet's ledger. */
  lemma {:induction false} RowsAreTheLedger(ledger: seq<Entry>, numbers: seq<nat>, wallet: string)
    requires |numbers| == |ledger| && forall i :: 0 <= i < |numbers| ==> 1 <= numbers[i]
    ensures EntriesIn(Matching(Visible(ledger, numbers), wallet, 0)) == EntriesOf(ledger, wallet)
  {
    if ledger != [] {
      var n := |ledger| - 1;
      RowsAreTheLedger(ledger[..n], numbers[..n], wallet);
      assert Visible(ledger, numbers)[..n] == Visible(ledger[..n], numbers[..n]);
    }
  }

  /* ---- pages along an interleaving ---- */

  /** A page asked for now, one after each stretch of turns. */
  ghost function AsksAlong(policy: Policy, locking: bool, c: Numbered, stretches: seq<seq<Turn>>, limits: seq<nat>)
    : seq<Ask>
    requires Normalised(policy) && NumberedOk(policy, locking, c) && |limits| == |stretches| + 1
    decreases |stretches|
  {
    if stretches == [] then [Ask(Table(c), limits[0])]
    else
      TurnsKeep(policy, locking, c, stretches[0]);
      [Ask(Table(c), limits[0])]
      + AsksAlong(policy, locking, Turns(policy, locking, c, stretches[0]), stretches[1..], limits[1..])
  }

  ghost function LastAlong(policy: Policy, locking: bool, c: Numbered, stretches: seq<seq<Turn>>): (end: Numbered)
    requires Normalised(policy) && NumberedOk(policy, locking, c)
    ensures NumberedOk(policy, locking, end)
    decreases |stretches|
  {
    if stretches == [] then c
    else
      TurnsKeep(policy, locking, c, stretches[0]);
      LastAlong(policy, locking, Turns(policy, locking, c, stretches[0]), stretches[1..])
  }

  /** Whatever happens between the pages, each wallet's visible rows ascend and only grow. */
  lemma {:induction false} AsksGrow(policy: Policy, locking: bool, c: Numbered, stretches: seq<seq<Turn>>,
                                    limits: seq<nat>, wallet: string)
    requires Normalised(policy) && NumberedOk(policy, locking, c) && |limits| == |stretches| + 1
    requires forall i :: 0 <= i < |limits| ==> 0 < limits[i]
    ensures var asks := AsksAlong(policy, locking, c, stretches, limits);
            && Growing(wallet, asks) && |asks| == |limits| && asks[0].table == Table(c)
            && asks[|asks| - 1].table == Table(LastAlong(policy, locking, c, stretches))
    decreases |stretches|
  {
    hide NumberedOk, Turns, RowsOf, Ascending;
    TableAscends(policy, locking, c, wallet);
    assert Bounded(c) by { TablesFit(policy, locking, c); }
    if stretches != [] {
      var next := Turns(policy, locking, c, stretches[0]);
      TurnsKeep(policy, locking, c, stretches[0]);
      AsksGrow(policy, locking, next, stretches[1..], limits[1..], wallet);
      assert Bounded(next) by { TablesFit(policy, locking, next); }
      TablesGrow(c, next);
      RowsOfGrow(Table(c), Table(next), wallet);
      OneMoreAsk(wallet, Ask(Table(c), limits[0]), AsksAlong(policy, locking, next, stretches[1..], limits[1..]));
    }
  }

  lemma TablesFit(policy: Policy, locking: bool, c: Numbered)
    requires Normalised(policy) && NumberedOk(policy, locking, c)
    ensures Bounded(c)
  {
  }

  lemma TablesGrow(c: Numbered, c': Numbered)
    requires Bounded(c) && Bounded(c') && c.numbers <= c'.numbers && c.system.db.ledger <= c'.system.db.ledger
    ensures Table(c) <= Table(c')
  {
  }

  lemma OneMoreAsk(wallet: string, first: Ask, rest: seq<Ask>)
    requires Growing(wallet, rest) && rest != [] && 0 < first.limit && WalletAscends(first.table, wallet)
    requires RowsOf(first.table, wallet) <= RowsOf(rest[0].table, wallet)
    ensures Growing(wallet, [first] + rest)
  {
    hide RowsOf, WalletAscends;
    var asks := [first] + rest;
    forall i | 0 <= i < |asks| - 1
      ensures RowsOf(asks[i].table, wallet) <= RowsOf(asks[i + 1].table, wallet)
    {
      if 0 < i { assert RowsOf(rest[i - 1].table, wallet) <= RowsOf(rest[i].table, wallet); }
    }
  }

  /**
   * Pages read at any moments of any interleaving, with any sizes, skip and repeat no
   * entry of the wallet: together they are the first of its entries past the cursor.
   */
  lemma PagesNeverSkipOrRepeat(policy: Policy, locking: bool, c: Numbered, stretches: seq<seq<Turn>>, limits: seq<nat>,
                               wallet: string, after: nat)
    requires Normalised(policy) && NumberedOk(policy, locking, c) && |limits| == |stretches| + 1
    requires forall i :: 0 <= i < |limits| ==> 0 < limits[i]
    ensures Served(wallet, after, AsksAlong(policy, locking, c, stretches, limits))
            <= EntriesIn(RowsAfter(Table(LastAlong(policy, locking, c, stretches)), wallet, after))
  {
    hide NumberedOk, AsksAlong, RowsAfter, Served;
    AsksGrow(policy, locking, c, stretches, limits, wallet);
    CursorsNeverSkipOrRepeat(wallet, after, AsksAlong(policy, locking, c, stretches, limits));
  }

  /** From the empty table and an idle system. */
  lemma NothingNumbered(policy: Policy, locking: bool)
    requires Normalised(policy)
    ensures NumberedOk(policy, locking, Numbered(System(EMPTY, map[]), 0, map[], []))
  {
    hide Inv;
    EmptyIsSound();
    IdleSystemIsSound(policy, locking, EMPTY);
  }

  /* ---- every entry is readable ---- */

  /** On any sound state every entry passes the checks made on reading it, so no page fails. */
  lemma StoredEntriesAreReadable(policy: Policy, locking: bool, c: Numbered, wallet: string, after: nat)
    requires Normalised(policy) && NumberedOk(policy, locking, c) && wallet in c.system.db.wallets
    ensures AllReadable(RowsAfter(Table(c), wallet, after))
  {
    hide NumberedOk, RowsAfter, NewEntry, RowsOf;
    assert Bounded(c) by { TablesFit(policy, locking, c); }
    TableAscends(policy, locking, c, wallet);
    QueryIsPast(Table(c), wallet, after);
    PastAreRows(Table(c), wallet, after);
    var rows := RowsAfter(Table(c), wallet, after);
    assert Inv(c.system.db) by { NumberedIsSound(policy, locking, c); }
    forall i | 0 <= i < |rows|
      ensures NewEntry(rows[i].entry) == Ok(rows[i].entry)
    {
      var k :| 0 <= k < |Table(c)| && Table(c)[k] == rows[i];
      EntryIsReadable(c.system.db, wallet, k);
    }
  }

  lemma NumberedIsSound(policy: Policy, locking: bool, c: Numbered)
    requires Normalised(policy) && NumberedOk(policy, locking, c)
    ensures Inv(c.system.db)
  {
  }

  lemma {:induction false} PastAreRows(table: seq<Row>, wallet: string, after: nat)
    ensures forall i | 0 <= i < |Past(RowsOf(table, wallet), after)| ::
              && Past(RowsOf(table, wallet), after)[i] in table
              && Past(RowsOf(table, wallet), after)[i].entry.walletId == wallet
  {
    if table != [] {
      var front, last := table[..|table| - 1], table[|table| - 1];
      PastAreRows(front, wallet, after);
      if last.entry.walletId == wallet {
        assert (RowsOf(front, wallet) + [last])[..|RowsOf(front, wallet)|] == RowsOf(front, wallet);
      }
    }
  }

  lemma EntryIsReadable(db: Db, wallet: string, k: nat)
    requires Inv(db) && wallet in db.wallets && k < |db.ledger| && db.ledger[k].walletId == wallet
    ensures NewEntry(db.ledger[k]) == Ok(db.ledger[k])
  {
    hide LogComplete, Unique, ReversalsResolve, RowFits, AllRecorded, DistinctEntries;
    var e, es := db.ledger[k], EntriesOf(db.ledger, wallet);
    LedgerEntriesAreListed(db.ledger, k);
    assert BooksBalance(db, db.wallets[wallet]) && db.wallets[wallet].id == wallet;
    var i: nat :| i < |es| && es[i] == e;
    assert Linked(es, i, db.wallets[wallet].balance.currency);
    assert Explains(db.transactions, e);
    NoRowIsNameless(db);
  }

  lemma NoRowIsNameless(db: Db)
    requires Inv(db)
    ensures "" !in db.transactions && "" !in db.wallets
  {
    hide LogComplete, BooksBalance, Unique, ReversalsResolve, LedgerExplained, SchemaAccepts;
    forall id | id in db.transactions ensures id != "" { assert RowFits(db.transactions[id], db.wallets); }
  }
}
