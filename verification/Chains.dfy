/** Chains of reversals: short, acyclic, unbranched, and each nets to its root or to nothing. */
module Chains {
  import opened Base
  import opened Domain
  import opened Tables
  import opened Steps
  import opened Books

  /** What the invariant says about the links between processed operations. */
  ghost predicate Forest(rows: Rows) {
    && ReversalsResolve(rows) && "" !in rows
    && (forall id :: id in rows && rows[id].status.Processed? ==>
                       (rows[id].kind.IsReversal() <==> rows[id].resolvedReferenceId != ""))
    && (forall a, b :: a in rows && b in rows && a != b ==> !SameReference(rows[a], rows[b]))
  }

  lemma LinksFormAForest(db: Db)
    requires Inv(db)
    ensures Forest(db.transactions)
  {
    hide LogComplete, BooksBalance, LedgerExplained, SchemaAccepts;
    forall id | id in db.transactions && db.transactions[id].status.Processed?
      ensures db.transactions[id].kind.IsReversal() <==> db.transactions[id].resolvedReferenceId != ""
    {
      assert RowFits(db.transactions[id], db.wallets);
    }
    forall a, b | a in db.transactions && b in db.transactions && a != b
      ensures !SameReference(db.transactions[a], db.transactions[b])
    {
      assert !Clash(db.transactions[a], db.transactions[b]);
    }
  }

  /** Every reversal outranks what it may undo, so links cannot come back round. */
  function Rank(k: Kind): nat {
    match k
    case Refund => 1
    case Rollback => 2
    case _ => 0
  }

  predicate IsLinked(rows: Rows, id: string) {
    id in rows && rows[id].status.Processed? && rows[id].kind.IsReversal()
  }

  /** The operations from an operation back to the one that reverses nothing. */
  ghost function Chain(rows: Rows, id: string): (c: seq<string>)
    requires Forest(rows) && id in rows
    ensures |c| <= Rank(rows[id].kind) + 1 && |c| >= 1 && c[0] == id
    decreases Rank(rows[id].kind)
  {
    if !IsLinked(rows, id) then [id]
    else
      assert Undoes(rows[id], rows[rows[id].resolvedReferenceId]);
      [id] + Chain(rows, rows[id].resolvedReferenceId)
  }

  ghost function RootOf(rows: Rows, id: string): (root: string)
    requires Forest(rows) && id in rows
    ensures root in rows && !IsLinked(rows, root)
    ensures rows[root].walletId == rows[id].walletId && rows[root].money == rows[id].money
    ensures root != id ==> rows[root].status.Processed? && rows[root].kind.MovesMoney()
    decreases Rank(rows[id].kind)
  {
    if !IsLinked(rows, id) then id
    else
      assert Undoes(rows[id], rows[rows[id].resolvedReferenceId]);
      RootOf(rows, rows[id].resolvedReferenceId)
  }

  /** Chains hold at most three operations, never the same one twice, all on one wallet for one amount. */
  lemma {:induction false} ChainsAreShort(rows: Rows, id: string)
    requires Forest(rows) && id in rows
    ensures var c := Chain(rows, id);
            && |c| <= 3 && c[|c| - 1] == RootOf(rows, id)
            && (forall i :: 0 <= i < |c| ==>
                  c[i] in rows && rows[c[i]].walletId == rows[id].walletId && rows[c[i]].money == rows[id].money)
            && (forall i, j :: 0 <= i < j < |c| ==> Rank(rows[c[i]].kind) > Rank(rows[c[j]].kind) && c[i] != c[j])
    decreases Rank(rows[id].kind)
  {
    hide ReversalsResolve, SameReference;
    if IsLinked(rows, id) {
      assert Undoes(rows[id], rows[rows[id].resolvedReferenceId]) by { LinkUndoes(rows, id); }
      ChainsAreShort(rows, rows[id].resolvedReferenceId);
    }
  }

  lemma LinkUndoes(rows: Rows, id: string)
    requires Forest(rows) && IsLinked(rows, id)
    ensures rows[id].resolvedReferenceId in rows && Undoes(rows[id], rows[rows[id].resolvedReferenceId])
  {
  }

  /** No operation has two successful reversals, of any kind. */
  lemma AtMostOneReversal(rows: Rows, a: string, b: string, reference: string)
    requires Forest(rows) && a in rows && b in rows
    requires IsProcessedReversalOf(rows[a], reference) && IsProcessedReversalOf(rows[b], reference)
    ensures a == b
  {
    if a != b { assert SameReference(rows[a], rows[b]); }
  }

  /** A reversal's entry is the exact opposite of the entry it undoes, on the same wallet. */
  lemma ReversalEntryIsOpposite(rows: Rows, e: Entry, f: Entry)
    requires Forest(rows) && Explains(rows, e) && Explains(rows, f)
    requires IsLinked(rows, e.transactionId) && rows[e.transactionId].resolvedReferenceId == f.transactionId
    ensures e.walletId == f.walletId && e.amount == f.amount && e.direction == f.direction.Opposite()
    ensures e.Signed() == -f.Signed()
  {
    LinkUndoes(rows, e.transactionId);
  }

  /* ---- who undid what ---- */

  ghost function ReversalOf(rows: Rows, id: string): (r: Option<string>)
    ensures r.Some? ==> r.value in rows && IsProcessedReversalOf(rows[r.value], id)
    ensures r.None? <==> Unreversed(rows, id)
  {
    if exists x :: x in rows && IsProcessedReversalOf(rows[x], id) then
      var x :| x in rows && IsProcessedReversalOf(rows[x], id);
      Some(x)
    else None
  }

  /** An operation stands when nothing undid it, or what undid it was itself undone. */
  ghost predicate Stands(rows: Rows, id: string) {
    match ReversalOf(rows, id)
    case None => true
    case Some(x) => ReversalOf(rows, x).Some?
  }

  /** The processed operations whose chain ends in this root. */
  ghost function Family(rows: Rows, root: string): set<string>
    requires Forest(rows)
  {
    set id | id in rows && rows[id].status.Processed? && RootOf(rows, id) == root
  }

  ghost function Members(rows: Rows, root: string): set<string> {
    match ReversalOf(rows, root)
    case None => {root}
    case Some(x) =>
      match ReversalOf(rows, x)
      case None => {root, x}
      case Some(y) => {root, x, y}
  }

  /** A link, and the link's own target, looked at from the far end. */
  lemma OneStepRoot(rows: Rows, id: string)
    requires Forest(rows) && IsLinked(rows, id)
    ensures rows[id].resolvedReferenceId in rows
    ensures RootOf(rows, id) == RootOf(rows, rows[id].resolvedReferenceId)
    ensures IsLinked(rows, rows[id].resolvedReferenceId) ==> rows[rows[id].resolvedReferenceId].kind.Refund?
    ensures rows[id].kind.Refund? ==> !IsLinked(rows, rows[id].resolvedReferenceId)
    ensures IsProcessedReversalOf(rows[id], rows[id].resolvedReferenceId)
  {
    LinkUndoes(rows, id);
  }

  lemma ReversalIsLinked(rows: Rows, id: string, reference: string)
    requires Forest(rows) && id in rows && IsProcessedReversalOf(rows[id], reference)
    ensures IsLinked(rows, id) && rows[id].resolvedReferenceId == reference
  {
  }

  lemma FamilyIsItsMembers(rows: Rows, root: string)
    requires Forest(rows) && root in rows && rows[root].status.Processed? && !IsLinked(rows, root)
    ensures Family(rows, root) == Members(rows, root)
  {
    hide Forest, IsProcessedReversalOf;
    forall id | id in Family(rows, root)
      ensures id in Members(rows, root)
    {
      if IsLinked(rows, id) {
        var r := rows[id].resolvedReferenceId;
        OneStepRoot(rows, id);
        if IsLinked(rows, r) {
          OneStepRoot(rows, r);
          AtMostOneReversal(rows, r, ReversalOf(rows, root).value, root);
          AtMostOneReversal(rows, id, ReversalOf(rows, r).value, r);
        } else {
          AtMostOneReversal(rows, id, ReversalOf(rows, root).value, root);
        }
      }
    }
    var first := ReversalOf(rows, root);
    if first.Some? {
      ReversalIsLinked(rows, first.value, root);
      OneStepRoot(rows, first.value);
      var second := ReversalOf(rows, first.value);
      if second.Some? {
        ReversalIsLinked(rows, second.value, first.value);
        OneStepRoot(rows, second.value);
      }
    }
  }

  /* ---- sums ---- */

  /** What the entries of one chain add up to. */
  ghost function Net(rows: Rows, es: seq<Entry>, root: string): int
    requires Forest(rows) && AllExplained(rows, es)
  {
    if es == [] then 0
    else
      var last := es[|es| - 1];
      assert Explains(rows, last);
      Net(rows, es[..|es| - 1], root) + (if RootOf(rows, last.transactionId) == root then last.Signed() else 0)
  }

  ghost function NetSum(rows: Rows, es: seq<Entry>, roots: seq<string>): int
    requires Forest(rows) && AllExplained(rows, es)
  {
    if roots == [] then 0 else NetSum(rows, es, roots[..|roots| - 1]) + Net(rows, es, roots[|roots| - 1])
  }

  predicate Distinct(ids: seq<string>) {
    forall i, j :: 0 <= i < j < |ids| ==> ids[i] != ids[j]
  }

  /** One more entry moves exactly one chain's net. */
  lemma {:induction false} NetSumStep(rows: Rows, es: seq<Entry>, roots: seq<string>)
    requires Forest(rows) && AllExplained(rows, es) && es != [] && Distinct(roots)
    ensures es[|es| - 1].transactionId in rows
    ensures NetSum(rows, es, roots)
            == NetSum(rows, es[..|es| - 1], roots)
               + if RootOf(rows, es[|es| - 1].transactionId) in roots then es[|es| - 1].Signed() else 0
  {
    hide Forest;
    var last := es[|es| - 1];
    assert Explains(rows, last);
    if roots != [] {
      var front := roots[..|roots| - 1];
      NetSumStep(rows, es, front);
      assert roots == front + [roots[|roots| - 1]];
    }
  }

  lemma {:induction false} NothingNets(rows: Rows, roots: seq<string>)
    requires Forest(rows)
    ensures NetSum(rows, [], roots) == 0
  {
    if roots != [] { NothingNets(rows, roots[..|roots| - 1]); }
  }

  lemma {:induction false} TotalIsNetSum(rows: Rows, es: seq<Entry>, roots: seq<string>)
    requires Forest(rows) && AllExplained(rows, es) && Distinct(roots)
    requires forall i :: 0 <= i < |es| ==> es[i].transactionId in rows && RootOf(rows, es[i].transactionId) in roots
    ensures Total(es) == NetSum(rows, es, roots)
  {
    hide Forest, Explains;
    if es == [] {
      NothingNets(rows, roots);
    } else {
      TotalIsNetSum(rows, es[..|es| - 1], roots);
      NetSumStep(rows, es, roots);
    }
  }

  /** The entries of a set of operations, added up. */
  function SumOf(es: seq<Entry>, ids: set<string>): int {
    if es == [] then 0
    else
      var last := es[|es| - 1];
      SumOf(es[..|es| - 1], ids) + (if last.transactionId in ids then last.Signed() else 0)
  }

  lemma {:induction false} NetIsFamilySum(rows: Rows, es: seq<Entry>, root: string)
    requires Forest(rows) && AllExplained(rows, es)
    ensures Net(rows, es, root) == SumOf(es, Family(rows, root))
  {
    hide Forest;
    if es != [] {
      NetIsFamilySum(rows, es[..|es| - 1], root);
      assert Explains(rows, es[|es| - 1]);
    }
  }

  lemma {:induction false} SumSplits(es: seq<Entry>, ids: set<string>, id: string)
    requires id !in ids
    ensures SumOf(es, ids + {id}) == SumOf(es, ids) + SumOf(es, {id})
  {
    if es != [] { SumSplits(es[..|es| - 1], ids, id); }
  }

  lemma {:induction false} SumOfOne(es: seq<Entry>, i: nat)
    requires DistinctEntries(es) && i < |es|
    ensures SumOf(es, {es[i].transactionId}) == es[i].Signed()
  {
    var front := es[..|es| - 1];
    if i == |es| - 1 {
      SumOfNone(front, es[i].transactionId);
    } else {
      SumOfOne(front, i);
    }
  }

  lemma {:induction false} SumOfNone(es: seq<Entry>, id: string)
    requires forall i :: 0 <= i < |es| ==> es[i].transactionId != id
    ensures SumOf(es, {id}) == 0
  {
    if es != [] { SumOfNone(es[..|es| - 1], id); }
  }

  /** Each operation of the family that moves money has its entry among these. */
  ghost predicate Complete(rows: Rows, es: seq<Entry>, root: string)
    requires Forest(rows)
  {
    forall id :: id in Family(rows, root) ==> HasEntry(es, id)
  }

  lemma OppositeSums(rows: Rows, es: seq<Entry>, x: string, reference: string)
    requires Forest(rows) && AllExplained(rows, es) && DistinctEntries(es)
    requires x in rows && IsProcessedReversalOf(rows[x], reference)
    requires HasEntry(es, x) && HasEntry(es, reference)
    ensures SumOf(es, {x}) == -SumOf(es, {reference})
  {
    hide Forest, Explains;
    var i :| 0 <= i < |es| && es[i].transactionId == x;
    var j :| 0 <= j < |es| && es[j].transactionId == reference;
    ReversalIsLinked(rows, x, reference);
    ReversalEntryIsOpposite(rows, es[i], es[j]);
    SumOfOne(es, i);
    SumOfOne(es, j);
  }

  /** A chain nets to its root when the root stands, and to nothing when it was undone. */
  lemma ChainNets(rows: Rows, es: seq<Entry>, root: string)
    requires Forest(rows) && AllExplained(rows, es) && DistinctEntries(es)
    requires root in rows && rows[root].status.Processed? && !IsLinked(rows, root) && Complete(rows, es, root)
    ensures Net(rows, es, root) == if Stands(rows, root) then SumOf(es, {root}) else 0
  {
    hide Forest, AllExplained, IsProcessedReversalOf, DistinctEntries, Net, SumOf;
    NetIsFamilySum(rows, es, root);
    FamilyIsItsMembers(rows, root);
    assert root in Members(rows, root);
    var first := ReversalOf(rows, root);
    if first.Some? {
      var x := first.value;
      NotItsOwnReversal(rows, root, x);
      OppositeSums(rows, es, x, root);
      SumSplits(es, {root}, x);
      assert {root} + {x} == {root, x};
      var second := ReversalOf(rows, x);
      if second.Some? {
        var y := second.value;
        NotItsOwnReversal(rows, x, y);
        OppositeSums(rows, es, y, x);
        DifferentLinks(rows, root, x, y);
        SumSplits(es, {root, x}, y);
        assert {root, x} + {y} == {root, x, y};
      }
    }
  }

  lemma NotItsOwnReversal(rows: Rows, reference: string, x: string)
    requires Forest(rows) && x in rows && IsProcessedReversalOf(rows[x], reference)
    ensures x != reference
  {
    ReversalIsLinked(rows, x, reference);
    LinkUndoes(rows, x);
  }

  lemma DifferentLinks(rows: Rows, root: string, x: string, y: string)
    requires Forest(rows) && root in rows && !IsLinked(rows, root)
    requires y in rows && IsProcessedReversalOf(rows[y], x)
    ensures y != root
  {
    ReversalIsLinked(rows, y, x);
  }

  /* ---- the balance ---- */

  /** The operations among these entries that reverse nothing, in order. */
  ghost function Roots(rows: Rows, es: seq<Entry>): seq<string> {
    if es == [] then []
    else
      var front, id := Roots(rows, es[..|es| - 1]), es[|es| - 1].transactionId;
      if IsLinked(rows, id) then front else front + [id]
  }

  /** The entries of operations that stand, added up. */
  ghost function StandingTotal(rows: Rows, es: seq<Entry>, roots: seq<string>): int {
    if roots == [] then 0
    else
      var id := roots[|roots| - 1];
      StandingTotal(rows, es, roots[..|roots| - 1]) + (if Stands(rows, id) then SumOf(es, {id}) else 0)
  }

  lemma {:induction false} RootsAreEntries(rows: Rows, es: seq<Entry>)
    requires DistinctEntries(es)
    ensures var roots := Roots(rows, es);
            && Distinct(roots)
            && (forall i :: 0 <= i < |roots| ==> HasEntry(es, roots[i]) && !IsLinked(rows, roots[i]))
            && (forall i :: 0 <= i < |es| && !IsLinked(rows, es[i].transactionId) ==> es[i].transactionId in roots)
  {
    if es != [] {
      var front := es[..|es| - 1];
      RootsAreEntries(rows, front);
      var before, roots := Roots(rows, front), Roots(rows, es);
      assert forall i :: 0 <= i < |front| ==> front[i] == es[i];
      assert forall id :: HasEntry(front, id) ==> HasEntry(es, id);
      assert es[|es| - 1].transactionId in roots || roots == before;
      forall i | 0 <= i < |es| && !IsLinked(rows, es[i].transactionId)
        ensures es[i].transactionId in roots
      {
        if i < |front| {
          var k :| 0 <= k < |before| && before[k] == es[i].transactionId;
          assert roots[k] == before[k];
        }
      }
    }
  }

  lemma {:induction false} NetsStand(rows: Rows, es: seq<Entry>, roots: seq<string>)
    requires Forest(rows) && AllExplained(rows, es) && DistinctEntries(es)
    requires forall i :: 0 <= i < |roots| ==>
               && roots[i] in rows && rows[roots[i]].status.Processed? && !IsLinked(rows, roots[i])
               && Complete(rows, es, roots[i])
    ensures NetSum(rows, es, roots) == StandingTotal(rows, es, roots)
  {
    hide Forest, Explains, Complete, Stands;
    if roots != [] {
      NetsStand(rows, es, roots[..|roots| - 1]);
      ChainNets(rows, es, roots[|roots| - 1]);
    }
  }

  /** The wallet's own ledger holds every entry of every chain rooted in it. */
  lemma WalletHoldsWholeChains(db: Db, wallet: string, id: string)
    requires Inv(db) && Forest(db.transactions) && id in db.transactions && db.transactions[id].walletId == wallet
    requires db.transactions[id].status.Processed? && db.transactions[id].kind.MovesMoney()
    ensures HasEntry(EntriesOf(db.ledger, wallet), id)
  {
    hide LogComplete, BooksBalance, ReversalsResolve, RowFits, Unique, EntriesOf, Forest, DistinctEntries;
    assert HasEntry(db.ledger, id);
    var i :| 0 <= i < |db.ledger| && db.ledger[i].transactionId == id;
    assert Explains(db.transactions, db.ledger[i]);
    LedgerEntriesAreListed(db.ledger, i);
  }

  lemma {:induction false} WalletEntriesDiffer(ledger: seq<Entry>, wallet: string)
    requires DistinctEntries(ledger)
    ensures DistinctEntries(EntriesOf(ledger, wallet))
  {
    if ledger != [] {
      var front, last := ledger[..|ledger| - 1], ledger[|ledger| - 1];
      WalletEntriesDiffer(front, wallet);
      EntriesAreFromLedger(front, wallet);
      forall i | 0 <= i < |EntriesOf(front, wallet)|
        ensures EntriesOf(front, wallet)[i].id != last.id
        ensures EntriesOf(front, wallet)[i].transactionId != last.transactionId
      {
        var k :| 0 <= k < |front| && front[k] == EntriesOf(front, wallet)[i];
        assert ledger[k] == front[k];
      }
    }
  }

  /**
   * The stored balance is what the standing operations add up to: the opening, and
   * every bet and win that was not undone, or whose undoing was undone.
   */
  lemma BalanceIsWhatStands(db: Db, wallet: string)
    requires Inv(db) && wallet in db.wallets
    ensures var es := EntriesOf(db.ledger, wallet);
            db.wallets[wallet].balance.minor == StandingTotal(db.transactions, es, Roots(db.transactions, es))
  {
    hide Inv, EntriesOf, Roots, Forest, AllExplained, DistinctEntries, Complete;
    LinksFormAForest(db);
    var rows, es := db.transactions, EntriesOf(db.ledger, wallet);
    WalletLedgerIsSound(db, wallet);
    RootsAreEntries(rows, es);
    forall i | 0 <= i < |es|
      ensures es[i].transactionId in rows && RootOf(rows, es[i].transactionId) in Roots(rows, es)
    {
      EntryRootIsListed(db, wallet, i);
    }
    TotalIsNetSum(rows, es, Roots(rows, es));
    forall k | 0 <= k < |Roots(rows, es)|
      ensures var root := Roots(rows, es)[k];
              root in rows && rows[root].status.Processed? && Complete(rows, es, root)
    {
      RootIsComplete(db, wallet, Roots(rows, es)[k]);
    }
    NetsStand(rows, es, Roots(rows, es));
  }

  /** A wallet's entries are explained, differ, and add up to its balance. */
  lemma WalletLedgerIsSound(db: Db, wallet: string)
    requires Inv(db) && wallet in db.wallets
    ensures var es := EntriesOf(db.ledger, wallet);
            AllExplained(db.transactions, es) && DistinctEntries(es) && db.wallets[wallet].balance.minor == Total(es)
  {
    hide LogComplete, RowFits, Unique, EntriesOf, ReversalsResolve, Explains, Chained, OpeningOnlyFirst, AllRecorded;
    var w := db.wallets[wallet];
    assert BooksBalance(db, w) && w.id == wallet;
    ChainTotals(EntriesOf(db.ledger, wallet), w.balance.currency);
    WalletExplained(db.transactions, db.ledger, wallet);
    WalletEntriesDiffer(db.ledger, wallet);
  }

  lemma EntryFacts(db: Db, wallet: string, i: nat)
    requires Inv(db) && i < |EntriesOf(db.ledger, wallet)|
    ensures var id := EntriesOf(db.ledger, wallet)[i].transactionId;
            id in db.transactions && db.transactions[id].status.Processed? && db.transactions[id].kind.MovesMoney()
            && db.transactions[id].walletId == wallet
  {
    hide LogComplete, RowFits, Unique, EntriesOf, ReversalsResolve, BooksBalance;
    EntriesAreFromLedger(db.ledger, wallet);
    var e := EntriesOf(db.ledger, wallet)[i];
    var k :| 0 <= k < |db.ledger| && db.ledger[k] == e;
    assert Explains(db.transactions, db.ledger[k]);
  }

  lemma EntryRootIsListed(db: Db, wallet: string, i: nat)
    requires Inv(db) && Forest(db.transactions) && i < |EntriesOf(db.ledger, wallet)|
    requires DistinctEntries(EntriesOf(db.ledger, wallet))
    ensures var es := EntriesOf(db.ledger, wallet);
            es[i].transactionId in db.transactions
            && RootOf(db.transactions, es[i].transactionId) in Roots(db.transactions, es)
  {
    hide Inv, Forest, EntriesOf, Roots, DistinctEntries;
    var es := EntriesOf(db.ledger, wallet);
    EntryFacts(db, wallet, i);
    RootsAreEntries(db.transactions, es);
    var root := RootOf(db.transactions, es[i].transactionId);
    WalletHoldsWholeChains(db, wallet, root);
    var k :| 0 <= k < |es| && es[k].transactionId == root;
  }

  lemma RootIsComplete(db: Db, wallet: string, root: string)
    requires Inv(db) && Forest(db.transactions) && HasEntry(EntriesOf(db.ledger, wallet), root)
    ensures root in db.transactions && db.transactions[root].status.Processed?
    ensures Complete(db.transactions, EntriesOf(db.ledger, wallet), root)
  {
    hide Inv, Forest, EntriesOf;
    var es := EntriesOf(db.ledger, wallet);
    var k :| 0 <= k < |es| && es[k].transactionId == root;
    EntryFacts(db, wallet, k);
    forall id | id in Family(db.transactions, root)
      ensures HasEntry(es, id)
    {
      assert db.transactions[id].kind.MovesMoney() by { MemberMoves(db.transactions, id, root); }
      WalletHoldsWholeChains(db, wallet, id);
    }
  }

  lemma MemberMoves(rows: Rows, id: string, root: string)
    requires Forest(rows) && id in rows && root in rows && RootOf(rows, id) == root && rows[root].kind.MovesMoney()
    ensures rows[id].kind.MovesMoney()
  {
  }
}
