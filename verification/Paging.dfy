/**
 * Reading a wallet's ledger page by page, by sequence number, while it may still grow.
 * Numbers are drawn before they become visible, so a lower number of another wallet may
 * appear after a higher one; one wallet's rows become visible in number order.
 */
module Paging {
  import opened Base
  import opened Domain
  import opened Storage

  /** A visible ledger row under the sequence number it was inserted with. */
  datatype Row = Row(number: nat, entry: Entry)

  datatype Page = Page(entries: seq<Entry>, next: nat, hasMore: bool)

  /* ---- the query ---- */

  /** The rows of one wallet past a cursor, as the table holds them. */
  function Matching(table: seq<Row>, wallet: string, after: nat): seq<Row> {
    if table == [] then []
    else
      var front, last := Matching(table[..|table| - 1], wallet, after), table[|table| - 1];
      if last.entry.walletId == wallet && after < last.number then front + [last] else front
  }

  function InsertByNumber(row: Row, rows: seq<Row>): seq<Row> {
    if rows == [] || rows[|rows| - 1].number <= row.number then rows + [row]
    else InsertByNumber(row, rows[..|rows| - 1]) + [rows[|rows| - 1]]
  }

  function OrderByNumber(rows: seq<Row>): seq<Row> {
    if rows == [] then [] else InsertByNumber(rows[|rows| - 1], OrderByNumber(rows[..|rows| - 1]))
  }

  /** What the query returns without its limit. */
  function RowsAfter(table: seq<Row>, wallet: string, after: nat): seq<Row> {
    OrderByNumber(Matching(table, wallet, after))
  }

  function EntriesIn(rows: seq<Row>): (es: seq<Entry>)
    ensures |es| == |rows| && forall i :: 0 <= i < |es| ==> es[i] == rows[i].entry
  {
    seq(|rows|, i requires 0 <= i < |rows| => rows[i].entry)
  }

  function LastNumber(rows: seq<Row>, after: nat): nat {
    if rows == [] then after else rows[|rows| - 1].number
  }

  function PageOf(table: seq<Row>, wallet: string, after: nat, limit: nat): Page {
    var rows := RowsAfter(table, wallet, after);
    var served := Firsts(rows, limit);
    Page(EntriesIn(served), LastNumber(served, after), limit < |rows|)
  }

  /** A page is as long as was asked for, unless nothing follows it. */
  lemma PageIsFull(table: seq<Row>, wallet: string, after: nat, limit: nat)
    ensures var page := PageOf(table, wallet, after, limit);
            if page.hasMore then |page.entries| == limit
            else |page.entries| == |RowsAfter(table, wallet, after)| <= limit
  {
    hide RowsAfter;
  }

  predicate AllReadable(rows: seq<Row>) {
    forall i :: 0 <= i < |rows| ==> NewEntry(rows[i].entry) == Ok(rows[i].entry)
  }

  /** Asks for one row past the page, to tell a full last page from a full middle one. */
  method ListByWallet(table: seq<Row>, wallet: string, after: nat, limit: int) returns (r: Result<Page>)
    ensures limit <= 0 ==> r == Err(InvalidInput)
    ensures limit > 0 && AllReadable(RowsAfter(table, wallet, after)) ==> r == Ok(PageOf(table, wallet, after, limit))
    ensures r.Ok? ==> r == Ok(PageOf(table, wallet, after, limit))
  {
    hide RowsAfter, NewEntry;
    if limit <= 0 { return Err(InvalidInput); }
    var rows := Firsts(RowsAfter(table, wallet, after), limit + 1);
    var entries, lastNumber, hasMore, i := [], after, false, 0;
    while i < |rows|
      invariant 0 <= i <= |rows| && i <= limit && !hasMore
      invariant entries == EntriesIn(rows[..i]) && lastNumber == LastNumber(rows[..i], after)
    {
      if |entries| == limit {
        hasMore := true;
        break;
      }
      var entry := NewEntry(rows[i].entry);
      if entry.Err? { return Err(entry.error); }
      assert rows[..i + 1] == rows[..i] + [rows[i]];
      entries, lastNumber, i := entries + [entry.value], rows[i].number, i + 1;
    }
    assert rows[..i] == Firsts(RowsAfter(table, wallet, after), limit);
    r := Ok(Page(entries, lastNumber, hasMore));
  }

  /* ---- one wallet's rows ascend ---- */

  predicate Ascending(rows: seq<Row>) {
    forall i, j :: 0 <= i < j < |rows| ==> rows[i].number < rows[j].number
  }

  /** The rows of one wallet, as the table holds them. */
  function RowsOf(table: seq<Row>, wallet: string): seq<Row> {
    if table == [] then []
    else
      var front, last := RowsOf(table[..|table| - 1], wallet), table[|table| - 1];
      if last.entry.walletId == wallet then front + [last] else front
  }

  predicate WalletAscends(table: seq<Row>, wallet: string) { Ascending(RowsOf(table, wallet)) }

  function Past(rows: seq<Row>, after: nat): seq<Row> {
    if rows == [] then []
    else
      var front, last := Past(rows[..|rows| - 1], after), rows[|rows| - 1];
      if after < last.number then front + [last] else front
  }

  lemma {:induction false} MatchingIsPast(table: seq<Row>, wallet: string, after: nat)
    ensures Matching(table, wallet, after) == Past(RowsOf(table, wallet), after)
  {
    if table != [] {
      var front, last := table[..|table| - 1], table[|table| - 1];
      MatchingIsPast(front, wallet, after);
      if last.entry.walletId == wallet {
        assert (RowsOf(front, wallet) + [last])[..|RowsOf(front, wallet)|] == RowsOf(front, wallet);
      }
    }
  }

  lemma {:induction false} AscendingIsOrdered(rows: seq<Row>)
    requires Ascending(rows)
    ensures OrderByNumber(rows) == rows
  {
    if rows != [] {
      AscendingIsOrdered(rows[..|rows| - 1]);
      assert rows == rows[..|rows| - 1] + [rows[|rows| - 1]];
    }
  }

  lemma PartAscends(rows: seq<Row>, a: nat, b: nat)
    requires Ascending(rows) && a <= b <= |rows|
    ensures Ascending(rows[a..b])
  {
  }

  lemma {:induction false} NothingPast(rows: seq<Row>, after: nat)
    requires forall i :: 0 <= i < |rows| ==> rows[i].number <= after
    ensures Past(rows, after) == []
  {
    if rows != [] { NothingPast(rows[..|rows| - 1], after); }
  }

  lemma OneMorePast(rows: seq<Row>, after: nat, k: nat)
    requires rows != [] && after < rows[|rows| - 1].number && k < |rows|
    requires Past(rows[..|rows| - 1], after) == rows[..|rows| - 1][k..]
    ensures Past(rows, after) == rows[k..]
  {
    assert rows[k..] == rows[..|rows| - 1][k..] + [rows[|rows| - 1]];
  }

  lemma AllBelowLast(rows: seq<Row>, after: nat)
    requires Ascending(rows) && rows != [] && rows[|rows| - 1].number <= after
    ensures forall i :: 0 <= i < |rows| ==> rows[i].number <= after
  {
  }

  /** Past a cursor, ascending rows are what is left of them from some point on. */
  lemma {:induction false} PastIsSuffix(rows: seq<Row>, after: nat) returns (k: nat)
    requires Ascending(rows)
    ensures k <= |rows| && Past(rows, after) == rows[k..]
    ensures forall i :: 0 <= i < k ==> rows[i].number <= after
    ensures forall i :: k <= i < |rows| ==> after < rows[i].number
  {
    if rows == [] {
      k := 0;
    } else if after < rows[|rows| - 1].number {
      PartAscends(rows, 0, |rows| - 1);
      hide Past, Ascending;
      k := PastIsSuffix(rows[..|rows| - 1], after);
      OneMorePast(rows, after, k);
    } else {
      AllBelowLast(rows, after);
      NothingPast(rows, after);
      k := |rows|;
    }
  }

  /** On a table where the wallet ascends, the query returns its rows past the cursor, in table order. */
  lemma QueryIsPast(table: seq<Row>, wallet: string, after: nat)
    requires WalletAscends(table, wallet)
    ensures RowsAfter(table, wallet, after) == Past(RowsOf(table, wallet), after)
  {
    MatchingIsPast(table, wallet, after);
    var k := PastIsSuffix(RowsOf(table, wallet), after);
    PartAscends(RowsOf(table, wallet), k, |RowsOf(table, wallet)|);
    AscendingIsOrdered(Past(RowsOf(table, wallet), after));
  }

  /** Starting after the n-th row served leaves exactly the rows from there on, of the same rows or of more. */
  lemma CursorContinues(rows: seq<Row>, longer: seq<Row>, after: nat, n: nat)
    requires rows <= longer && Ascending(longer) && n <= |Past(rows, after)|
    ensures n <= |Past(longer, after)| && Past(rows, after)[..n] == Past(longer, after)[..n]
    ensures Past(longer, LastNumber(Past(rows, after)[..n], after)) == Past(longer, after)[n..]
  {
    hide Past;
    assert Ascending(rows) by {
      forall i, j | 0 <= i < j < |rows| ensures rows[i].number < rows[j].number {
        assert rows[i] == longer[i] && rows[j] == longer[j];
      }
    }
    var k := PastIsSuffix(rows, after);
    var m := PastIsSuffix(longer, after);
    SameStart(rows, longer, after, k, m);
    var cursor := LastNumber(rows[k..][..n], after);
    var q := PastIsSuffix(longer, cursor);
    if n == 0 {
      assert rows[k..][..0] == [];
    } else {
      assert rows[k..][..n][n - 1] == rows[k + n - 1] == longer[k + n - 1];
      assert forall i :: 0 <= i < k + n ==> longer[i].number <= cursor;
      assert forall i :: k + n <= i < |longer| ==> cursor < longer[i].number;
      assert q < |longer| ==> cursor < longer[q].number;
      assert k + n < |longer| ==> cursor < longer[k + n].number;
      assert longer[m..][n..] == longer[m + n..];
    }
  }

  lemma SameStart(rows: seq<Row>, longer: seq<Row>, after: nat, k: nat, m: nat)
    requires rows <= longer && k <= |rows| && m <= |longer|
    requires forall i :: 0 <= i < k ==> rows[i].number <= after
    requires forall i :: k <= i < |rows| ==> after < rows[i].number
    requires forall i :: 0 <= i < m ==> longer[i].number <= after
    requires forall i :: m <= i < |longer| ==> after < longer[i].number
    ensures rows[k..] == [] || k == m
    ensures k <= m && |rows[k..]| <= |longer[m..]|
    ensures forall n :: 0 <= n <= |rows[k..]| ==> rows[k..][..n] == longer[m..][..n]
  {
    assert forall i :: 0 <= i < |rows| ==> longer[i] == rows[i];
    assert k < |rows| ==> after < longer[k].number;
    assert m < |longer| ==> after < longer[m].number;
  }

  /* ---- following the cursors ---- */

  /** One request: the table as it was visible then, and the page size asked for. */
  datatype Ask = Ask(table: seq<Row>, limit: nat)

  /** Page sizes are positive and this wallet's rows ascend and only grow; other wallets' rows may appear anywhere. */
  predicate Growing(wallet: string, asks: seq<Ask>) {
    && (forall i :: 0 <= i < |asks| ==> 0 < asks[i].limit && WalletAscends(asks[i].table, wallet))
    && (forall i :: 0 <= i < |asks| - 1 ==> RowsOf(asks[i].table, wallet) <= RowsOf(asks[i + 1].table, wallet))
  }

  /** The entries served by following each page's cursor to the next. */
  function Served(wallet: string, after: nat, asks: seq<Ask>): seq<Entry>
    decreases |asks|
  {
    if asks == [] then []
    else
      var page := PageOf(asks[0].table, wallet, after, asks[0].limit);
      page.entries + Served(wallet, page.next, asks[1..])
  }

  lemma RestGrows(wallet: string, asks: seq<Ask>)
    requires Growing(wallet, asks) && asks != []
    ensures Growing(wallet, asks[1..])
  {
    hide WalletAscends, RowsOf;
    var rest := asks[1..];
    forall i | 0 <= i < |rest| - 1
      ensures RowsOf(rest[i].table, wallet) <= RowsOf(rest[i + 1].table, wallet)
    {
      assert RowsOf(asks[i + 1].table, wallet) <= RowsOf(asks[i + 2].table, wallet);
    }
  }

  lemma GrowingEnds(wallet: string, asks: seq<Ask>)
    requires Growing(wallet, asks) && asks != []
    ensures RowsOf(asks[0].table, wallet) <= RowsOf(asks[|asks| - 1].table, wallet)
    decreases |asks|
  {
    hide WalletAscends, RowsOf;
    if |asks| > 1 {
      RestGrows(wallet, asks);
      GrowingEnds(wallet, asks[1..]);
      assert RowsOf(asks[0].table, wallet) <= RowsOf(asks[0 + 1].table, wallet);
    }
  }

  lemma EntriesSplit(rows: seq<Row>, n: nat)
    requires n <= |rows|
    ensures EntriesIn(rows) == EntriesIn(rows[..n]) + EntriesIn(rows[n..])
  {
  }

  /** What one page serves, and what is left to serve once more has become visible. */
  lemma PageThenRest(table: seq<Row>, last: seq<Row>, wallet: string, after: nat, limit: nat)
    requires WalletAscends(table, wallet) && WalletAscends(last, wallet)
    requires RowsOf(table, wallet) <= RowsOf(last, wallet)
    ensures var page, all := PageOf(table, wallet, after, limit), RowsAfter(last, wallet, after);
            EntriesIn(all) == page.entries + EntriesIn(RowsAfter(last, wallet, page.next))
  {
    hide RowsAfter, Past, RowsOf;
    var rows, longer := RowsOf(table, wallet), RowsOf(last, wallet);
    QueryIsPast(table, wallet, after);
    QueryIsPast(last, wallet, after);
    var served := Firsts(Past(rows, after), limit);
    assert served == Past(rows, after)[..|served|];
    CursorContinues(rows, longer, after, |served|);
    QueryIsPast(last, wallet, LastNumber(served, after));
    EntriesSplit(Past(longer, after), |served|);
  }

  /**
   * Whatever the page sizes and whatever becomes visible in between, following the
   * cursors serves the wallet's entries in order from the first, skipping and repeating
   * none.
   */
  lemma {:induction false} CursorsNeverSkipOrRepeat(wallet: string, after: nat, asks: seq<Ask>)
    requires Growing(wallet, asks) && asks != []
    ensures Served(wallet, after, asks) <= EntriesIn(RowsAfter(asks[|asks| - 1].table, wallet, after))
    decreases |asks|
  {
    hide RowsAfter, PageOf, EntriesIn, RowsOf, WalletAscends;
    var last, page := asks[|asks| - 1].table, PageOf(asks[0].table, wallet, after, asks[0].limit);
    GrowingEnds(wallet, asks);
    PageThenRest(asks[0].table, last, wallet, after, asks[0].limit);
    var rest := asks[1..];
    if rest != [] {
      RestGrows(wallet, asks);
      CursorsNeverSkipOrRepeat(wallet, page.next, rest);
    }
  }

  predicate Fixed(table: seq<Row>, asks: seq<Ask>) {
    forall i :: 0 <= i < |asks| ==> asks[i].table == table && 0 < asks[i].limit
  }

  /**
   * On a fixed table as many pages as there are entries serve every entry exactly once; no page is
   * empty before that.
   */
  lemma {:induction false} CursorsServeEverything(table: seq<Row>, wallet: string, after: nat, asks: seq<Ask>)
    requires WalletAscends(table, wallet) && Fixed(table, asks)
    ensures var all := EntriesIn(RowsAfter(table, wallet, after));
            if |asks| >= |all| then Served(wallet, after, asks) == all
            else |Served(wallet, after, asks)| >= |asks|
    decreases |asks|
  {
    hide RowsAfter, WalletAscends;
    if asks != [] {
      var page := PageOf(table, wallet, after, asks[0].limit);
      PageThenRest(table, table, wallet, after, asks[0].limit);
      CursorsServeEverything(table, wallet, page.next, asks[1..]);
      assert |page.entries| >= 1 || EntriesIn(RowsAfter(table, wallet, after)) == [];
    }
  }

  /** A page says there is more exactly when its cursor leads to something. */
  lemma HasMoreIsHonest(table: seq<Row>, wallet: string, after: nat, limit: nat)
    requires WalletAscends(table, wallet) && 0 < limit
    ensures var page := PageOf(table, wallet, after, limit);
            page.hasMore <==> RowsAfter(table, wallet, page.next) != []
  {
    hide RowsAfter, WalletAscends;
    var page := PageOf(table, wallet, after, limit);
    PageThenRest(table, table, wallet, after, limit);
    assert |EntriesIn(RowsAfter(table, wallet, after))|
           == |page.entries| + |EntriesIn(RowsAfter(table, wallet, page.next))|;
  }
}
