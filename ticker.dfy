/** One tick of autoQuery: fetch the quote, notify every matching alert, then delete them. */
module Ticker {
  import opened Wrappers
  import opened Strconv
  import opened Quotes
  import opened Alerts

  /** An outgoing message to a user. */
  datatype Notice = Notice(uid: int, text: string)

  /** How the tick's database work goes. */
  datatype TickFault =
    | NoTickFault
      /** Prepare or Query of the SELECT fails. */
    | QueryFails
      /** rows.Scan fails on the row with this (0-based) position in the result. */
    | ScanFailsAt(index: nat)
      /**
       * rows.Next fails after this many rows: it returns false as at the end of the rows, and
       * since rows.Err() is never read the tick carries on as if the scan were complete.
       */
    | NextFailsAt(index: nat)

  /** The wording for a matched row: its threshold and the quote it was compared with. */
  function AlertText(k: Key, q: Quote): string {
    if k.1 == BUY then "您設定的買進價為:" + Itoa(k.2) + " \n 玉山賣出價:" + Itoa(q.sell)
    else "您設定的賣出為:" + Itoa(k.2) + "\n 玉山買進價:" + Itoa(q.buy)
  }

  /** The sends for one scanned row: one if it is BUY, one if it is SELL. */
  function Sends(k: Key, q: Quote): seq<Notice> {
    (if k.1 == BUY then [Notice(k.0, AlertText(k, q))] else []) +
    (if k.1 == SELL then [Notice(k.0, AlertText(k, q))] else [])
  }

  /** A BUY or SELL row passes exactly one of the two type tests. */
  lemma SendsOne(k: Key, q: Quote)
    requires k.1 == BUY || k.1 == SELL
    ensures Sends(k, q) == [Notice(k.0, AlertText(k, q))]
  {
    assert BUY != SELL by { assert |BUY| != |SELL|; }
  }

  predicate AllTyped(ks: seq<Key>) {
    forall j :: 0 <= j < |ks| ==> ks[j].1 == BUY || ks[j].1 == SELL
  }

  /** The messages the scan loop sends for rows scanned in the order ks. */
  function Notices(ks: seq<Key>, q: Quote): seq<Notice> {
    if ks == [] then [] else Notices(ks[..|ks| - 1], q) + Sends(ks[|ks| - 1], q)
  }

  lemma NoticesSnoc(ks: seq<Key>, k: Key, q: Quote)
    ensures Notices(ks + [k], q) == Notices(ks, q) + Sends(k, q)
  {
    assert (ks + [k])[..|ks|] == ks;
  }

  /** Rows of type BUY or SELL get exactly one message each, to their owner, in scan order. */
  lemma {:induction false} NoticesOnePerRow(ks: seq<Key>, q: Quote)
    requires AllTyped(ks)
    ensures |Notices(ks, q)| == |ks|
    ensures forall j :: 0 <= j < |ks| ==> Notices(ks, q)[j] == Notice(ks[j].0, AlertText(ks[j], q))
  {
    if ks != [] {
      var init, last := ks[..|ks| - 1], ks[|ks| - 1];
      forall j | 0 <= j < |init| ensures init[j].1 == BUY || init[j].1 == SELL {
        assert init[j] == ks[j];
      }
      NoticesOnePerRow(init, q);
      SendsOne(last, q);
      var r, before := Notices(ks, q), Notices(init, q);
      assert r == before + [Notice(last.0, AlertText(last, q))];
      forall j | 0 <= j < |ks| ensures r[j] == Notice(ks[j].0, AlertText(ks[j], q)) {
        if j < |init| {
          assert r[j] == before[j] && ks[j] == init[j];
        }
      }
    }
  }

  predicate Distinct(ks: seq<Key>) {
    forall i, j :: 0 <= i < j < |ks| ==> ks[i] != ks[j]
  }

  function KeySet(ks: seq<Key>): set<Key> {
    set k | k in ks
  }

  /** A list without repeats has as many keys as entries. */
  lemma {:induction false} DistinctKeys(ks: seq<Key>)
    requires Distinct(ks)
    ensures |KeySet(ks)| == |ks|
  {
    if ks != [] {
      var init, last := ks[..|ks| - 1], ks[|ks| - 1];
      assert ks == init + [last];
      assert Distinct(init) by {
        forall i, j | 0 <= i < j < |init| ensures init[i] != init[j] {
          assert init[i] == ks[i] && init[j] == ks[j];
        }
      }
      DistinctKeys(init);
      assert forall i :: 0 <= i < |init| ==> init[i] == ks[i] != last;
      assert KeySet(ks) == KeySet(init) + {last};
    }
  }

  /** The scan loop's bookkeeping: order lists without repeats the rows of m taken so far. */
  predicate ScanSplit(m: set<Key>, cursor: set<Key>, order: seq<Key>) {
    cursor !! KeySet(order) && m == cursor + KeySet(order) &&
    |cursor| + |order| == |m| && Distinct(order)
  }

  /** Taking one more row from the cursor keeps the bookkeeping. */
  lemma ScanStep(m: set<Key>, cursor: set<Key>, order: seq<Key>, row: Key)
    requires ScanSplit(m, cursor, order) && row in cursor
    ensures ScanSplit(m, cursor - {row}, order + [row])
  {
    var s := order + [row];
    assert KeySet(s) == KeySet(order) + {row};
    forall i, j | 0 <= i < j < |s| ensures s[i] != s[j] {
      if j == |order| {
        assert s[i] in KeySet(order);
      } else {
        assert s[i] == order[i] && s[j] == order[j];
      }
    }
  }

  /** The five zero-valued entries of a := make([]e3gold, 5), before the scanned rows. */
  const PLACEHOLDERS: seq<Key> := [ZERO_KEY, ZERO_KEY, ZERO_KEY, ZERO_KEY, ZERO_KEY]

  /** A failed Scan among the n rows of the result: autoQuery returns. */
  predicate ScanFails(fault: TickFault, n: nat) {
    fault.ScanFailsAt? && fault.index < n
  }

  /** A failed Next among the n rows of the result: the loop ends early and the tick goes on. */
  predicate NextFails(fault: TickFault, n: nat) {
    fault.NextFailsAt? && fault.index < n
  }

  /**
   * The rows.Next loop over the result set m of the SELECT, taken in an order the database
   * chooses. It sends each row's message and appends the row to a; a failed Scan stops it
   * with an error, a failed Next stops it as the end of the rows would.
   */
  method ScanRows(m: set<Key>, q: Quote, fault: TickFault)
    returns (sent: seq<Notice>, failed: bool, order: seq<Key>)
    ensures Distinct(order) && KeySet(order) <= m
    ensures sent == Notices(order, q)
    ensures failed <==> ScanFails(fault, |m|)
    ensures ScanFails(fault, |m|) || NextFails(fault, |m|) ==> |order| == fault.index
    ensures !ScanFails(fault, |m|) && !NextFails(fault, |m|) ==> KeySet(order) == m
  {
    sent, order := [], [];
    var cursor := m;
    var i := 0;
    while cursor != {}
      invariant ScanSplit(m, cursor, order) && |order| == i
      invariant sent == Notices(order, q)
      invariant (fault.ScanFailsAt? || fault.NextFailsAt?) ==> fault.index >= i
      decreases cursor
    {
      if fault == NextFailsAt(i) {
        return sent, false, order;
      }
      var row :| row in cursor;
      if fault == ScanFailsAt(i) {
        return sent, true, order;
      }
      ScanStep(m, cursor, order, row);
      NoticesSnoc(order, row, q);
      cursor := cursor - {row};
      sent := sent + Sends(row, q);
      order := order + [row];
      i := i + 1;
    }
    failed := false;
  }

  /** Scanned rows came from the SELECT, so each of them is a BUY or a SELL row. */
  lemma MatchedTyped(m: set<Key>, q: Quote, ks: seq<Key>)
    requires KeySet(ks) <= m && forall k :: k in m ==> Matches(k, q)
    ensures AllTyped(ks)
  {
    forall j | 0 <= j < |ks| ensures ks[j].1 == BUY || ks[j].1 == SELL {
      assert ks[j] in KeySet(ks);
    }
  }

  /** Removing the placeholders as well as the rows of ks removes just the rows of ks. */
  lemma PlaceholdersRemoveNothing(rows: Table, ks: seq<Key>)
    requires WellTyped(rows)
    ensures rows - KeySet(PLACEHOLDERS + ks) == rows - KeySet(ks)
  {
    PlaceholderKeys(ks);
    ZeroKeyAbsent(rows);
  }

  lemma PlaceholderKeys(ks: seq<Key>)
    ensures KeySet(PLACEHOLDERS + ks) == {ZERO_KEY} + KeySet(ks)
  {
    var a := PLACEHOLDERS + ks;
    forall k | k in KeySet(ks) ensures k in KeySet(a) {
      var j :| 0 <= j < |ks| && ks[j] == k;
      assert a[j + 5] == k;
    }
    assert a[0] == ZERO_KEY;
  }

  /** The loop that calls remove for every entry of a, placeholders included. */
  method RemoveAll(store: AlertStore, a: seq<Key>)
    requires store.Valid()
    modifies store
    ensures store.Valid()
    ensures store.rows == old(store.rows) - KeySet(a)
  {
    var j := 0;
    while j < |a|
      invariant 0 <= j <= |a| && store.Valid()
      invariant store.rows == old(store.rows) - KeySet(a[..j])
    {
      store.Remove(a[j].0, a[j].2, a[j].1);
      assert a[..j + 1] == a[..j] + [a[j]];
      assert KeySet(a[..j + 1]) == KeySet(a[..j]) + {a[j]};
      j := j + 1;
    }
    assert a[..j] == a;
  }

  /**
   * What a tick does once it has quote q, from the table `before` to the table `after`: a failed
   * SELECT or Scan ends autoQuery with nothing deleted; otherwise the rows scanned (all of the
   * matching ones, or those before a failed Next) are notified once each and then deleted.
   */
  predicate TickOutcome(before: Table, after: Table, q: Quote, fault: TickFault,
                        sent: seq<Notice>, running: bool, order: seq<Key>)
  {
    var m := MatchingKeys(before, q);
    if fault == QueryFails then
      sent == [] && !running && after == before
    else
      Distinct(order) && KeySet(order) <= m && sent == Notices(order, q) && |sent| == |order| &&
      (running <==> !ScanFails(fault, |m|)) &&
      (ScanFails(fault, |m|) || NextFails(fault, |m|) ==> |order| == fault.index) &&
      (!ScanFails(fault, |m|) && !NextFails(fault, |m|) ==> KeySet(order) == m) &&
      (!running ==> after == before) &&
      (running ==> after == before - KeySet(order))
  }

  /** With no database fault, every matching row gets one message and then every one is deleted. */
  lemma FaultFreeTick(before: Table, after: Table, q: Quote, sent: seq<Notice>, running: bool,
                      order: seq<Key>)
    requires TickOutcome(before, after, q, NoTickFault, sent, running, order)
    ensures running && Distinct(order) && KeySet(order) == MatchingKeys(before, q)
    ensures |sent| == |MatchingKeys(before, q)| && sent == Notices(order, q)
    ensures after == before - MatchingKeys(before, q)
  {
    DistinctKeys(order);
  }

  /**
   * The part of a tick after a successful queryE3: the SELECT for quote q, the scan loop and
   * the removal loop. `order` is the order in which the SELECT happened to return the rows.
   */
  method NotifyMatches(store: AlertStore, q: Quote, fault: TickFault)
    returns (sent: seq<Notice>, running: bool, ghost order: seq<Key>)
    requires store.Valid()
    modifies store
    ensures store.Valid()
    ensures TickOutcome(old(store.rows), store.rows, q, fault, sent, running, order)
  {
    if fault == QueryFails {
      return [], false, [];
    }
    ghost var m := MatchingKeys(store.rows, q);
    var failed, scanned;
    sent, failed, scanned := ScanRows(MatchingKeys(store.rows, q), q, fault);
    order := scanned;
    MatchedTyped(m, q, order);
    NoticesOnePerRow(order, q);
    if failed {
      return sent, false, order;
    }
    // a := make([]e3gold, 5), then one append per scanned row.
    var a := PLACEHOLDERS + scanned;
    PlaceholdersRemoveNothing(store.rows, scanned);
    RemoveAll(store, a);
    running := true;
  }

  /**
   * One tick of autoQuery. `running` is false when the tick returns from autoQuery, after
   * which no tick runs again.
   */
  method Tick(store: AlertStore, page: Page, fault: TickFault)
    returns (sent: seq<Notice>, running: bool, ghost order: seq<Key>)
    requires store.Valid()
    modifies store
    ensures store.Valid()
    // A failed fetch or sell-figure parse: nothing sent, nothing removed, the loop ends.
    ensures QueryE3(page).Failure? ==> sent == [] && !running && store.rows == old(store.rows)
    ensures QueryE3(page).Success? ==>
      TickOutcome(old(store.rows), store.rows, QueryE3(page).value, fault, sent, running, order)
  {
    var quote := QueryE3(page);
    if quote.Failure? {
      return [], false, [];
    }
    sent, running, order := NotifyMatches(store, quote.value, fault);
  }
}
