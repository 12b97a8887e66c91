/**
 * The e3gold table: rows (uid, type, price, date) with UNIQUE(uid, type, price) ON CONFLICT
 * REPLACE, so the table is a map from the key (uid, type, price) to the date.
 */
module Alerts {
  import opened Quotes

  const BUY := "BUY"
  const SELL := "SELL"

  /** A row's unique key (uid, type, price); type is kept as the text the table stores. */
  type Key = (int, string, int)

  type Table = map<Key, string>

  /** The zero value of the e3gold struct: the key remove is called with for the placeholders. */
  const ZERO_KEY: Key := (0, "", 0)

  /**
   * The tick's WHERE clause with its arguments bound:
   * (price >= e3sell AND type = 'BUY') OR (price <= e3buy AND type = 'SELL').
   */
  predicate Matches(k: Key, q: Quote) {
    (k.2 >= q.sell && k.1 == BUY) || (k.2 <= q.buy && k.1 == SELL)
  }

  /** The keys of the rows the tick's SELECT returns. */
  function MatchingKeys(rows: Table, q: Quote): set<Key> {
    set k | k in rows.Keys && Matches(k, q)
  }

  /** Every row the bot writes has type BUY or SELL. */
  predicate WellTyped(rows: Table) {
    forall k :: k in rows ==> k.1 == BUY || k.1 == SELL
  }

  class AlertStore {
    var rows: Table

    ghost predicate Valid()
      reads this
    {
      WellTyped(rows)
    }

    constructor ()
      ensures Valid() && rows == map[]
    {
      rows := map[];
    }

    /** INSERT into the table: a row with an existing key replaces it. */
    method Insert(uid: int, t: string, price: int, date: string)
      requires Valid() && (t == BUY || t == SELL)
      modifies this
      ensures Valid()
      ensures rows == old(rows)[(uid, t, price) := date]
    {
      rows := rows[(uid, t, price) := date];
    }

    /** remove: DELETE the row with this key; no such row leaves the table as it was. */
    method Remove(uid: int, price: int, t: string)
      requires Valid()
      modifies this
      ensures Valid()
      ensures rows == old(rows) - {(uid, t, price)}
    {
      rows := rows - {(uid, t, price)};
    }
  }

  /** Re-registering a key keeps one row for it, holding the latest date, and no other row changes. */
  lemma InsertReplaces(rows: Table, k: Key, first: string, second: string)
    ensures rows[k := first][k := second] == rows[k := second]
    ensures rows[k := second].Keys == rows.Keys + {k}
  {
  }

  /** Alerts of one user and direction at different prices are different rows. */
  lemma DifferentPricesCoexist(rows: Table, uid: int, t: string, p1: int, d1: string, p2: int, d2: string)
    requires p1 != p2
    ensures var after := rows[(uid, t, p1) := d1][(uid, t, p2) := d2];
      (uid, t, p1) in after && after[(uid, t, p1)] == d1 && after[(uid, t, p2)] == d2
  {
  }

  /**
   * Both bounds are inclusive: a BUY alert at the sell quote and a SELL alert at the buy quote
   * fire; a row of any other type is never selected.
   */
  lemma MatchBoundaries(uid: int, t: string, price: int, q: Quote)
    ensures Matches((uid, BUY, price), q) <==> price >= q.sell
    ensures Matches((uid, SELL, price), q) <==> price <= q.buy
    ensures t != BUY && t != SELL ==> !Matches((uid, t, price), q)
  {
  }

  /** The placeholder key is never a row, so removing it changes nothing. */
  lemma ZeroKeyAbsent(rows: Table)
    requires WellTyped(rows)
    ensures ZERO_KEY !in rows
    ensures rows - {ZERO_KEY} == rows
  {
  }
}
