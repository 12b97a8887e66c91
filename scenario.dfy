/**
 * A conversation and two ticks, driven through the bot's own operations: what a user
 * who registers a buy alert at 1000 sees, with the comparisons as the code makes them.
 */
module Scenario {
  import opened Wrappers
  import opened Strconv
  import opened Quotes
  import opened Alerts
  import opened Router
  import opened Ticker

  const USER := 7
  const DATE := "2026/10/14 09:00:00"
  const ALERT: Key := (USER, BUY, 1000)

  /**
   * "/setbuy", "abc", "/setbuy" from one user: the second "/setbuy" is read as a price, since
   * the user is still pending after "abc", and nothing is written.
   */
  method RetryStaysPending() returns (replies: seq<Option<string>>, queue: map<int, Pending>, rows: Table)
    ensures replies == [Some(Prompt(Buy)), Some(InputError(Buy)), Some(InputError(Buy))]
    ensures queue == map[USER := Buy] && rows == map[]
  {
    var store := new AlertStore();
    var bot := new Bot(store);
    var env := Env(DATE, Healthy, Unreachable);
    var r1 := bot.Receive(USER, "/setbuy", env);
    assert !WellFormed("abc") by { assert !IsDigit("abc"[0]); }
    var r2 := bot.Receive(USER, "abc", env);
    assert !WellFormed("/setbuy") by { assert !IsDigit("/setbuy"[0]); }
    var r3 := bot.Receive(USER, "/setbuy", env);
    replies, queue, rows := [r1, r2, r3], bot.queue, store.rows;
  }

  /**
   * "/setbuy", "1000", "hello" from one user: the price is stored and confirmed, the entry
   * leaves the queue, and the unknown text then gets no reply.
   */
  method RegisterBuyAlert() returns (replies: seq<Option<string>>, queue: map<int, Pending>, rows: Table)
    ensures replies == [Some(Prompt(Buy)), Some(Confirmation(Buy, 1000)), None]
    ensures queue == map[] && rows == map[ALERT := DATE]
  {
    var store := new AlertStore();
    var bot := new Bot(store);
    var env := Env(DATE, Healthy, Unreachable);
    var r1 := bot.Receive(USER, "/setbuy", env);
    assert Atoi("1000") == AtoiResult(1000, None) by {
      assert DigitsValue("1000") == 1000 by {
        assert "1000"[..3] == "100" && "100"[..2] == "10" && "10"[..1] == "1" && "1"[..0] == "";
      }
    }
    var r2 := bot.Receive(USER, "1000", env);
    var r3 := bot.Receive(USER, "hello", env);
    replies, queue, rows := [r1, r2, r3], bot.queue, store.rows;
  }

  /** The buy alert at 1000 and a tick at quote (1,040 / 1,050): 1000 is below the sell quote. */
  method TickAboveAlert() returns (sent: seq<Notice>, running: bool, rows: Table)
    ensures sent == [] && running
    ensures rows == map[ALERT := DATE]
  {
    var store := new AlertStore();
    store.Insert(ALERT.0, ALERT.1, ALERT.2, DATE);
    var q := Quote(1040, 1050);
    GroupedPageParses(q);
    ghost var before, order := store.rows, [];
    sent, running, order := Tick(store, Page(Grouped(q.buy), Grouped(q.sell)), NoTickFault);
    AboveAlertOutcome(before, store.rows, q, sent, running, order);
    rows := store.rows;
  }

  lemma AboveAlertOutcome(before: Table, after: Table, q: Quote, sent: seq<Notice>, running: bool,
                          order: seq<Key>)
    requires before == map[ALERT := DATE] && q == Quote(1040, 1050)
    requires TickOutcome(before, after, q, NoTickFault, sent, running, order)
    ensures sent == [] && running && after == before
  {
    assert MatchingKeys(before, q) == {};
    FaultFreeTick(before, after, q, sent, running, order);
  }

  /** The buy alert at 1000 and a tick at quote (940 / 950): it fires once and is removed. */
  method TickBelowAlert() returns (sent: seq<Notice>, running: bool, rows: Table)
    ensures sent == [Notice(USER, AlertText(ALERT, Quote(940, 950)))] && running
    ensures rows == map[]
  {
    var store := new AlertStore();
    store.Insert(ALERT.0, ALERT.1, ALERT.2, DATE);
    var q := Quote(940, 950);
    PlainPageParses(q);
    ghost var before, order := store.rows, [];
    sent, running, order := Tick(store, Page(Itoa(q.buy), Itoa(q.sell)), NoTickFault);
    BelowAlertOutcome(before, store.rows, q, sent, running, order);
    rows := store.rows;
  }

  lemma BelowAlertOutcome(before: Table, after: Table, q: Quote, sent: seq<Notice>, running: bool,
                          order: seq<Key>)
    requires before == map[ALERT := DATE] && q == Quote(940, 950)
    requires TickOutcome(before, after, q, NoTickFault, sent, running, order)
    ensures sent == [Notice(USER, AlertText(ALERT, q))] && running && after == map[]
  {
    assert MatchingKeys(before, q) == {ALERT};
    FaultFreeTick(before, after, q, sent, running, order);
    SingleRowScan(order, ALERT);
    SendsOne(ALERT, q);
    NoticesSnoc([], ALERT, q);
  }

  /** A scan without repeats over the one key k lists just k. */
  lemma SingleRowScan(order: seq<Key>, k: Key)
    requires Distinct(order) && KeySet(order) == {k}
    ensures order == [k]
  {
    DistinctKeys(order);
    assert order[0] in KeySet(order);
  }
}
