/**
 * The price source: queryE3 turns the two figures scraped from the bank's gold passbook page
 * into a (buy, sell) quote, and NowCommand formats that quote for the /now reply.
 */
module Quotes {
  import opened Wrappers
  import opened Strconv
  import opened Strings

  /** What the HTTP fetch and the DOM navigation give: the two figures as text, or a failure. */
  datatype Page = Unreachable | Page(buyText: string, sellText: string)

  /** The bank's buying and selling price, as the r["e3buy"] / r["e3sell"] entries. */
  datatype Quote = Quote(buy: int, sell: int)

  datatype QueryError = FetchError | SellParseError(cause: NumError)

  /** Drop the first thousands separator of a scraped figure and convert it. */
  function ParseFigure(text: string): AtoiResult {
    Atoi(RemoveFirst(text, ','))
  }

  /**
   * queryE3. Both figures are converted, but the second conversion overwrites the error of the
   * first, so only the sell figure can make the query fail; a bad buy figure leaves Atoi's
   * failure value (0 for a syntax error, the int64 bound for a range error) in the buy slot.
   */
  function QueryE3(page: Page): (r: Result<Quote, QueryError>)
    ensures r.Failure? <==> page.Unreachable? || ParseFigure(page.sellText).err.Some?
    ensures page.Unreachable? ==> r == Failure(FetchError)
    ensures r.Success? ==> ParseFigure(page.sellText) == AtoiResult(r.value.sell, None)
    ensures r.Success? ==> r.value.buy == ParseFigure(page.buyText).value
    ensures r.Success? && ParseFigure(page.buyText).err == Some(ErrSyntax) ==> r.value.buy == 0
  {
    match page
    case Unreachable => Failure(FetchError)
    case Page(buyText, sellText) =>
      var buy := ParseFigure(buyText);
      var sell := ParseFigure(sellText);
      if sell.err.Some? then Failure(SellParseError(sell.err.value))
      else Success(Quote(buy.value, sell.value))
  }

  /** The /now reply text for a quote, as fmt.Sprintf("玉山買進:%d \n 玉山賣出:%d", ...) writes it. */
  function NowText(q: Quote): string {
    "玉山買進:" + Itoa(q.buy) + " \n 玉山賣出:" + Itoa(q.sell)
  }

  /** NowCommand: the formatted quote, or "" (the unset msg) when the query failed. */
  function NowCommand(page: Page): (msg: string)
    ensures msg == "" <==> QueryE3(page).Failure?
    ensures QueryE3(page).Success? ==> msg == NowText(QueryE3(page).value)
  {
    var r := QueryE3(page);
    if r.Failure? then "" else NowText(r.value)
  }

  /** Three digits with leading zeros, as the figure after a thousands separator is written. */
  function ThreeDigits(m: nat): (s: string)
    requires m < 1000
    ensures |s| == 3 && AllDigits(s)
  {
    [DigitChar(m / 100), DigitChar(m / 10 % 10), DigitChar(m % 10)]
  }

  /** A figure between 1,000 and 999,999 written with its thousands separator. */
  function Grouped(n: nat): string
    requires 1000 <= n < 1000000
  {
    NatToDecimal(n / 1000) + "," + ThreeDigits(n % 1000)
  }

  lemma ThreeDigitsValue(m: nat)
    requires m < 1000
    ensures DigitsValue(ThreeDigits(m)) == m
  {
    var s := ThreeDigits(m);
    assert s[..2][..1] == [s[0]] && s[..1][..0] == [];
    assert DigitsValue(s[..1]) == m / 100;
    assert DigitsValue(s[..2]) == m / 100 * 10 + m / 10 % 10;
    assert m / 10 == m / 100 * 10 + m / 10 % 10;
    assert m == m / 10 * 10 + m % 10;
  }

  lemma DigitsAppendThree(a: string, b: string)
    requires AllDigits(a) && AllDigits(b) && |b| == 3
    ensures AllDigits(a + b)
    ensures DigitsValue(a + b) == DigitsValue(a) * 1000 + DigitsValue(b)
  {
    var s := a + b;
    var x, d0, d1, d2 := DigitsValue(a), DigitValue(b[0]), DigitValue(b[1]), DigitValue(b[2]);
    assert s[..|s| - 1] == a + b[..2];
    assert (a + b[..2])[..|a| + 1] == a + b[..1];
    assert (a + b[..1])[..|a|] == a;
    assert b[..1][..0] == [];
    assert DigitsValue(a + b[..1]) == x * 10 + d0;
    assert DigitsValue(a + b[..2]) == (x * 10 + d0) * 10 + d1;
    assert DigitsValue(s) == ((x * 10 + d0) * 10 + d1) * 10 + d2;
    assert b[..|b| - 1] == b[..2] && b[..2][..|b[..2]| - 1] == b[..1];
    assert DigitsValue(b[..1]) == d0;
    assert DigitsValue(b[..2]) == d0 * 10 + d1;
    assert DigitsValue(b) == (d0 * 10 + d1) * 10 + d2;
  }

  /** The first comma after a run of digits is the one right behind it. */
  lemma CommaAfterDigits(hi: string, lo: string)
    requires AllDigits(hi)
    ensures IndexOf(hi + "," + lo, ',') == |hi|
    ensures RemoveFirst(hi + "," + lo, ',') == hi + lo
  {
    var g := hi + "," + lo;
    assert g[..|hi|] == hi && g[|hi|] == ',';
    assert g[..|hi|] + g[|hi| + 1..] == hi + lo;
  }

  /** A figure with one thousands separator (the bank's format below a million) parses to its value. */
  lemma GroupedFigureParses(n: nat)
    requires 1000 <= n < 1000000
    ensures ParseFigure(Grouped(n)) == AtoiResult(n, None)
  {
    var hi, lo := NatToDecimal(n / 1000), ThreeDigits(n % 1000);
    CommaAfterDigits(hi, lo);
    DigitsAppendThree(hi, lo);
    ThreeDigitsValue(n % 1000);
    var s := hi + lo;
    assert !HasSign(s) by { assert IsDigit(s[0]); }
    assert DigitsValue(s) == n;
  }

  /** A figure written without a separator parses to its value too. */
  lemma PlainFigureParses(n: int)
    requires InInt64(n)
    ensures ParseFigure(Itoa(n)) == AtoiResult(n, None)
  {
    ItoaRoundTrip(n);
  }

  /** A page showing both prices in the bank's grouped format yields exactly that quote. */
  lemma GroupedPageParses(q: Quote)
    requires 1000 <= q.buy < 1000000 && 1000 <= q.sell < 1000000
    ensures QueryE3(Page(Grouped(q.buy), Grouped(q.sell))) == Success(q)
  {
    GroupedFigureParses(q.buy);
    GroupedFigureParses(q.sell);
  }

  /** A page showing both prices without separators yields exactly that quote. */
  lemma PlainPageParses(q: Quote)
    requires InInt64(q.buy) && InInt64(q.sell)
    ensures QueryE3(Page(Itoa(q.buy), Itoa(q.sell))) == Success(q)
  {
    PlainFigureParses(q.buy);
    PlainFigureParses(q.sell);
  }

  /**
   * A sell figure with two separators (a million or more) makes the whole query fail: with a
   * syntax error at the comma left in, or a range error when the digits before it overflow.
   */
  lemma TwoSeparatorsFail(buyText: string, sellText: string, j: int)
    requires 0 <= IndexOf(sellText, ',') < j < |sellText| && sellText[j] == ','
    ensures !Overflows(RemoveFirst(sellText, ',')) ==>
      QueryE3(Page(buyText, sellText)) == Failure(SellParseError(ErrSyntax))
    ensures Overflows(RemoveFirst(sellText, ',')) ==>
      QueryE3(Page(buyText, sellText)) == Failure(SellParseError(ErrRange))
  {
    var r := RemoveFirst(sellText, ',');
    RemoveFirstKeepsLater(sellText, ',', j);
    var k :| 0 <= k < |r| && r[k] == ',';
    CommaRejected(r, k);
  }

  /**
   * A buy figure whose leading digits overflow is not an error for queryE3: the buy slot holds
   * the int64 maximum, whatever follows the digits.
   */
  lemma OverflowingBuyPassesThrough(digits: string, rest: string, sellText: string)
    requires AllDigits(digits) && DigitsValue(digits) > MAX_UINT64
    requires ParseFigure(sellText).err == None
    ensures QueryE3(Page(digits + rest, sellText)) == Success(Quote(MAX_INT64, ParseFigure(sellText).value))
  {
    assert ',' !in digits;
    RemoveFirstAfterPrefix(digits, rest, ',');
    OverflowIgnoresRest(digits, RemoveFirst(rest, ','));
  }
}
