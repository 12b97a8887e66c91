# E.SUN gold-price Telegram bot — a Dafny model

`e3goldbot.go` is a Telegram bot that watches the E.SUN Bank gold-passbook
price. A user can ask for the current quote (`/now`), read the help text
(`/help`), or register a price alert (`/setbuy`, `/setsell`). After that command
the bot waits for the user's next message, which should be the price. Alerts are
rows `(uid, type, price, date)` in an SQLite table, and `(uid, type, price)` is
unique, so inserting the same key again replaces the row. Every five minutes a
background loop fetches the quote and selects the alerts it triggers. It sends
one notification per row and then deletes the rows it notified.

The model has these modules:

- `Strconv` — Go's `strconv.Atoi` (optional sign, ASCII digits read left to
  right, int64 range; a syntax error gives 0 and a range error gives the
  bound on the side of the sign, including when the leading digits pass the
  uint64 maximum before a character outside the grammar is reached) and
  `strconv.Itoa`. It proves that decimal rendering round-trips.
- `Strings` — `strings.Replace(s, ",", "", 1)`, i.e. removing only the
  first occurrence of a character.
- `Quotes` — `queryE3` and `NowCommand`. The scraped page is a value
  (`Unreachable`, or the two figure texts).
- `Alerts` — the alert table as a class `AlertStore` holding a `map` from
  `(uid, type, price)` to the date. It has insert-with-replace, delete of one
  key, and the trigger condition of the periodic query.
- `Router` — the main loop's per-message routing as a class `Bot`. Its field
  `queue` maps a uid to the pending command, and `SetCommand` models
  `SetBuyCommand`/`SetSellCommand`.
- `Ticker` — one tick of `autoQuery`: quote, scan the matching rows,
  notify, delete.
- `Scenario` — short end-to-end runs of the bot and the ticker with
  concrete values.

Clock, database faults and the web page are parameters. `Env` carries the
date string, a `StoreFault` (opening the transaction fails, or the
write/commit fails) and the page. `Tick` takes a `TickFault`: the SELECT
fails, `rows.Scan` fails on row `i`, or `rows.Next` fails after `i` rows. The SELECT has no ORDER BY, so `ScanRows`
visits the matching rows in an order it chooses and returns them in that
order, as the slice `a` collects them. `NotifyMatches` and `Tick` pass that
order on as a ghost sequence, and every postcondition holds for any order.

The model follows the code as written. Some consequences worth knowing:

- A BUY alert fires when its price is **at least** the bank's sell price.
  A SELL alert fires when its price is **at most** the bank's buy price
  (e3goldbot.go:198, 206). For example, a BUY alert at 1000 fires on a sell
  quote of 950 and not on one of 1050 (`Scenario.TickBelowAlert`,
  `Scenario.TickAboveAlert`).
- A pending command is removed only when its handler succeeds. On any
  error the user stays pending and gets the error text (e3goldbot.go:150-157).
- If the quote cannot be fetched, the tick loop returns for good
  (e3goldbot.go:194-196). So do a SELECT failure and a scan failure.
- `/now` sends an empty message when the quote fails (e3goldbot.go:112-115,
  165-166).
- queryE3 removes only the first comma of each figure. Only the sell
  figure's parse error is checked, because the second `Atoi` overwrites `err`
  (e3goldbot.go:242-246). A buy figure that is not a number passes through
  as 0, and one whose leading digits overflow passes through as the int64
  maximum, whatever follows them.
- `rows.Err()` is never read (e3goldbot.go:211-228). A `rows.Next` that fails
  ends the scan like the end of the rows: the rows scanned so far are
  notified and deleted, the rest are kept, and the loop keeps running.
- The table declares no column types. The BUY/SELL typing of every row is an
  invariant of `AlertStore`, because the only writers insert those two types.
- The tick deletes five placeholder zero keys `(0, "", 0)` in addition to the
  notified rows (e3goldbot.go:205, 229-231). No real row has that key.

## Model

| member | source | states |
|---|---|---|
| Strconv.Atoi | e3goldbot.go:242-243 | the result is always in int64 range; when the digits after the sign pass the uint64 maximum before any other character, the result is a range error whatever follows; otherwise a syntax error happens exactly when the text is not a sign followed by digits, and then the value is 0; with no error the value is the number the text denotes; a range error gives the int64 bound on the side of the sign |
| Strconv.OverflowIgnoresRest | e3goldbot.go:242-243 | digits past the uint64 maximum followed by anything give the int64 maximum with a range error, and with a '-' in front the int64 minimum |
| Strconv.Itoa | e3goldbot.go:65 | a '-' in front of a negative number, then the shortest decimal digits of its magnitude; its properties are stated by NatToDecimal and ItoaRoundTrip |
| Strconv.NatToDecimal | e3goldbot.go:65 | Itoa's digits are non-empty ASCII digits with no leading zero, and they denote the number |
| Strconv.ItoaRoundTrip | e3goldbot.go:46-65 | parsing the decimal rendering of any int64 gives that number with no error |
| Strconv.CommaRejected | e3goldbot.go:242-243 | a text still holding a comma always fails Atoi; unless the digits before the comma overflow, it is a syntax error with value 0 |
| Strings.IndexOf | e3goldbot.go:242 | the index of the first occurrence of the character, or the length when it is absent; no earlier occurrence |
| Strings.RemoveFirst | e3goldbot.go:242-243 | with no occurrence the text is unchanged; otherwise exactly the first occurrence is cut out and everything else is kept in order |
| Strings.RemoveFirstAfterPrefix | e3goldbot.go:242-243 | a prefix holding no comma is kept whole, and the comma removed is the first one after it |
| Strings.RemoveFirstKeepsLater | e3goldbot.go:242-243 | a second occurrence of the character survives the removal |
| Quotes.QueryE3 | e3goldbot.go:237-251 | an unreachable page fails with the fetch error; otherwise the query fails exactly when the sell figure does not parse; on success the sell figure parses to the sell price with no error, the buy price is whatever Atoi gave for the buy figure, and it is 0 when that figure has a syntax error |
| Quotes.ParseFigure | e3goldbot.go:242-243 | one figure's conversion: Atoi of the text with its first comma removed; its results are stated by GroupedFigureParses, PlainFigureParses and TwoSeparatorsFail |
| Quotes.NowText | e3goldbot.go:116 | the /now text for a quote: "玉山買進:", the buy price, " \n 玉山賣出:", the sell price, in decimal |
| Quotes.NowCommand | e3goldbot.go:111-118 | the reply is empty exactly when the query fails; otherwise it is the buy/sell text of the quote |
| Quotes.GroupedFigureParses | e3goldbot.go:242-243 | a figure in 1,000..999,999 written with one thousands separator parses to its value |
| Quotes.PlainFigureParses | e3goldbot.go:242-243 | a figure written with no separator parses to its value |
| Quotes.GroupedPageParses | e3goldbot.go:237-251 | a page showing both prices (1,000 to 999,999) in grouped form yields exactly that quote |
| Quotes.PlainPageParses | e3goldbot.go:237-251 | a page showing both int64 prices as plain digits yields exactly that quote |
| Quotes.TwoSeparatorsFail | e3goldbot.go:242-246 | a sell figure with two commas makes the whole query fail, whatever the buy figure is: with a syntax error, or a range error when the digits before the second comma overflow |
| Quotes.OverflowingBuyPassesThrough | e3goldbot.go:242-250 | a buy figure whose leading digits overflow, beside a good sell figure, gives a successful query with the int64 maximum as the buy price |
| Alerts.BUY | e3goldbot.go:18-21 | the type text "BUY" stored in the table and compared by the tick |
| Alerts.SELL | e3goldbot.go:18-21 | the type text "SELL" stored in the table and compared by the tick |
| Alerts.ZERO_KEY | e3goldbot.go:182-186 | the key of a zero e3gold value: uid 0, type "", price 0 |
| Alerts.AlertStore.constructor | e3goldbot.go:126-128 | a new store is an empty, well-typed table |
| Alerts.AlertStore.Insert | e3goldbot.go:126-128 | the table afterwards is the old table with key (uid, type, price) set to the date, replacing any earlier row with that key |
| Alerts.AlertStore.Remove | e3goldbot.go:252-269 | the table afterwards is the old table without key (uid, type, price); deleting an absent key changes nothing |
| Alerts.InsertReplaces | e3goldbot.go:127 | inserting the same key twice leaves one row, holding the second date |
| Alerts.DifferentPricesCoexist | e3goldbot.go:127 | alerts of one user and type at two different prices are both kept |
| Alerts.Matches | e3goldbot.go:198-206 | the WHERE clause with the quote bound: a BUY row at or above the sell price, or a SELL row at or below the buy price; its boundaries are stated by MatchBoundaries |
| Alerts.MatchingKeys | e3goldbot.go:198-206 | the keys of the table's rows that the SELECT returns |
| Alerts.MatchBoundaries | e3goldbot.go:198-206 | a BUY alert matches exactly when its price is at least the sell price, a SELL alert exactly when its price is at most the buy price, and a row of any other type never matches |
| Alerts.ZeroKeyAbsent | e3goldbot.go:205-231 | a well-typed table never holds the placeholder key (0, "", 0) |
| Router.RowType | e3goldbot.go:52-88 | the type a pending command writes: BUY for /setbuy's handler, SELL for /setsell's |
| Router.HELP_TEXT | e3goldbot.go:107 | the /help reply, character for character |
| Router.Prompt | e3goldbot.go:168-175 | the reply to /setsell and /setbuy asking for the price |
| Router.InputError | e3goldbot.go:24-25 | the error text a non-numeric price gets, one per command |
| Router.Confirmation | e3goldbot.go:64-65 | the success reply: the command's wording, the price in decimal, then " 成功" |
| Router.Decide | e3goldbot.go:34-104 | the handler succeeds exactly when the store is healthy and the text parses; then the price is the parsed int64; a failing transaction open reports its own error first; on a healthy open an unparsable text reports the command's input error; a failing write after a good parse reports the write error |
| Router.DecideDecimal | e3goldbot.go:46-65 | with a healthy store, any int64 price sent as plain digits is accepted as that price |
| Router.SetCommand | e3goldbot.go:34-104 | on success the reply is the confirmation with the price and the row (uid, type, price) is inserted with the date; on failure the error is returned and the table is unchanged |
| Router.Bot.constructor | e3goldbot.go:147 | a new bot has no pending users |
| Router.Bot.Receive | e3goldbot.go:147-179 | a pending user's message runs the pending handler: on success the user is cleared and the confirmation sent, on error the error text is sent and the user stays pending; otherwise /help sends the help text, /now the quote text, /setsell and /setbuy make the user pending and prompt, and any other text sends nothing; only a successful handler touches the table |
| Ticker.AlertText | e3goldbot.go:219-224 | the notification for a matched row: a BUY row names its price and the sell quote, any other row its price and the buy quote |
| Ticker.Sends | e3goldbot.go:219-224 | the messages for one scanned row: one for BUY, one for SELL, to the row's user; stated by SendsOne |
| Ticker.Notices | e3goldbot.go:211-227 | the messages of a whole scan, row by row in scan order; stated by NoticesOnePerRow |
| Ticker.SendsOne | e3goldbot.go:218-224 | a row of type BUY or SELL yields exactly one message, addressed to the row's user |
| Ticker.NoticesOnePerRow | e3goldbot.go:211-227 | the messages of a scan are one per scanned row, in scan order, each addressed to that row's user with that row's alert text |
| Ticker.ScanRows | e3goldbot.go:211-227 | the rows are visited without repetition, all from the matching set; the messages are those of the visited rows; the scan fails exactly when Scan fails on a row index below the number of matching rows; when Scan or Next fails at such an index, exactly that many rows were visited; otherwise every matching row is visited |
| Ticker.PLACEHOLDERS | e3goldbot.go:205 | the five zero entries a starts with |
| Ticker.PlaceholdersRemoveNothing | e3goldbot.go:225-231 | deleting the five placeholder keys as well removes the same rows from a well-typed table as deleting the scanned keys alone |
| Ticker.RemoveAll | e3goldbot.go:229-231 | the table afterwards is the old table minus every listed key |
| Ticker.NotifyMatches | e3goldbot.go:198-232 | the tick outcome for the quote: a failing SELECT sends nothing, stops the loop and keeps the table; otherwise one message per scanned row without repeats; a failed Scan stops the loop and deletes nothing; a failed Next keeps it running and deletes just the rows scanned before it; a complete scan notifies and deletes exactly the matching rows and keeps running |
| Ticker.Tick | e3goldbot.go:192-232 | a failed quote sends nothing, stops the loop and keeps the table; on a good quote the tick has the same outcome as NotifyMatches on that quote |
| Ticker.FaultFreeTick | e3goldbot.go:211-231 | with no database fault, a tick sends as many messages as there are matching rows, each once, deletes exactly those rows and keeps running |
| Scenario.RetryStaysPending | e3goldbot.go:150-174 | /setbuy, then "abc", then /setbuy again: prompt, then the input error twice (the second /setbuy is read as a price, since the user stays pending), the user still pending and no row stored |
| Scenario.RegisterBuyAlert | e3goldbot.go:147-179 | /setbuy then "1000" then another text: prompt, confirmation, silence; no user pending and exactly the alert row stored |
| Scenario.TickAboveAlert | e3goldbot.go:192-232 | a quote with sell price 1,050 (with separator) does not trigger a BUY alert at 1000: nothing sent, loop running, row kept |
| Scenario.TickBelowAlert | e3goldbot.go:192-232 | a quote with sell price 950 triggers the BUY alert at 1000: exactly its one message is sent, loop running, table emptied |

## Left out

- The Telegram transport (`NewBot`, `Listen`, `SendMessage`) is not modelled. Messages sent become return values, and a reply of `None` means nothing is sent.
- The HTTP fetch and the DOM navigation of the bank page are not modelled. The page is the input `Page`, holding the two figure texts or `Unreachable`.
- SQLite itself is not modelled: transactions, prepared statements, `Close`, and the transaction left open when a price does not parse. Database failures are the inputs `StoreFault` and `TickFault`, and their error text is a parameter.
- `remove`'s own error return is not modelled. The tick ignores it, so `Alerts.AlertStore.Remove` always succeeds. The nil `stmt.Close()` after a failed Prepare in `remove` is not modelled.
- `time.Now().Format(...)` is not modelled; the date string is a parameter.
- The five-minute ticker and the goroutine running beside the message loop are not modelled. Each `Tick` and each `Receive` is one atomic step, and `running = false` stands for the loop's `return`.
- Flag parsing, `init`'s table creation and its `panic`, and `main`'s startup are not modelled.
- Logging (`log.Println`) and the text of `strconv.NumError` are not modelled, because they are only logged.
- The unused `Commander` interface is left out.
- Go strings are byte strings, while the model uses `seq<char>`. `Atoi` and the comma removal only inspect ASCII characters, so the two agree on every input the model accepts. The reply texts are kept as written.
- Whether Telegram rejects the empty message `/now` sends on failure is not modelled. The model returns that empty reply.
