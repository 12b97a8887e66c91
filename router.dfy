/**
 * The conversation router: the body of the main message loop, the two set handlers
 * (SetBuyCommand / SetSellCommand) and the fixed replies.
 */
module Router {
  import opened Wrappers
  import opened Strconv
  import opened Quotes
  import opened Alerts

  /** The handler queued for a user: SetBuyCommand or SetSellCommand. */
  datatype Pending = Buy | Sell

  /** How the transaction of a set handler goes, apart from the parse. */
  datatype StoreFault =
    | Healthy
      /** Begin or Prepare fails: this happens before the text is parsed. */
    | OpenFails(msg: string)
      /** Exec or Commit fails: this happens after a successful parse; nothing is written. */
    | WriteFails(msg: string)

  /** What one message sees from the outside world: the clock, the database and the price page. */
  datatype Env = Env(date: string, fault: StoreFault, page: Page)

  const HELP_TEXT := "\n 這是玉山銀行金價查詢機器人，您可以照著指令設定 \n /setbuy - 設定買入價格(達到此價格會訊息通知)\n /setsell - 設定賣出價格(達到此價格會訊息通知)\n /now - 查詢現有金價"

  /** The row type each handler writes. */
  function RowType(p: Pending): string {
    match p
    case Buy => BUY
    case Sell => SELL
  }

  /** The prompt /setbuy and /setsell send. */
  function Prompt(p: Pending): string {
    match p
    case Buy => "請輸入想要買入的數字"
    case Sell => "請輸入想要賣出的數字"
  }

  /** SETBUYERROR and SETSELLERROR. */
  function InputError(p: Pending): string {
    match p
    case Buy => "請輸入要購買的數字"
    case Sell => "請輸入要賣出的數字"
  }

  /** The reply once a threshold has been stored. */
  function Confirmation(p: Pending, price: int): string {
    match p
    case Buy => "設定的買價為 " + Itoa(price) + " 成功"
    case Sell => "設定的賣價為 " + Itoa(price) + " 成功"
  }

  /**
   * The outcome of a set handler's transaction: the price it writes, or the text of the
   * error it returns.
   */
  function Decide(p: Pending, text: string, fault: StoreFault): (r: Result<int, string>)
    ensures r.Success? <==> fault == Healthy && Atoi(text).err == None
    ensures r.Success? ==> Atoi(text) == AtoiResult(r.value, None) && InInt64(r.value)
    ensures !fault.OpenFails? && Atoi(text).err.Some? ==> r == Failure(InputError(p))
    ensures fault.OpenFails? ==> r == Failure(fault.msg)
    ensures fault.WriteFails? && Atoi(text).err == None ==> r == Failure(fault.msg)
  {
    if fault.OpenFails? then Failure(fault.msg)
    else
      var parsed := Atoi(text);
      if parsed.err.Some? then Failure(InputError(p))
      else if fault.WriteFails? then Failure(fault.msg)
      else Success(parsed.value)
  }

  /** Typing the decimal form of a price registers exactly that price. */
  lemma DecideDecimal(p: Pending, price: int)
    requires InInt64(price)
    ensures Decide(p, Itoa(price), Healthy) == Success(price)
  {
    ItoaRoundTrip(price);
  }

  /** SetBuyCommand / SetSellCommand: open a transaction, parse the text, insert the row, commit. */
  method SetCommand(store: AlertStore, p: Pending, uid: int, text: string, date: string, fault: StoreFault)
    returns (msg: string, err: Option<string>)
    requires store.Valid()
    modifies store
    ensures store.Valid()
    ensures var r := Decide(p, text, fault);
      if r.Success? then
        err == None && msg == Confirmation(p, r.value) &&
        store.rows == old(store.rows)[(uid, RowType(p), r.value) := date]
      else
        err == Some(r.error) && msg == "" && store.rows == old(store.rows)
  {
    msg := "";
    if fault.OpenFails? {
      return msg, Some(fault.msg);
    }
    var parsed := Atoi(text);
    if parsed.err.Some? {
      return msg, Some(InputError(p));
    }
    if fault.WriteFails? {
      return msg, Some(fault.msg);
    }
    store.Insert(uid, RowType(p), parsed.value, date);
    msg := Confirmation(p, parsed.value);
    err := None;
  }

  /** The bot's message loop: the per-user queue of pending handlers and the shared table. */
  class Bot {
    var queue: map<int, Pending>
    const store: AlertStore

    constructor (store: AlertStore)
      ensures this.store == store && queue == map[]
    {
      this.store := store;
      queue := map[];
    }

    /** One iteration of the loop: route the message (uid, text) and return what is sent back. */
    method Receive(uid: int, text: string, env: Env) returns (reply: Option<string>)
      requires store.Valid()
      modifies this, store
      ensures store.Valid()
      // A user with a pending handler: every text goes to it; the entry goes only on success.
      ensures uid in old(queue) ==>
        var p := old(queue)[uid];
        var r := Decide(p, text, env.fault);
        if r.Success? then
          reply == Some(Confirmation(p, r.value)) && queue == old(queue) - {uid} &&
          store.rows == old(store.rows)[(uid, RowType(p), r.value) := env.date]
        else
          reply == Some(r.error) && queue == old(queue) && store.rows == old(store.rows)
      // No pending handler: the exact-match command switch, which never writes the table.
      ensures uid !in old(queue) ==> store.rows == old(store.rows)
      ensures uid !in old(queue) && text == "/help" ==> reply == Some(HELP_TEXT) && queue == old(queue)
      ensures uid !in old(queue) && text == "/now" ==> reply == Some(NowCommand(env.page)) && queue == old(queue)
      ensures uid !in old(queue) && text == "/setsell" ==> reply == Some(Prompt(Sell)) && queue == old(queue)[uid := Sell]
      ensures uid !in old(queue) && text == "/setbuy" ==> reply == Some(Prompt(Buy)) && queue == old(queue)[uid := Buy]
      ensures uid !in old(queue) && text !in {"/help", "/now", "/setsell", "/setbuy"} ==>
        reply == None && queue == old(queue)
    {
      if uid in queue {
        var msg, err := SetCommand(store, queue[uid], uid, text, env.date, env.fault);
        if err.Some? {
          reply := Some(err.value);
        } else {
          reply := Some(msg);
          queue := queue - {uid};
        }
      } else {
        match text
        case "/help" =>
          reply := Some(HELP_TEXT);
        case "/now" =>
          reply := Some(NowCommand(env.page));
        case "/setsell" =>
          queue := queue[uid := Sell];
          reply := Some(Prompt(Sell));
        case "/setbuy" =>
          queue := queue[uid := Buy];
          reply := Some(Prompt(Buy));
        case _ =>
          reply := None;
      }
    }
  }
}
