/**
 The event taxonomy of the trading pipeline (event/event.py): a market update,
 a strategy signal, an order for the execution system and a fill reported by
 the brokerage. Each variant carries a fixed string discriminant (the `type`
 attribute of the Python objects) and stores its constructor arguments
 verbatim; nothing is validated, so every constructor is total.

 The fill's timestamp and its price and commission are the opaque type
 parameters `Time` and `Money`; quantities are unbounded integers.
 */
module Events {
  import opened Wrappers
  import opened Decimal

  datatype Event<Time, Money> =
    | Market
    | Signal(ticker: string, action: string)
    | Order(ticker: string, action: string, quantity: int)
    | Fill(timestamp: Time, ticker: string, action: string, quantity: int,
           exchange: string, price: Money, commission: Money)

  const MarketTag: string := "MARKET"
  const SignalTag: string := "SIGNAL"
  const OrderTag: string := "ORDER"
  const FillTag: string := "FILL"

  /** The `type` discriminant of an event. */
  function TypeTag<Time, Money>(e: Event<Time, Money>): (tag: string)
    ensures tag == MarketTag <==> e.Market?
    ensures tag == SignalTag <==> e.Signal?
    ensures tag == OrderTag <==> e.Order?
    ensures tag == FillTag <==> e.Fill?
  {
    match e
    case Market => MarketTag
    case Signal(_, _) => SignalTag
    case Order(_, _, _) => OrderTag
    case Fill(_, _, _, _, _, _, _) => FillTag
  }

  /** MarketEvent(): no payload. */
  function NewMarketEvent<Time, Money>(): (e: Event<Time, Money>)
    ensures TypeTag(e) == MarketTag
  {
    Market
  }

  /** SignalEvent(ticker, action). */
  function NewSignalEvent<Time, Money>(ticker: string, action: string): (e: Event<Time, Money>)
    ensures TypeTag(e) == SignalTag
    ensures e.ticker == ticker && e.action == action
  {
    Signal(ticker, action)
  }

  /** OrderEvent(ticker, action, quantity). */
  function NewOrderEvent<Time, Money>(ticker: string, action: string, quantity: int): (e: Event<Time, Money>)
    ensures TypeTag(e) == OrderTag
    ensures e.ticker == ticker && e.action == action && e.quantity == quantity
  {
    Order(ticker, action, quantity)
  }

  /** FillEvent(timestamp, ticker, action, quantity, exchange, price, commission). */
  function NewFillEvent<Time, Money>(
    timestamp: Time, ticker: string, action: string, quantity: int,
    exchange: string, price: Money, commission: Money): (e: Event<Time, Money>)
    ensures TypeTag(e) == FillTag
    ensures e.timestamp == timestamp && e.ticker == ticker && e.action == action
    ensures e.quantity == quantity && e.exchange == exchange
    ensures e.price == price && e.commission == commission
  {
    Fill(timestamp, ticker, action, quantity, exchange, price, commission)
  }

  predicate SameVariant<Time, Money>(e1: Event<Time, Money>, e2: Event<Time, Money>) {
    || (e1.Market? && e2.Market?)
    || (e1.Signal? && e2.Signal?)
    || (e1.Order? && e2.Order?)
    || (e1.Fill? && e2.Fill?)
  }

  /** The four discriminants are pairwise distinct. */
  lemma TagsDistinct()
    ensures MarketTag != SignalTag && MarketTag != OrderTag && MarketTag != FillTag
    ensures SignalTag != OrderTag && SignalTag != FillTag && OrderTag != FillTag
  {
  }

  /** Two events carry the same discriminant exactly when they are the same variant. */
  lemma TagDeterminesVariant<Time, Money>(e1: Event<Time, Money>, e2: Event<Time, Money>)
    ensures TypeTag(e1) == TypeTag(e2) <==> SameVariant(e1, e2)
  {
    TagsDistinct();
  }

  /**
   Every event is what one of the four constructors builds from its own
   fields: there is no event outside the four variants.
   */
  lemma EveryEventIsConstructed<Time, Money>(e: Event<Time, Money>)
    ensures TypeTag(e) in {MarketTag, SignalTag, OrderTag, FillTag}
    ensures e.Market? ==> e == NewMarketEvent()
    ensures e.Signal? ==> e == NewSignalEvent(e.ticker, e.action)
    ensures e.Order? ==> e == NewOrderEvent(e.ticker, e.action, e.quantity)
    ensures e.Fill? ==> e == NewFillEvent(e.timestamp, e.ticker, e.action, e.quantity,
                                          e.exchange, e.price, e.commission)
  {
  }

  // ---------------------------------------------------------------------
  // The one-line order summary of OrderEvent.print_order

  const OrderPrefix: string := "Order: Ticker="
  const ActionLabel: string := ", Action="
  const QuantityLabel: string := ", Quantity="

  predicate StartsWith(s: string, p: string) {
    |p| <= |s| && s[..|p|] == p
  }

  /**
   The text print_order writes: the ticker and the action verbatim and the
   quantity as Python's str renders it, behind fixed labels.
   */
  function FormatOrder(ticker: string, action: string, quantity: int): (s: string)
    ensures |s| == |OrderPrefix| + |ticker| + |ActionLabel| + |action| + |QuantityLabel| + |IntToString(quantity)|
    ensures StartsWith(s, OrderPrefix)
  {
    OrderPrefix + ticker + ActionLabel + action + QuantityLabel + IntToString(quantity)
  }

  /**
   The exact layout of the summary: the prefix, the ticker, the action label,
   the action, the quantity label and the rendered quantity, each at its
   offset and nothing else.
   */
  lemma FormatOrderLayout(ticker: string, action: string, quantity: int)
    ensures var s := FormatOrder(ticker, action, quantity);
      var a := |OrderPrefix| + |ticker|;
      var b := a + |ActionLabel|;
      var c := b + |action|;
      var d := c + |QuantityLabel|;
      && s[..|OrderPrefix|] == OrderPrefix
      && s[|OrderPrefix|..a] == ticker
      && s[a..b] == ActionLabel
      && s[b..c] == action
      && s[c..d] == QuantityLabel
      && s[d..] == IntToString(quantity)
  {
    // Kept apart from FormatOrder's contract: as postconditions these slice
    // facts would be in scope at every use of FormatOrder and slow its callers.
  }

  /** The summary print_order produces for an order event. */
  function OrderSummary<Time, Money>(e: Event<Time, Money>): (s: string)
    requires e.Order?
    ensures StartsWith(s, OrderPrefix)
    ensures ',' !in e.ticker && ',' !in e.action ==>
              ParseOrderSummary(s) == Some(OrderFields(e.ticker, e.action, e.quantity))
  {
    OrderSummaryRoundTrip(e.ticker, e.action, e.quantity);
    FormatOrder(e.ticker, e.action, e.quantity)
  }

  datatype OrderFields = OrderFields(ticker: string, action: string, quantity: int)

  /** The position of the first `c` in `s`, or |s| when there is none. */
  function IndexOf(s: string, c: char): (i: nat)
    ensures i <= |s|
    ensures i < |s| ==> s[i] == c
    ensures forall k :: 0 <= k < i ==> s[k] != c
    decreases |s|
  {
    if |s| == 0 then 0
    else if s[0] == c then 0
    else 1 + IndexOf(s[1..], c)
  }

  /** `s` without its leading `p`, if it starts with `p`. */
  function DropPrefix(s: string, p: string): Option<string> {
    if StartsWith(s, p) then Some(s[|p|..]) else None
  }

  /** `s` split before its first comma. */
  function SplitAtComma(s: string): (string, string) {
    var i := IndexOf(s, ',');
    (s[..i], s[i..])
  }

  /**
   Reads an order summary back into its three fields, taking the ticker and
   the action to end at the next comma.
   */
  function ParseOrderSummary(s: string): Option<OrderFields> {
    match DropPrefix(s, OrderPrefix)
    case None => None
    case Some(rest) =>
      var (ticker, afterTicker) := SplitAtComma(rest);
      match DropPrefix(afterTicker, ActionLabel)
      case None => None
      case Some(rest2) =>
        var (action, afterAction) := SplitAtComma(rest2);
        match DropPrefix(afterAction, QuantityLabel)
        case None => None
        case Some(digits) =>
          match ParseInt(digits)
          case None => None
          case Some(q) => Some(OrderFields(ticker, action, q))
  }

  lemma DropPrefixConcat(p: string, u: string)
    ensures DropPrefix(p + u, p) == Some(u)
  {
    assert (p + u)[..|p|] == p;
    assert (p + u)[|p|..] == u;
  }

  lemma SplitBeforeComma(t: string, u: string)
    requires ',' !in t
    requires |u| >= 1 && u[0] == ','
    ensures SplitAtComma(t + u) == (t, u)
  {
    assert (t + u)[|t|] == ',';
    assert forall k :: 0 <= k < |t| ==> (t + u)[k] == t[k];
    assert IndexOf(t + u, ',') == |t|;
    assert (t + u)[..|t|] == t;
    assert (t + u)[|t|..] == u;
  }

  /**
   When neither the ticker nor the action contains a comma, the summary
   determines all three fields of the order.
   */
  lemma OrderSummaryRoundTrip(ticker: string, action: string, quantity: int)
    ensures ',' !in ticker && ',' !in action ==>
              ParseOrderSummary(FormatOrder(ticker, action, quantity))
                == Some(OrderFields(ticker, action, quantity))
  {
    if ',' !in ticker && ',' !in action {
      var n := IntToString(quantity);
      var tail2 := QuantityLabel + n;
      var rest2 := action + tail2;
      var tail1 := ActionLabel + rest2;
      var rest := ticker + tail1;
      assert FormatOrder(ticker, action, quantity) == OrderPrefix + rest;
      DropPrefixConcat(OrderPrefix, rest);
      SplitBeforeComma(ticker, tail1);
      DropPrefixConcat(ActionLabel, rest2);
      SplitBeforeComma(action, tail2);
      DropPrefixConcat(QuantityLabel, n);
      IntRoundTrip(quantity);
    }
  }

  /** Orders that differ only in quantity have different summaries. */
  lemma FormatOrderDistinguishesQuantity(ticker: string, action: string, q1: int, q2: int)
    ensures FormatOrder(ticker, action, q1) == FormatOrder(ticker, action, q2) ==> q1 == q2
  {
    var x := OrderPrefix + ticker + ActionLabel + action + QuantityLabel;
    var s1, s2 := x + IntToString(q1), x + IntToString(q2);
    assert FormatOrder(ticker, action, q1) == s1 && FormatOrder(ticker, action, q2) == s2;
    assert s1[|x|..] == IntToString(q1) && s2[|x|..] == IntToString(q2);
    IntToStringInjective(q1, q2);
  }

  /**
   Without the comma condition the summary is ambiguous: a ticker that
   itself contains the action label reads like a different order.
   */
  lemma SummaryAmbiguousWithCommas()
    ensures FormatOrder("A, Action=B", "C", 1) == FormatOrder("A", "B, Action=C", 1)
  {
  }

  /** The summary of the order ("GOOG", "BOT", 100). */
  lemma GoogOrderSummary()
    ensures FormatOrder("GOOG", "BOT", 100) == "Order: Ticker=GOOG, Action=BOT, Quantity=100"
  {
    assert NatToDigits(1) == "1";
    assert NatToDigits(10) == "10";
    assert NatToDigits(100) == NatToDigits(10) + [DigitChar(0)];
    assert IntToString(100) == "100";
  }
}
