/**
  The message classifier (src/roq/okx/protocol/json/parser.cpp): a walk over the members of a message in
  document order, ended by the first member that decides. Keys are compared as strings.
 */
module Dispatch {
  import opened Wrappers
  import opened Json
  import opened Subscription

  datatype Handler =
    | OnOrder | OnAmendOrder | OnCancelOrder
    | OnError | OnLogin | OnSubscribe | OnUnsubscribe | OnChannelConnCount | OnNotice
    | OnStatus | OnInstruments | OnEstimatedPrice | OnPriceLimit | OnMarkPrice | OnTickers | OnTrades
    | OnBooksL2Tbt | OnBboTbt | OnIndexTickers | OnFundingRate | OnAccount | OnBalanceAndPosition
    | OnPositions | OnOrders | OnCandle

  /** How a walk ends: a handler was called, none was, the process terminated, or an exception was thrown. */
  datatype Outcome = Handled(handler: Handler) | Unhandled | Terminated | Thrown

  // ---------------------------------------------------------------- the tables

  function OperationHandler(text: string): Option<Handler> {
    if text == "order" || text == "batch-orders" then Some(OnOrder)
    else if text == "amend-order" || text == "batch-amend-orders" then Some(OnAmendOrder)
    else if text == "cancel-order" || text == "batch-cancel-orders" then Some(OnCancelOrder)
    else None
  }

  function EventHandler(text: string): Option<Handler> {
    if text == "error" then Some(OnError)
    else if text == "login" then Some(OnLogin)
    else if text == "subscribe" then Some(OnSubscribe)
    else if text == "unsubscribe" then Some(OnUnsubscribe)
    else if text == "channel-conn-count" then Some(OnChannelConnCount)
    else if text == "notice" then Some(OnNotice)
    else None
  }

  function ChannelHandler(text: string): Option<Handler> {
    if text == "status" then Some(OnStatus)
    else if text == "instruments" then Some(OnInstruments)
    else if text == "estimated-price" then Some(OnEstimatedPrice)
    else if text == "price-limit" then Some(OnPriceLimit)
    else if text == "mark-price" then Some(OnMarkPrice)
    else if text == "tickers" then Some(OnTickers)
    else if text == "trades" then Some(OnTrades)
    else if text in {"books5", "books", "books-l2-tbt", "books50-l2-tbt"} then Some(OnBooksL2Tbt)
    else if text == "bbo-tbt" then Some(OnBboTbt)
    else if text == "index-tickers" then Some(OnIndexTickers)
    else if text == "funding-rate" then Some(OnFundingRate)
    else if text == "account" then Some(OnAccount)
    else if text == "balance_and_position" then Some(OnBalanceAndPosition)
    else if text == "positions" then Some(OnPositions)
    else if text == "orders" then Some(OnOrders)
    else if text == "candle1m" then Some(OnCandle)
    else None
  }

  /** The undefined enumerator is fatal, an unknown one is decisive but calls nothing. */
  function Called(v: Value, table: string -> Option<Handler>): Outcome {
    if v == Str("") then Terminated
    else if !v.Str? then Unhandled
    else match table(v.text) case Some(h) => Handled(h) case None => Unhandled
  }

  // ---------------------------------------------------------------- the specification

  /** A member ends the walk if it is an operation, an event, or an argument that names a channel. */
  predicate Decisive(m: Member) {
    m.name == "op" || m.name == "event"
    || (m.name == "arg" && (m.value.Obj? ==> Lookup(m.value.members, "channel").Some?))
  }

  function Verdict(m: Member): Outcome
    requires Decisive(m)
  {
    if m.name == "op" then Called(m.value, OperationHandler)
    else if m.name == "event" then Called(m.value, EventHandler)
    else if !m.value.Obj? then Thrown
    else Called(Lookup(m.value.members, "channel").value, ChannelHandler)
  }

  predicate FirstDecisive(ms: seq<Member>, i: nat)
    requires i < |ms|
  {
    Decisive(ms[i]) && forall j :: 0 <= j < i ==> !Decisive(ms[j])
  }

  // ---------------------------------------------------------------- the walk

  /** The loop over the members of an argument; None if none of them is a channel. */
  method WalkArgument(ms: seq<Member>) returns (r: Option<Outcome>)
    ensures match Lookup(ms, "channel")
            case None => r == None
            case Some(v) => r == Some(Called(v, ChannelHandler))
  {
    for k := 0 to |ms|
      invariant forall j :: 0 <= j < k ==> ms[j].name != "channel"
    {
      if ms[k].name == "channel" {
        LookupFirst(ms, "channel", k);
        return Some(Called(ms[k].value, ChannelHandler));
      }
    }
    LookupMissing(ms, "channel");
    r := None;
  }

  /** The calls made, in order, and how the walk ended. */
  method Walk(ms: seq<Member>) returns (calls: seq<Handler>, outcome: Outcome)
    ensures (exists i :: 0 <= i < |ms| && FirstDecisive(ms, i) && outcome == Verdict(ms[i]))
            || (outcome == Unhandled && forall i :: 0 <= i < |ms| ==> !Decisive(ms[i]))
    ensures calls == match outcome case Handled(h) => [h] case _ => []
  {
    calls := [];
    for k := 0 to |ms|
      invariant calls == []
      invariant forall j :: 0 <= j < k ==> !Decisive(ms[j])
    {
      var stop := false;
      outcome := Unhandled;
      if ms[k].name == "op" {
        stop, outcome := true, Called(ms[k].value, OperationHandler);
      } else if ms[k].name == "event" {
        stop, outcome := true, Called(ms[k].value, EventHandler);
      } else if ms[k].name == "arg" {
        if ms[k].value.Obj? {
          var found := WalkArgument(ms[k].value.members);
          if found.Some? {
            stop, outcome := true, found.value;
          }
        } else {
          stop, outcome := true, Thrown;
        }
      }
      if stop {
        assert FirstDecisive(ms, k) && outcome == Verdict(ms[k]);
        match outcome {
          case Handled(h) => calls := [h];
          case _ =>
        }
        return;
      }
    }
    outcome := Unhandled;
  }

  /** A message nobody handles is fatal unless unknown types are allowed. */
  method Classify(ms: seq<Member>, allowUnknown: bool) returns (calls: seq<Handler>, outcome: Outcome)
    ensures |calls| <= 1 && (outcome.Handled? <==> |calls| == 1) && (outcome.Handled? ==> calls[0] == outcome.handler)
    ensures forall i :: 0 <= i < |ms| && FirstDecisive(ms, i) ==>
              outcome == if Verdict(ms[i]) == Unhandled && !allowUnknown then Terminated else Verdict(ms[i])
    ensures (forall i :: 0 <= i < |ms| ==> !Decisive(ms[i])) ==>
              outcome == if allowUnknown then Unhandled else Terminated
  {
    calls, outcome := Walk(ms);
    if outcome == Unhandled && !allowUnknown {
      outcome := Terminated;
    }
  }

  // ---------------------------------------------------------------- consequences

  predicate IsEventHandler(h: Handler) {
    h in {OnError, OnLogin, OnSubscribe, OnUnsubscribe, OnChannelConnCount, OnNotice}
  }

  /**
    An acknowledgement whose `event` comes before any `arg` and `op` is never taken for channel data,
    whatever its argument names: no handler but one for events can be the verdict.
   */
  lemma AcknowledgementIsNotData(ms: seq<Member>, e: nat, i: nat)
    requires e < |ms| && ms[e].name == "event"
    requires forall j :: 0 <= j < e ==> ms[j].name != "arg" && ms[j].name != "op"
    requires i < |ms| && FirstDecisive(ms, i)
    ensures ms[i].name == "event" && i <= e
    ensures Verdict(ms[i]).Handled? ==> IsEventHandler(Verdict(ms[i]).handler)
  {
    assert Decisive(ms[e]);
  }

  /** The other order loses: the same two members the other way round are channel data. */
  lemma ArgumentFirstIsData(channel: string, ms: seq<Member>)
    requires ChannelHandler(channel).Some?
    requires |ms| >= 1 && ms[0] == Member("arg", Obj([Member("channel", Str(channel))]))
    ensures FirstDecisive(ms, 0) && Verdict(ms[0]) == Handled(ChannelHandler(channel).value)
    ensures !IsEventHandler(ChannelHandler(channel).value)
  {
    LookupFirst([Member("channel", Str(channel))], "channel", 0);
    assert channel != "";
  }

  const OPERATIONS: set<string> := {
    "order", "batch-orders", "amend-order", "batch-amend-orders", "cancel-order", "batch-cancel-orders" }

  const EVENTS: set<string> := { "error", "login", "subscribe", "unsubscribe", "channel-conn-count", "notice" }

  const CHANNELS: set<string> := {
    "status", "instruments", "estimated-price", "price-limit", "mark-price", "tickers", "trades", "bbo-tbt",
    "books5", "books", "books-l2-tbt", "books50-l2-tbt", "index-tickers", "funding-rate", "account",
    "balance_and_position", "positions", "orders", "candle1m" }

  /** The member of a message about a channel. */
  function ArgumentOf(channel: string): Member {
    Member("arg", Obj([Member("channel", Str(channel))]))
  }

  /** A member decides, by its text, in one of three ways: it terminates, it calls a handler, or it calls none. */
  predicate DecidesBy(m: Member, text: string, names: set<string>) {
    Decisive(m)
    && (Verdict(m) == Terminated <==> text == "")
    && (Verdict(m).Handled? <==> text in names)
    && (Verdict(m) == Unhandled <==> text != "" && text !in names)
  }

  /** So an unknown text, if unknown types are allowed, neither calls anything nor terminates the process. */
  lemma UnknownIsPassedOver(text: string)
    ensures DecidesBy(Member("op", Str(text)), text, OPERATIONS)
    ensures DecidesBy(Member("event", Str(text)), text, EVENTS)
    ensures DecidesBy(ArgumentOf(text), text, CHANNELS)
  {
    LookupFirst([Member("channel", Str(text))], "channel", 0);
  }

  /** What handles the data of a channel some stream subscribes. */
  const OWN: map<string, Handler> := map[
    "tickers" := OnTickers, "trades" := OnTrades, "bbo-tbt" := OnBboTbt,
    "books5" := OnBooksL2Tbt, "books" := OnBooksL2Tbt, "books-l2-tbt" := OnBooksL2Tbt, "books50-l2-tbt" := OnBooksL2Tbt,
    "funding-rate" := OnFundingRate, "index-tickers" := OnIndexTickers, "candle1m" := OnCandle,
    "account" := OnAccount, "balance_and_position" := OnBalanceAndPosition, "positions" := OnPositions,
    "orders" := OnOrders, "status" := OnStatus, "instruments" := OnInstruments]

  lemma OwnHandler(a: string)
    requires a in OWN
    ensures ChannelHandler(a) == Some(OWN[a]) && a != ""
  {
  }

  lemma DataChannelsApart(cfg: Config, a: string, b: string)
    requires DataChannel(cfg, a) && DataChannel(cfg, b)
    ensures a in OWN && b in OWN && (OWN[a] == OWN[b] ==> a == b)
  {
  }

  /**
    The data of every subscribed channel goes to the handler of that channel; in particular that of every
    channel a market data stream can ask for, and no two data channels of a stream share a handler.
   */
  lemma SubscribedIsHandled(cfg: Config, a: string, b: string)
    ensures a in OWN ==> Verdict(ArgumentOf(a)) == Handled(OWN[a])
    ensures DataChannel(cfg, a) || a in {"funding-rate", "index-tickers"} ==> a in OWN
    ensures DataChannel(cfg, a) && DataChannel(cfg, b) && OWN[a] == OWN[b] ==> a == b
  {
    if a in OWN {
      OwnHandler(a);
      LookupFirst([Member("channel", Str(a))], "channel", 0);
    }
    if DataChannel(cfg, a) && DataChannel(cfg, b) {
      DataChannelsApart(cfg, a, b);
    }
    if DataChannel(cfg, a) {
      DataChannelsApart(cfg, a, a);
    }
  }
}
