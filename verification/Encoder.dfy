/**
  The order action messages (src/roq/okx/protocol/json/encoder.cpp). Every encoder clears the
  caller's buffer and appends text to it, line of template by line of template. Each is proved to
  leave the rendering of an intended JSON tree; what the trees mean, and that the venue can read them
  back, are the lemmas that follow.

  Quantities and prices arrive as the decimal texts the formatting library makes of them.
 */
module Encoder {
  import opened Wrappers
  import opened Json

  datatype OrderType = Market | Limit | OtherOrderType

  datatype TimeInForce = UndefinedTif | Gtc | Fok | Ioc | OtherTif

  datatype Instruction = ParticipateDoNotInitiate | DoNotIncrease | OtherInstruction

  datatype MarginMode = UndefinedMargin | IsolatedMargin | CrossMargin | PortfolioMargin

  datatype WireType = WireMarket | WireLimit | WirePostOnly | WireFok | WireIoc | WireRpi {
    function RawText(): string {
      match this
      case WireMarket => "market"
      case WireLimit => "limit"
      case WirePostOnly => "post_only"
      case WireFok => "fok"
      case WireIoc => "ioc"
      case WireRpi => "rpi"
    }
  }

  datatype TradeMode = Cross | Isolated | Cash {
    function RawText(): string {
      match this
      case Cross => "cross"
      case Isolated => "isolated"
      case Cash => "cash"
    }
  }

  datatype CreateOrder = CreateOrder(
    side: string,
    orderType: OrderType,
    timeInForce: TimeInForce,
    instructions: set<Instruction>,
    destination: string,
    marginMode: MarginMode,
    quantity: string,
    price: string)

  /** A field that is not a number means "keep what the order has". */
  datatype ModifyOrder = ModifyOrder(quantity: Option<string>, price: Option<string>)

  datatype Order = Order(
    isSpot: bool,
    instIdCode: int,
    externalOrderId: string,
    clientOrderId: string,
    quantity: string,
    price: string)

  /** The settings an order placement depends on; `stpMode` is None when no mode is configured. */
  datatype Policy = Policy(
    tradeMode: TradeMode,
    stpMode: Option<string>,
    priceAmendType: string,
    marginCurrency: string)

  datatype Error = NotSupported | Rejected

  datatype Result<+T> = Ok(value: T) | Err(error: Error)

  // ---------------------------------------------------------------- the order type on the wire

  /** What the source's two switches compute (the one on time in force first). */
  function OrderAttributes(c: CreateOrder): (r: Result<(WireType, bool)>)
  {
    var posted := ParticipateDoNotInitiate in c.instructions;
    var reduceOnly := DoNotIncrease in c.instructions;
    if c.timeInForce == OtherTif then Err(NotSupported)
    else if posted then Ok((if c.timeInForce == Fok then WireFok else WirePostOnly, reduceOnly))
    else if c.timeInForce == Ioc then Ok((WireIoc, reduceOnly))
    else
      match c.orderType
      case Market => Ok((WireMarket, reduceOnly))
      case Limit => Ok((if c.destination == "RPI" then WireRpi else WireLimit, reduceOnly))
      case OtherOrderType => Err(NotSupported)
  }

  method ComputeOrderAttributes(c: CreateOrder) returns (r: Result<(WireType, bool)>)
    ensures r == OrderAttributes(c)
  {
    var reduceOnly := false;
    var wire: Option<WireType> := None;
    if c.instructions != {} {
      if ParticipateDoNotInitiate in c.instructions {
        wire := Some(WirePostOnly);
      }
      if DoNotIncrease in c.instructions {
        reduceOnly := true;
      }
    }
    match c.timeInForce {
      case UndefinedTif =>
      case Gtc =>
      case Fok =>
        if wire != None {
          wire := Some(WireFok);
        }
      case Ioc =>
        if wire == None {
          wire := Some(WireIoc);
        }
      case OtherTif =>
        return Err(NotSupported);
    }
    if wire == None {
      match c.orderType {
        case Market => wire := Some(WireMarket);
        case Limit =>
          if c.destination == "RPI" {
            wire := Some(WireRpi);
          } else {
            wire := Some(WireLimit);
          }
        case OtherOrderType => return Err(NotSupported);
      }
    }
    r := Ok((wire.value, reduceOnly));
  }

  /** The mapping table of the user documentation; None where it has no row. */
  function DocumentedAttributes(c: CreateOrder): Option<(WireType, bool)> {
    match (c.orderType, c.timeInForce)
    case (Market, UndefinedTif) => if c.instructions == {} then Some((WireMarket, false)) else None
    case (Limit, Gtc) =>
      if c.instructions == {} then Some((WireLimit, false))
      else if c.instructions == {DoNotIncrease} then Some((WireLimit, true))
      else if c.instructions == {ParticipateDoNotInitiate} then Some((WirePostOnly, false))
      else None
    case (Limit, Fok) => if c.instructions == {} then Some((WireFok, false)) else None
    case (Limit, Ioc) => if c.instructions == {} then Some((WireIoc, false)) else None
    case _ => None
  }

  /**
    The code honours a row of the table unless it is the fill-or-kill row (the inverted test sends a
    plain limit order), or a resting limit order is bound for RPI, of which the table says nothing.
   */
  lemma TableHonouredIff(c: CreateOrder)
    requires DocumentedAttributes(c).Some?
    ensures OrderAttributes(c) == Ok(DocumentedAttributes(c).value) <==>
            c.timeInForce != Fok
            && !(c.timeInForce == Gtc && ParticipateDoNotInitiate !in c.instructions && c.destination == "RPI")
  {
    if c.timeInForce == Gtc && ParticipateDoNotInitiate in c.instructions {
      assert c.instructions == {ParticipateDoNotInitiate};
    }
  }

  // ---------------------------------------------------------------- intended trees

  /** The envelope of every order action. */
  function Message(id: string, op: string, args: seq<Value>): Value {
    Obj([Member("id", Str(id)), Member("op", Str(op)), Member("args", Arr(args))])
  }

  function PlacementMode(c: CreateOrder, p: Policy): Result<TradeMode> {
    match c.marginMode
    case UndefinedMargin => Ok(p.tradeMode)
    case IsolatedMargin => Ok(Isolated)
    case CrossMargin => Ok(Cross)
    case PortfolioMargin => Err(Rejected)
  }

  predicate WantsCurrency(mode: TradeMode, p: Policy) {
    mode == Cross && p.marginCurrency != ""
  }

  /** The trailing members as the code writes them: the second assignment overwrites the first. */
  function WrittenExtras(mode: TradeMode, p: Policy): seq<Member> {
    if p.stpMode.Some? then [Member("stpMode", Str(p.stpMode.value))]
    else if WantsCurrency(mode, p) then [Member("ccy", Str(p.marginCurrency))]
    else []
  }

  /** The trailing members the settings ask for. */
  function RequestedExtras(mode: TradeMode, p: Policy): seq<Member> {
    (if WantsCurrency(mode, p) then [Member("ccy", Str(p.marginCurrency))] else [])
    + (if p.stpMode.Some? then [Member("stpMode", Str(p.stpMode.value))] else [])
  }

  /** The leading members, common to all order types. */
  function PlacementHead(
    c: CreateOrder, o: Order, id: string, mode: TradeMode, wire: WireType, reduceOnly: bool): seq<Member>
  {
    [ Member("clOrdId", Str(id)),
      Member("tdMode", Str(mode.RawText())),
      Member("posSide", Str("net")),
      Member("instIdCode", Num(o.instIdCode)),
      Member("side", Str(c.side)),
      Member("ordType", Str(wire.RawText())),
      Member("reduceOnly", Bool(reduceOnly)) ]
  }

  /** The size, and what has to be said about it, by order type. */
  function PlacementTail(c: CreateOrder, o: Order, wire: WireType, p: Policy): seq<Member> {
    if wire == WireMarket then
      (if o.isSpot then [Member("tgtCcy", Str("base_ccy"))] else []) + [Member("sz", Str(c.quantity))]
    else
      [Member("sz", Str(c.quantity)), Member("px", Str(c.price)), Member("pxAmendType", Str(p.priceAmendType))]
  }

  function Placement(
    c: CreateOrder, o: Order, id: string, mode: TradeMode, wire: WireType, reduceOnly: bool, p: Policy): seq<Member>
  {
    PlacementHead(c, o, id, mode, wire, reduceOnly) + PlacementTail(c, o, wire, p) + WrittenExtras(mode, p)
  }

  function OrderIdMember(o: Order): Member {
    if o.externalOrderId != "" then Member("ordId", Str(o.externalOrderId)) else Member("clOrdId", Str(o.clientOrderId))
  }

  function Amendment(m: ModifyOrder, o: Order, id: string, p: Policy): seq<Member> {
    [ OrderIdMember(o),
      Member("instIdCode", Num(o.instIdCode)),
      Member("reqId", Str(id)),
      Member("newSz", Str(if m.quantity.Some? then m.quantity.value else o.quantity)),
      Member("newPx", Str(if m.price.Some? then m.price.value else o.price)),
      Member("pxAmendType", Str(p.priceAmendType)) ]
  }

  function Cancellation(o: Order): seq<Member> {
    [OrderIdMember(o), Member("instIdCode", Num(o.instIdCode))]
  }

  function CancelItem(pair: (int, string)): Value {
    Obj([Member("instIdCode", Num(pair.0)), Member("ordId", Str(pair.1))])
  }

  function CancelItems(pairs: seq<(int, string)>): (items: seq<Value>)
    ensures |items| == |pairs|
    ensures forall i :: 0 <= i < |items| ==> items[i] == CancelItem(pairs[i])
  {
    if pairs == [] then [] else [CancelItem(pairs[0])] + CancelItems(pairs[1..])
  }

  // ---------------------------------------------------------------- intended messages

  /** The text of a placement, or why there is none: the order type is looked at before the margin mode. */
  function PlacementMessage(c: CreateOrder, o: Order, id: string, p: Policy): Result<string> {
    match OrderAttributes(c)
    case Err(e) => Err(e)
    case Ok((wire, reduceOnly)) =>
      match PlacementMode(c, p)
      case Err(e) => Err(e)
      case Ok(mode) => Ok(Render(Message(id, "batch-orders", [Obj(Placement(c, o, id, mode, wire, reduceOnly, p))])))
  }

  function AmendmentMessage(m: ModifyOrder, o: Order, id: string, p: Policy): string {
    Render(Message(id, "batch-amend-orders", [Obj(Amendment(m, o, id, p))]))
  }

  function CancellationMessage(o: Order, id: string): string {
    Render(Message(id, "batch-cancel-orders", [Obj(Cancellation(o))]))
  }

  function CancelAllMessage(id: string, pairs: seq<(int, string)>): string {
    Render(Message(id, "batch-cancel-orders", CancelItems(pairs)))
  }

  // ---------------------------------------------------------------- template lines

  function Quoted(key: string, value: string): string {
    "\"" + key + "\":\"" + value + "\""
  }

  function Bare(key: string, value: string): string {
    "\"" + key + "\":" + value
  }

  lemma LinesRender(key: string, value: string, n: int, b: bool)
    ensures Quoted(key, value) == RenderMember(Member(key, Str(value)))
    ensures Bare(key, RenderInt(n)) == RenderMember(Member(key, Num(n)))
    ensures Bare(key, if b then "true" else "false") == RenderMember(Member(key, Bool(b)))
  {
    assert Render(Str(value)) == "\"" + value + "\"";
    assert "\"" + key + "\":\"" == "\"" + key + "\":" + "\"";
    assert Quoted(key, value) == "\"" + key + "\":" + ("\"" + value + "\"");
  }

  lemma ThreeRender(a: Member, b: Member, c: Member)
    ensures RenderMembers([a, b, c]) == RenderMember(a) + "," + RenderMember(b) + "," + RenderMember(c)
  {
    RenderMembersAppend([a], b);
    RenderMembersAppend([a, b], c);
    assert [a] + [b] == [a, b] && [a, b] + [c] == [a, b, c];
  }

  lemma ArgsRender(args: seq<Value>)
    ensures RenderMember(Member("args", Arr(args))) == "\"args\":[" + RenderItems(args) + "]"
  {
    assert Render(Arr(args)) == "[" + RenderItems(args) + "]";
    assert "\"args\":[" == "\"" + "args" + "\":" + "[";
  }

  lemma Regroup(a: string, b: string, c: string, d: string)
    ensures "{" + (a + "," + b + "," + (c + d + "]")) + "}" == "{" + a + "," + b + "," + c + d + "]" + "}"
  {
  }

  lemma EnvelopeRenders(id: string, op: string, args: seq<Value>)
    ensures Render(Message(id, op, args)) ==
            "{" + Quoted("id", id) + "," + Quoted("op", op) + "," + "\"args\":[" + RenderItems(args) + "]" + "}"
  {
    ThreeRender(Member("id", Str(id)), Member("op", Str(op)), Member("args", Arr(args)));
    LinesRender("id", id, 0, false);
    LinesRender("op", op, 0, false);
    ArgsRender(args);
    Regroup(Quoted("id", id), Quoted("op", op), "\"args\":[", RenderItems(args));
  }

  lemma SevenRender(a: Member, b: Member, c: Member, d: Member, e: Member, f: Member, g: Member)
    ensures RenderMembers([a, b, c, d, e, f, g]) ==
            RenderMember(a) + "," + RenderMember(b) + "," + RenderMember(c) + "," + RenderMember(d) + ","
            + RenderMember(e) + "," + RenderMember(f) + "," + RenderMember(g)
  {
    ThreeRender(a, b, c);
    RenderMembersAppend([a, b, c], d);
    RenderMembersAppend([a, b, c, d], e);
    RenderMembersAppend([a, b, c, d, e], f);
    RenderMembersAppend([a, b, c, d, e, f], g);
    assert [a, b, c] + [d] == [a, b, c, d] && [a, b, c, d] + [e] == [a, b, c, d, e];
    assert [a, b, c, d, e] + [f] == [a, b, c, d, e, f] && [a, b, c, d, e, f] + [g] == [a, b, c, d, e, f, g];
  }

  lemma HeadLines(c: CreateOrder, o: Order, id: string, mode: TradeMode, wire: WireType, reduceOnly: bool)
    ensures var ms := PlacementHead(c, o, id, mode, wire, reduceOnly);
      RenderMember(ms[0]) == Quoted("clOrdId", id) && RenderMember(ms[1]) == Quoted("tdMode", mode.RawText())
      && RenderMember(ms[2]) == Quoted("posSide", "net")
      && RenderMember(ms[3]) == Bare("instIdCode", RenderInt(o.instIdCode))
      && RenderMember(ms[4]) == Quoted("side", c.side) && RenderMember(ms[5]) == Quoted("ordType", wire.RawText())
      && RenderMember(ms[6]) == Bare("reduceOnly", if reduceOnly then "true" else "false")
  {
    LinesRender("clOrdId", id, 0, false);
    LinesRender("tdMode", mode.RawText(), 0, false);
    LinesRender("posSide", "net", 0, false);
    LinesRender("instIdCode", "", o.instIdCode, false);
    LinesRender("side", c.side, 0, false);
    LinesRender("ordType", wire.RawText(), 0, false);
    LinesRender("reduceOnly", "", 0, reduceOnly);
  }

  lemma HeadRenders(c: CreateOrder, o: Order, id: string, mode: TradeMode, wire: WireType, reduceOnly: bool)
    ensures RenderMembers(PlacementHead(c, o, id, mode, wire, reduceOnly)) ==
            Quoted("clOrdId", id) + "," + Quoted("tdMode", mode.RawText()) + "," + Quoted("posSide", "net") + ","
            + Bare("instIdCode", RenderInt(o.instIdCode)) + "," + Quoted("side", c.side) + ","
            + Quoted("ordType", wire.RawText()) + "," + Bare("reduceOnly", if reduceOnly then "true" else "false")
  {
    var ms := PlacementHead(c, o, id, mode, wire, reduceOnly);
    HeadLines(c, o, id, mode, wire, reduceOnly);
    assert ms == [ms[0], ms[1], ms[2], ms[3], ms[4], ms[5], ms[6]];
    SevenRender(ms[0], ms[1], ms[2], ms[3], ms[4], ms[5], ms[6]);
  }

  /** One more quoted line, after a comma. */
  lemma QuotedAppends(ms: seq<Member>, key: string, value: string)
    requires ms != []
    ensures RenderMembers(ms + [Member(key, Str(value))]) == RenderMembers(ms) + "," + Quoted(key, value)
  {
    RenderMembersAppend(ms, Member(key, Str(value)));
    LinesRender(key, value, 0, false);
  }

  lemma ExtrasAppend(ms: seq<Member>, extras: seq<Member>)
    requires ms != [] && |extras| <= 1
    ensures RenderMembers(ms + extras) ==
            RenderMembers(ms) + (if extras == [] then "" else "," + RenderMember(extras[0]))
  {
    if extras == [] {
      assert ms + extras == ms;
    } else {
      assert extras == [extras[0]];
      RenderMembersAppend(ms, extras[0]);
      Associate(RenderMembers(ms), ",", RenderMember(extras[0]));
    }
  }

  /** The tail as the three templates of the source write it. */
  lemma TailAppends(ms: seq<Member>, c: CreateOrder, o: Order, wire: WireType, p: Policy)
    requires ms != []
    ensures RenderMembers(ms + PlacementTail(c, o, wire, p)) ==
            if wire == WireMarket then
              if o.isSpot then RenderMembers(ms) + "," + Quoted("tgtCcy", "base_ccy") + "," + Quoted("sz", c.quantity)
              else RenderMembers(ms) + "," + Quoted("sz", c.quantity)
            else
              RenderMembers(ms) + "," + Quoted("sz", c.quantity) + "," + Quoted("px", c.price) + ","
              + Quoted("pxAmendType", p.priceAmendType)
  {
    var sz, px := Member("sz", Str(c.quantity)), Member("px", Str(c.price));
    var tgt := Member("tgtCcy", Str("base_ccy"));
    var amend := Member("pxAmendType", Str(p.priceAmendType));
    QuotedAppends(ms, "sz", c.quantity);
    if wire == WireMarket {
      if o.isSpot {
        QuotedAppends(ms, "tgtCcy", "base_ccy");
        QuotedAppends(ms + [tgt], "sz", c.quantity);
        assert ms + PlacementTail(c, o, wire, p) == ms + [tgt] + [sz];
      } else {
        assert ms + PlacementTail(c, o, wire, p) == ms + [sz];
      }
    } else {
      QuotedAppends(ms + [sz], "px", c.price);
      QuotedAppends(ms + [sz] + [px], "pxAmendType", p.priceAmendType);
      assert ms + PlacementTail(c, o, wire, p) == ms + [sz] + [px] + [amend];
    }
  }

  lemma OneItem(id: string, op: string, ms: seq<Member>)
    ensures Render(Message(id, op, [Obj(ms)])) ==
            "{" + Quoted("id", id) + "," + Quoted("op", op) + "," + "\"args\":[" + ("{" + RenderMembers(ms) + "}")
              + "]" + "}"
  {
    EnvelopeRenders(id, op, [Obj(ms)]);
    assert Render(Obj(ms)) == "{" + RenderMembers(ms) + "}";
  }

  lemma CancellationRenders(o: Order)
    ensures RenderMembers(Cancellation(o)) ==
            (if o.externalOrderId != "" then Quoted("ordId", o.externalOrderId) else Quoted("clOrdId", o.clientOrderId))
            + "," + Bare("instIdCode", RenderInt(o.instIdCode))
  {
    RenderMembersAppend([OrderIdMember(o)], Member("instIdCode", Num(o.instIdCode)));
    assert Cancellation(o) == [OrderIdMember(o)] + [Member("instIdCode", Num(o.instIdCode))];
    OrderIdLine(o);
    LinesRender("instIdCode", "", o.instIdCode, false);
  }

  lemma PlacementRenders(
    c: CreateOrder, o: Order, id: string, mode: TradeMode, wire: WireType, reduceOnly: bool, p: Policy,
    fields: string, extras: string)
    requires var head :=
               Quoted("clOrdId", id) + "," + Quoted("tdMode", mode.RawText()) + "," + Quoted("posSide", "net") + ","
               + Bare("instIdCode", RenderInt(o.instIdCode)) + "," + Quoted("side", c.side) + ","
               + Quoted("ordType", wire.RawText()) + "," + Bare("reduceOnly", if reduceOnly then "true" else "false");
             fields ==
             if wire == WireMarket then
               if o.isSpot then head + "," + Quoted("tgtCcy", "base_ccy") + "," + Quoted("sz", c.quantity)
               else head + "," + Quoted("sz", c.quantity)
             else
               head + "," + Quoted("sz", c.quantity) + "," + Quoted("px", c.price) + ","
               + Quoted("pxAmendType", p.priceAmendType)
    requires extras ==
             if p.stpMode.Some? then "," + Quoted("stpMode", p.stpMode.value)
             else if WantsCurrency(mode, p) then "," + Quoted("ccy", p.marginCurrency)
             else ""
    ensures RenderMembers(Placement(c, o, id, mode, wire, reduceOnly, p)) == fields + extras
  {
    var head := PlacementHead(c, o, id, mode, wire, reduceOnly);
    HeadRenders(c, o, id, mode, wire, reduceOnly);
    TailAppends(head, c, o, wire, p);
    ExtrasAppend(head + PlacementTail(c, o, wire, p), WrittenExtras(mode, p));
    LinesRender("ccy", p.marginCurrency, 0, false);
    if p.stpMode.Some? {
      LinesRender("stpMode", p.stpMode.value, 0, false);
    }
  }

  lemma SixRender(a: Member, b: Member, c: Member, d: Member, e: Member, f: Member)
    ensures RenderMembers([a, b, c, d, e, f]) ==
            RenderMember(a) + "," + RenderMember(b) + "," + RenderMember(c) + "," + RenderMember(d) + ","
            + RenderMember(e) + "," + RenderMember(f)
  {
    ThreeRender(a, b, c);
    RenderMembersAppend([a, b, c], d);
    RenderMembersAppend([a, b, c, d], e);
    RenderMembersAppend([a, b, c, d, e], f);
    assert [a, b, c] + [d] == [a, b, c, d] && [a, b, c, d] + [e] == [a, b, c, d, e];
    assert [a, b, c, d, e] + [f] == [a, b, c, d, e, f];
  }

  lemma OrderIdLine(o: Order)
    ensures RenderMember(OrderIdMember(o)) ==
            if o.externalOrderId != "" then Quoted("ordId", o.externalOrderId) else Quoted("clOrdId", o.clientOrderId)
  {
    LinesRender("ordId", o.externalOrderId, 0, false);
    LinesRender("clOrdId", o.clientOrderId, 0, false);
  }

  lemma AmendmentRenders(m: ModifyOrder, o: Order, id: string, p: Policy)
    ensures RenderMembers(Amendment(m, o, id, p)) ==
            (if o.externalOrderId != "" then Quoted("ordId", o.externalOrderId) else Quoted("clOrdId", o.clientOrderId))
            + "," + Bare("instIdCode", RenderInt(o.instIdCode)) + "," + Quoted("reqId", id) + ","
            + Quoted("newSz", if m.quantity.None? then o.quantity else m.quantity.value) + ","
            + Quoted("newPx", if m.price.None? then o.price else m.price.value) + ","
            + Quoted("pxAmendType", p.priceAmendType)
  {
    var sz := if m.quantity.None? then o.quantity else m.quantity.value;
    var px := if m.price.None? then o.price else m.price.value;
    OrderIdLine(o);
    LinesRender("instIdCode", "", o.instIdCode, false);
    LinesRender("reqId", id, 0, false);
    LinesRender("newSz", sz, 0, false);
    LinesRender("newPx", px, 0, false);
    LinesRender("pxAmendType", p.priceAmendType, 0, false);
    SixRender(
      OrderIdMember(o), Member("instIdCode", Num(o.instIdCode)), Member("reqId", Str(id)), Member("newSz", Str(sz)),
      Member("newPx", Str(px)), Member("pxAmendType", Str(p.priceAmendType)));
  }

  // ---------------------------------------------------------------- the encoders

  class Buffer {
    var text: string

    constructor ()
      ensures text == ""
    {
      text := "";
    }

    method Clear()
      modifies this
      ensures text == ""
    {
      text := "";
    }

    method Append(s: string)
      modifies this
      ensures text == old(text) + s
      ensures old(text) == "" ==> text == s
    {
      text := text + s;
    }
  }

  method BatchOrders(buffer: Buffer, c: CreateOrder, o: Order, id: string, p: Policy) returns (r: Result<string>)
    modifies buffer
    ensures r == PlacementMessage(c, o, id, p)
    ensures buffer.text == if r.Ok? then r.value else ""
  {
    buffer.Clear();
    var attributes := ComputeOrderAttributes(c);
    if attributes.Err? {
      return Err(attributes.error);
    }
    var (wire, reduceOnly) := attributes.value;
    var mode;
    match c.marginMode {
      case UndefinedMargin => mode := p.tradeMode;
      case IsolatedMargin => mode := Isolated;
      case CrossMargin => mode := Cross;
      case PortfolioMargin => return Err(Rejected);
    }
    var fields := PlacementText(c, o, id, mode, wire, reduceOnly, p);
    OneItem(id, "batch-orders", Placement(c, o, id, mode, wire, reduceOnly, p));
    buffer.Append(
      "{" + Quoted("id", id) + "," + Quoted("op", "batch-orders") + "," + "\"args\":[" + ("{" + fields + "}")
      + "]" + "}");
    r := Ok(buffer.text);
  }

  /** The members of a placement, from one of three templates. */
  method PlacementText(
    c: CreateOrder, o: Order, id: string, mode: TradeMode, wire: WireType, reduceOnly: bool, p: Policy)
    returns (text: string)
    ensures text == RenderMembers(Placement(c, o, id, mode, wire, reduceOnly, p))
  {
    var extras := "";
    if mode == Cross && p.marginCurrency != "" {
      extras := "," + Quoted("ccy", p.marginCurrency);
    }
    if p.stpMode.Some? {
      extras := "," + Quoted("stpMode", p.stpMode.value);
    }
    var fields :=
      Quoted("clOrdId", id) + "," + Quoted("tdMode", mode.RawText()) + "," + Quoted("posSide", "net") + ","
      + Bare("instIdCode", RenderInt(o.instIdCode)) + "," + Quoted("side", c.side) + ","
      + Quoted("ordType", wire.RawText()) + "," + Bare("reduceOnly", if reduceOnly then "true" else "false");
    match wire {
      case WireMarket =>
        if o.isSpot {
          fields := fields + "," + Quoted("tgtCcy", "base_ccy") + "," + Quoted("sz", c.quantity);
        } else {
          fields := fields + "," + Quoted("sz", c.quantity);
        }
      case _ =>
        fields := fields + "," + Quoted("sz", c.quantity) + "," + Quoted("px", c.price) + ","
        + Quoted("pxAmendType", p.priceAmendType);
    }
    PlacementRenders(c, o, id, mode, wire, reduceOnly, p, fields, extras);
    text := fields + extras;
  }

  method BatchAmendOrders(buffer: Buffer, m: ModifyOrder, o: Order, id: string, p: Policy) returns (message: string)
    modifies buffer
    ensures message == buffer.text
    ensures message == AmendmentMessage(m, o, id, p)
  {
    buffer.Clear();
    var hasExternalOrderId := o.externalOrderId != "";
    var orderIdType := if hasExternalOrderId then "ordId" else "clOrdId";
    var orderId := if hasExternalOrderId then o.externalOrderId else o.clientOrderId;
    var newSz := if m.quantity.None? then o.quantity else m.quantity.value;
    var newPx := if m.price.None? then o.price else m.price.value;
    var fields :=
      Quoted(orderIdType, orderId) + "," + Bare("instIdCode", RenderInt(o.instIdCode)) + "," + Quoted("reqId", id) + ","
      + Quoted("newSz", newSz) + "," + Quoted("newPx", newPx) + "," + Quoted("pxAmendType", p.priceAmendType);
    AmendmentRenders(m, o, id, p);
    OneItem(id, "batch-amend-orders", Amendment(m, o, id, p));
    buffer.Append(
      "{" + Quoted("id", id) + "," + Quoted("op", "batch-amend-orders") + "," + "\"args\":[" + ("{" + fields + "}")
      + "]" + "}");
    message := buffer.text;
  }

  method BatchCancelOrder(buffer: Buffer, o: Order, id: string) returns (message: string)
    modifies buffer
    ensures message == buffer.text
    ensures message == CancellationMessage(o, id)
  {
    buffer.Clear();
    var hasExternalOrderId := o.externalOrderId != "";
    var orderIdType := if hasExternalOrderId then "ordId" else "clOrdId";
    var orderId := if hasExternalOrderId then o.externalOrderId else o.clientOrderId;
    var fields := Quoted(orderIdType, orderId) + "," + Bare("instIdCode", RenderInt(o.instIdCode));
    CancellationRenders(o);
    OneItem(id, "batch-cancel-orders", Cancellation(o));
    buffer.Append(
      "{" + Quoted("id", id) + "," + Quoted("op", "batch-cancel-orders") + "," + "\"args\":[" + ("{" + fields + "}")
      + "]" + "}");
    message := buffer.text;
  }

  lemma CancelItemRenders(pair: (int, string))
    ensures Render(CancelItem(pair)) ==
        "{" + Bare("instIdCode", RenderInt(pair.0)) + "," + Quoted("ordId", pair.1) + "}"
  {
    var code, ordId := Member("instIdCode", Num(pair.0)), Member("ordId", Str(pair.1));
    RenderMembersAppend([code], ordId);
    assert [code] + [ordId] == [code, ordId];
    LinesRender("instIdCode", "", pair.0, false);
    LinesRender("ordId", pair.1, 0, false);
  }

  /** One more item of the list, after the comma it needs when it is not the first. */
  lemma CancelItemsGrow(header: string, pairs: seq<(int, string)>, k: nat)
    requires k < |pairs|
    ensures var text := header + RenderItems(CancelItems(pairs[..k]));
      header + RenderItems(CancelItems(pairs[..k + 1])) ==
      (if k == 0 then text else text + ",")
      + ("{" + Bare("instIdCode", RenderInt(pairs[k].0)) + "," + Quoted("ordId", pairs[k].1) + "}")
  {
    var before, item := CancelItems(pairs[..k]), CancelItem(pairs[k]);
    CancelItemRenders(pairs[k]);
    assert CancelItems(pairs[..k + 1]) == before + [item];
    ItemsGrow(header, before, item);
  }

  lemma ItemsGrow(header: string, before: seq<Value>, item: Value)
    ensures var text := header + RenderItems(before);
      header + RenderItems(before + [item]) == (if before == [] then text else text + ",") + Render(item)
  {
    if before == [] {
      assert before + [item] == [item] && header + "" == header;
    } else {
      RenderItemsAppend(before, item);
      CommaInside(header, RenderItems(before), Render(item));
    }
  }

  lemma CommaInside(header: string, text: string, last: string)
    ensures header + (text + "," + last) == header + text + "," + last
  {
  }

  method BatchCancelOrders(buffer: Buffer, id: string, pairs: seq<(int, string)>) returns (message: string)
    modifies buffer
    ensures message == buffer.text
    ensures message == CancelAllMessage(id, pairs)
  {
    buffer.Clear();
    buffer.Append("{" + Quoted("id", id) + "," + Quoted("op", "batch-cancel-orders") + "," + "\"args\":[");
    ghost var header := buffer.text;
    var first := true;
    for k := 0 to |pairs|
      invariant first <==> k == 0
      invariant buffer.text == header + RenderItems(CancelItems(pairs[..k]))
    {
      var (securityId, orderId) := pairs[k];
      if !first {
        buffer.Append(",");
      } else {
        first := false;
      }
      buffer.Append("{" + Bare("instIdCode", RenderInt(securityId)) + "," + Quoted("ordId", orderId) + "}");
      CancelItemsGrow(header, pairs, k);
    }
    buffer.Append("]");
    buffer.Append("}");
    message := buffer.text;

    assert pairs[..|pairs|] == pairs;
    EnvelopeRenders(id, "batch-cancel-orders", CancelItems(pairs));
  }
}
