/**
  What the venue reads in the order action messages, and the cancel-all action from the list of orders
  down to the text on the socket (src/roq/okx/gateway/drop_copy.cpp).
 */
module Readback {
  import opened Wrappers
  import opened Json
  import opened Encoder

  /** The arguments of a message that asks for an operation under a request id. */
  function Arguments(text: string, op: string, id: string): Option<seq<Value>> {
    match Read(text)
    case Some(Obj(ms)) =>
      if Lookup(ms, "op") != Some(Str(op)) || Lookup(ms, "id") != Some(Str(id)) then None
      else (match Lookup(ms, "args") case Some(Arr(items)) => Some(items) case _ => None)
    case _ => None
  }

  /** The members of the single order an action message carries. */
  function ActionFields(text: string, op: string, id: string): Option<seq<Member>> {
    match Arguments(text, op, id)
    case Some(items) => if |items| == 1 && items[0].Obj? then Some(items[0].members) else None
    case None => None
  }

  predicate OnlyNames(ms: seq<Member>, names: set<string>) {
    forall i :: 0 <= i < |ms| ==> ms[i].name in names
  }

  lemma EnvelopeReadsBack(id: string, op: string, args: seq<Value>)
    requires PlainText(id) && PlainText(op) && PlainItems(args)
    ensures Read(Render(Message(id, op, args))) == Some(Message(id, op, args))
    ensures Lookup(Message(id, op, args).members, "id") == Some(Str(id))
    ensures Lookup(Message(id, op, args).members, "op") == Some(Str(op))
    ensures Lookup(Message(id, op, args).members, "args") == Some(Arr(args))
  {
    var m := Message(id, op, args);
    PlainMembersAt(m.members);
    ReadIffRendered(Render(m), m);
    LookupFirst(m.members, "id", 0);
    LookupFirst(m.members, "op", 1);
    LookupFirst(m.members, "args", 2);
  }

  lemma ActionReadsBack(id: string, op: string, ms: seq<Member>)
    requires PlainText(id) && PlainText(op) && PlainMembers(ms)
    ensures ActionFields(Render(Message(id, op, [Obj(ms)])), op, id) == Some(ms)
  {
    PlainItemsAt([Obj(ms)]);
    EnvelopeReadsBack(id, op, [Obj(ms)]);
  }

  // ---------------------------------------------------------------- placing an order

  predicate PlainPlacement(c: CreateOrder, p: Policy) {
    PlainText(c.side) && PlainText(c.quantity) && PlainText(c.price)
    && PlainText(p.priceAmendType) && PlainText(p.marginCurrency)
    && (p.stpMode.Some? ==> PlainText(p.stpMode.value))
  }

  lemma {:induction false} PlainConcat(a: seq<Member>, b: seq<Member>)
    requires PlainMembers(a) && PlainMembers(b)
    ensures PlainMembers(a + b)
  {
    if a == [] {
      assert a + b == b;
    } else {
      PlainConcat(a[1..], b);
      assert (a + b)[1..] == a[1..] + b;
    }
  }

  lemma RawTextsArePlain(mode: TradeMode, wire: WireType)
    ensures PlainText(mode.RawText()) && PlainText(wire.RawText())
  {
  }

  lemma HeadIsPlain(c: CreateOrder, o: Order, id: string, mode: TradeMode, wire: WireType, reduceOnly: bool)
    requires PlainText(id) && PlainText(c.side)
    ensures PlainMembers(PlacementHead(c, o, id, mode, wire, reduceOnly))
  {
    RawTextsArePlain(mode, wire);
    var ms := PlacementHead(c, o, id, mode, wire, reduceOnly);
    NamesArePlain();
    PlainMembersAt(ms);
    assert ms[0] == Member("clOrdId", Str(id)) && ms[1] == Member("tdMode", Str(mode.RawText()));
    assert ms[2] == Member("posSide", Str("net")) && ms[3] == Member("instIdCode", Num(o.instIdCode));
    assert ms[4] == Member("side", Str(c.side)) && ms[5] == Member("ordType", Str(wire.RawText()));
    assert ms[6] == Member("reduceOnly", Bool(reduceOnly));
  }

  lemma NamesArePlain()
    ensures PlainText("clOrdId") && PlainText("tdMode") && PlainText("posSide") && PlainText("net")
    ensures PlainText("instIdCode") && PlainText("side") && PlainText("ordType") && PlainText("reduceOnly")
  {
  }

  lemma TailIsPlain(c: CreateOrder, o: Order, wire: WireType, mode: TradeMode, p: Policy)
    requires PlainPlacement(c, p)
    ensures PlainMembers(PlacementTail(c, o, wire, p)) && PlainMembers(WrittenExtras(mode, p))
  {
    PlainMembersAt(PlacementTail(c, o, wire, p));
    PlainMembersAt(WrittenExtras(mode, p));
  }

  lemma {:induction false} HeadFields(
    c: CreateOrder, o: Order, id: string, mode: TradeMode, wire: WireType, reduceOnly: bool)
    ensures var ms := PlacementHead(c, o, id, mode, wire, reduceOnly);
      Lookup(ms, "clOrdId") == Some(Str(id))
      && Lookup(ms, "tdMode") == Some(Str(mode.RawText()))
      && Lookup(ms, "posSide") == Some(Str("net"))
      && Lookup(ms, "instIdCode") == Some(Num(o.instIdCode))
      && Lookup(ms, "side") == Some(Str(c.side))
      && Lookup(ms, "ordType") == Some(Str(wire.RawText()))
      && Lookup(ms, "reduceOnly") == Some(Bool(reduceOnly))
    ensures var ms := PlacementHead(c, o, id, mode, wire, reduceOnly);
      Lookup(ms, "sz") == None && Lookup(ms, "px") == None && Lookup(ms, "pxAmendType") == None
      && Lookup(ms, "tgtCcy") == None && Lookup(ms, "ccy") == None && Lookup(ms, "stpMode") == None
  {
    var ms := PlacementHead(c, o, id, mode, wire, reduceOnly);
    LookupFirst(ms, "clOrdId", 0);
    LookupFirst(ms, "tdMode", 1);
    LookupFirst(ms, "posSide", 2);
    LookupFirst(ms, "instIdCode", 3);
    LookupFirst(ms, "side", 4);
    LookupFirst(ms, "ordType", 5);
    LookupFirst(ms, "reduceOnly", 6);
    LookupMissing(ms, "sz");
    LookupMissing(ms, "px");
    LookupMissing(ms, "pxAmendType");
    LookupMissing(ms, "tgtCcy");
    LookupMissing(ms, "ccy");
    LookupMissing(ms, "stpMode");
  }

  /**
    What the venue reads in a placement: `px` if and only if the order type on the wire is not market,
    `tgtCcy` if and only if it is market and the instrument is spot, `stpMode` if and only if a mode is
    configured, and `ccy` if and only if it is wanted and no mode is configured. There is no other member,
    and as many as there are names, so none is given twice.
   */
  lemma PlacementMeaning(
    c: CreateOrder, o: Order, id: string, mode: TradeMode, wire: WireType, reduceOnly: bool, p: Policy)
    requires PlainText(id) && PlainPlacement(c, p)
    ensures
      var fields := ActionFields(Render(Message(id, "batch-orders",
        [Obj(Placement(c, o, id, mode, wire, reduceOnly, p))])), "batch-orders", id);
      fields.Some?
      && var ms := fields.value;
      Lookup(ms, "clOrdId") == Some(Str(id))
      && Lookup(ms, "posSide") == Some(Str("net"))
      && Lookup(ms, "instIdCode") == Some(Num(o.instIdCode))
      && Lookup(ms, "side") == Some(Str(c.side))
      && Lookup(ms, "tdMode") == Some(Str(mode.RawText()))
      && Lookup(ms, "ordType") == Some(Str(wire.RawText()))
      && Lookup(ms, "reduceOnly") == Some(Bool(reduceOnly))
      && Lookup(ms, "sz") == Some(Str(c.quantity))
      && Lookup(ms, "px") == (if wire == WireMarket then None else Some(Str(c.price)))
      && Lookup(ms, "pxAmendType") == (if wire == WireMarket then None else Some(Str(p.priceAmendType)))
      && Lookup(ms, "tgtCcy") == (if wire == WireMarket && o.isSpot then Some(Str("base_ccy")) else None)
      && Lookup(ms, "stpMode") == (if p.stpMode.Some? then Some(Str(p.stpMode.value)) else None)
      && Lookup(ms, "ccy") == (if WantsCurrency(mode, p) && p.stpMode.None? then Some(Str(p.marginCurrency)) else None)
      && OnlyNames(ms, PLACEMENT_NAMES)
      && |ms| == 8 + (if wire != WireMarket then 2 else if o.isSpot then 1 else 0)
                 + (if p.stpMode.Some? || WantsCurrency(mode, p) then 1 else 0)
  {
    var head := PlacementHead(c, o, id, mode, wire, reduceOnly);
    var tail := PlacementTail(c, o, wire, p) + WrittenExtras(mode, p);
    HeadIsPlain(c, o, id, mode, wire, reduceOnly);
    TailIsPlain(c, o, wire, mode, p);
    PlainConcat(PlacementTail(c, o, wire, p), WrittenExtras(mode, p));
    PlainConcat(head, tail);
    assert Placement(c, o, id, mode, wire, reduceOnly, p) == head + tail;
    ActionReadsBack(id, "batch-orders", head + tail);
    HeadFields(c, o, id, mode, wire, reduceOnly);
    TailFields(c, o, wire, mode, p);
    PlacementNames(c, o, id, mode, wire, reduceOnly, p);
    LookupConcat(head, tail, "clOrdId");
    LookupConcat(head, tail, "posSide");
    LookupConcat(head, tail, "instIdCode");
    LookupConcat(head, tail, "side");
    LookupConcat(head, tail, "tdMode");
    LookupConcat(head, tail, "ordType");
    LookupConcat(head, tail, "reduceOnly");
    LookupConcat(head, tail, "sz");
    LookupConcat(head, tail, "px");
    LookupConcat(head, tail, "pxAmendType");
    LookupConcat(head, tail, "tgtCcy");
    LookupConcat(head, tail, "stpMode");
    LookupConcat(head, tail, "ccy");
  }

  /** The order types, by name, that the gateway has none for. */
  predicate Unsupported(c: CreateOrder) {
    c.timeInForce == OtherTif
    || (ParticipateDoNotInitiate !in c.instructions && c.timeInForce != Ioc && c.orderType == OtherOrderType)
  }

  /** Post-only comes before the time in force, and only immediate-or-cancel before the order type. */
  predicate OrderTypeText(text: string, c: CreateOrder) {
    var posted, ioc := ParticipateDoNotInitiate in c.instructions, c.timeInForce == Ioc;
    (text == "fok" <==> posted && c.timeInForce == Fok)
    && (text == "post_only" <==> posted && c.timeInForce != Fok)
    && (text == "ioc" <==> !posted && ioc)
    && (text == "market" <==> !posted && !ioc && c.orderType == Market)
    && (text == "rpi" <==> !posted && !ioc && c.orderType == Limit && c.destination == "RPI")
    && (text == "limit" <==> !posted && !ioc && c.orderType == Limit && c.destination != "RPI")
  }

  /** The order's own margin mode; the configured one when it has none. */
  predicate MarginText(text: string, c: CreateOrder, p: Policy) {
    (c.marginMode == IsolatedMargin ==> text == "isolated")
    && (c.marginMode == CrossMargin ==> text == "cross")
    && (c.marginMode == UndefinedMargin ==>
          (p.tradeMode == Isolated ==> text == "isolated")
          && (p.tradeMode == Cross ==> text == "cross")
          && (p.tradeMode == Cash ==> text == "cash"))
  }

  /** What a placement says of the order, name by name. */
  predicate SaysOrder(ms: seq<Member>, c: CreateOrder, o: Order, id: string, p: Policy) {
    Lookup(ms, "clOrdId") == Some(Str(id))
    && Lookup(ms, "instIdCode") == Some(Num(o.instIdCode))
    && Lookup(ms, "posSide") == Some(Str("net"))
    && Lookup(ms, "side") == Some(Str(c.side))
    && Lookup(ms, "sz") == Some(Str(c.quantity))
    && Lookup(ms, "reduceOnly") == Some(Bool(DoNotIncrease in c.instructions))
    && match (Lookup(ms, "ordType"), Lookup(ms, "tdMode"))
       case (Some(Str(ordType)), Some(Str(tdMode))) =>
         OrderTypeText(ordType, c)
         && MarginText(tdMode, c, p)
         && Lookup(ms, "px") == (if ordType == "market" then None else Some(Str(c.price)))
         && Lookup(ms, "pxAmendType") == (if ordType == "market" then None else Some(Str(p.priceAmendType)))
         && Lookup(ms, "tgtCcy") == (if ordType == "market" && o.isSpot then Some(Str("base_ccy")) else None)
         && Lookup(ms, "ccy") ==
            (if tdMode == "cross" && p.marginCurrency != "" && p.stpMode.None? then Some(Str(p.marginCurrency))
             else None)
         && Lookup(ms, "stpMode") == (match p.stpMode case Some(mode) => Some(Str(mode)) case None => None)
       case _ => false
  }

  /**
    What the venue reads in the message of `BatchOrders`, and when there is none: the order type is refused
    first, and a margin mode only if it is that of a portfolio.
   */
  lemma PlacementSaysOrder(c: CreateOrder, o: Order, id: string, p: Policy)
    requires PlainText(id) && PlainPlacement(c, p)
    ensures var r := PlacementMessage(c, o, id, p);
      (r == Err(NotSupported) <==> Unsupported(c))
      && (r == Err(Rejected) <==> !Unsupported(c) && c.marginMode == PortfolioMargin)
      && (r.Ok? ==>
            var fields := ActionFields(r.value, "batch-orders", id);
            fields.Some? && SaysOrder(fields.value, c, o, id, p))
  {
    match (OrderAttributes(c), PlacementMode(c, p)) {
      case (Ok((wire, reduceOnly)), Ok(mode)) =>
        PlacementMeaning(c, o, id, mode, wire, reduceOnly, p);
        RawTextsDiffer(wire, mode);
        AttributesByName(c, wire, reduceOnly);
      case _ =>
    }
  }

  lemma RawTextsDiffer(wire: WireType, mode: TradeMode)
    ensures wire.RawText() == "market" <==> wire == WireMarket
    ensures mode.RawText() == "cross" <==> mode == Cross
  {
  }

  lemma AttributesByName(c: CreateOrder, wire: WireType, reduceOnly: bool)
    requires OrderAttributes(c) == Ok((wire, reduceOnly))
    ensures OrderTypeText(wire.RawText(), c) && reduceOnly == (DoNotIncrease in c.instructions)
  {
  }

  const PLACEMENT_NAMES := {
    "clOrdId", "tdMode", "posSide", "instIdCode", "side", "ordType", "reduceOnly",
    "sz", "px", "pxAmendType", "tgtCcy", "stpMode", "ccy" }

  lemma PlacementNames(
    c: CreateOrder, o: Order, id: string, mode: TradeMode, wire: WireType, reduceOnly: bool, p: Policy)
    ensures OnlyNames(Placement(c, o, id, mode, wire, reduceOnly, p), PLACEMENT_NAMES)
  {
    assert OnlyNames(PlacementHead(c, o, id, mode, wire, reduceOnly), PLACEMENT_NAMES);
    assert OnlyNames(PlacementTail(c, o, wire, p), PLACEMENT_NAMES);
    assert OnlyNames(WrittenExtras(mode, p), PLACEMENT_NAMES);
  }

  lemma TailFields(c: CreateOrder, o: Order, wire: WireType, mode: TradeMode, p: Policy)
    ensures
      var ms := PlacementTail(c, o, wire, p) + WrittenExtras(mode, p);
      Lookup(ms, "sz") == Some(Str(c.quantity))
      && Lookup(ms, "px") == (if wire == WireMarket then None else Some(Str(c.price)))
      && Lookup(ms, "pxAmendType") == (if wire == WireMarket then None else Some(Str(p.priceAmendType)))
      && Lookup(ms, "tgtCcy") == (if wire == WireMarket && o.isSpot then Some(Str("base_ccy")) else None)
      && Lookup(ms, "stpMode") == (if p.stpMode.Some? then Some(Str(p.stpMode.value)) else None)
      && Lookup(ms, "ccy") == (if WantsCurrency(mode, p) && p.stpMode.None? then Some(Str(p.marginCurrency)) else None)
  {
    var ms := PlacementTail(c, o, wire, p) + WrittenExtras(mode, p);
    var n := |PlacementTail(c, o, wire, p)|;
    if wire == WireMarket {
      LookupFirst(ms, "sz", if o.isSpot then 1 else 0);
      LookupMissing(ms, "px");
      LookupMissing(ms, "pxAmendType");
      if o.isSpot { LookupFirst(ms, "tgtCcy", 0); } else { LookupMissing(ms, "tgtCcy"); }
    } else {
      LookupFirst(ms, "sz", 0);
      LookupFirst(ms, "px", 1);
      LookupFirst(ms, "pxAmendType", 2);
      LookupMissing(ms, "tgtCcy");
    }
    if p.stpMode.Some? { LookupFirst(ms, "stpMode", n); } else { LookupMissing(ms, "stpMode"); }
    if WantsCurrency(mode, p) && p.stpMode.None? { LookupFirst(ms, "ccy", n); } else { LookupMissing(ms, "ccy"); }
  }

  /** The settings are honoured in full unless they ask for both trailing members. */
  lemma ExtrasHonouredIff(mode: TradeMode, p: Policy)
    ensures WrittenExtras(mode, p) == RequestedExtras(mode, p) <==> !(WantsCurrency(mode, p) && p.stpMode.Some?)
  {
    if WantsCurrency(mode, p) && p.stpMode.Some? {
      assert |WrittenExtras(mode, p)| == 1 && |RequestedExtras(mode, p)| == 2;
    }
  }

  // ---------------------------------------------------------------- amending and cancelling one order

  predicate PlainOrder(o: Order) {
    PlainText(o.externalOrderId) && PlainText(o.clientOrderId) && PlainText(o.quantity) && PlainText(o.price)
  }

  predicate PlainModify(m: ModifyOrder) {
    (m.quantity.Some? ==> PlainText(m.quantity.value)) && (m.price.Some? ==> PlainText(m.price.value))
  }

  /** The order is named by exactly one of the two identifiers, the venue's own one when it is known. */
  predicate NamesOrder(ms: seq<Member>, o: Order) {
    Lookup(ms, "instIdCode") == Some(Num(o.instIdCode))
    && if o.externalOrderId != "" then
         Lookup(ms, "ordId") == Some(Str(o.externalOrderId)) && Lookup(ms, "clOrdId") == None
       else
         Lookup(ms, "clOrdId") == Some(Str(o.clientOrderId)) && Lookup(ms, "ordId") == None
  }

  lemma AmendmentMeaning(m: ModifyOrder, o: Order, id: string, p: Policy)
    requires PlainText(id) && PlainOrder(o) && PlainModify(m) && PlainText(p.priceAmendType)
    ensures
      var fields := ActionFields(AmendmentMessage(m, o, id, p), "batch-amend-orders", id);
      fields.Some?
      && NamesOrder(fields.value, o)
      && Lookup(fields.value, "reqId") == Some(Str(id))
      && Lookup(fields.value, "newSz") == Some(Str(if m.quantity.Some? then m.quantity.value else o.quantity))
      && Lookup(fields.value, "newPx") == Some(Str(if m.price.Some? then m.price.value else o.price))
      && Lookup(fields.value, "pxAmendType") == Some(Str(p.priceAmendType))
      && OnlyNames(fields.value, {"ordId", "clOrdId", "instIdCode", "reqId", "newSz", "newPx", "pxAmendType"})
      && |fields.value| == 6
  {
    AmendmentIsPlain(m, o, id, p);
    ActionReadsBack(id, "batch-amend-orders", Amendment(m, o, id, p));
    AmendmentFields(m, o, id, p);
  }

  lemma AmendmentIsPlain(m: ModifyOrder, o: Order, id: string, p: Policy)
    requires PlainText(id) && PlainOrder(o) && PlainModify(m) && PlainText(p.priceAmendType)
    ensures PlainMembers(Amendment(m, o, id, p))
  {
    var ms := Amendment(m, o, id, p);
    CancellationIsPlain(o);
    FourArePlain(ms[2], ms[3], ms[4], ms[5]);
    PlainConcat(Cancellation(o), [ms[2], ms[3], ms[4], ms[5]]);
    assert ms == Cancellation(o) + [ms[2], ms[3], ms[4], ms[5]];
  }

  lemma CancellationIsPlain(o: Order)
    requires PlainOrder(o)
    ensures PlainMembers(Cancellation(o))
  {
    assert PlainMember(OrderIdMember(o));
    PlainMembersAt(Cancellation(o));
  }

  lemma FourArePlain(a: Member, b: Member, c: Member, d: Member)
    requires PlainMember(a) && PlainMember(b) && PlainMember(c) && PlainMember(d)
    ensures PlainMembers([a, b, c, d])
  {
    PlainMembersAt([a, b, c, d]);
  }

  lemma AmendmentFields(m: ModifyOrder, o: Order, id: string, p: Policy)
    ensures
      var ms := Amendment(m, o, id, p);
      NamesOrder(ms, o)
      && Lookup(ms, "reqId") == Some(Str(id))
      && Lookup(ms, "newSz") == Some(Str(if m.quantity.Some? then m.quantity.value else o.quantity))
      && Lookup(ms, "newPx") == Some(Str(if m.price.Some? then m.price.value else o.price))
      && Lookup(ms, "pxAmendType") == Some(Str(p.priceAmendType))
  {
    var ms := Amendment(m, o, id, p);
    LookupFirst(ms, "instIdCode", 1);
    LookupFirst(ms, "reqId", 2);
    LookupFirst(ms, "newSz", 3);
    LookupFirst(ms, "newPx", 4);
    LookupFirst(ms, "pxAmendType", 5);
    LookupFirst(ms, ms[0].name, 0);
    LookupMissing(ms, if o.externalOrderId != "" then "clOrdId" else "ordId");
  }

  lemma CancellationMeaning(o: Order, id: string)
    requires PlainText(id) && PlainOrder(o)
    ensures
      var fields := ActionFields(CancellationMessage(o, id), "batch-cancel-orders", id);
      fields.Some? && NamesOrder(fields.value, o)
      && OnlyNames(fields.value, {"ordId", "clOrdId", "instIdCode"}) && |fields.value| == 2
  {
    var ms := Cancellation(o);
    CancellationIsPlain(o);
    ActionReadsBack(id, "batch-cancel-orders", ms);
    LookupFirst(ms, "instIdCode", 1);
    LookupFirst(ms, ms[0].name, 0);
    LookupMissing(ms, if o.externalOrderId != "" then "clOrdId" else "ordId");
  }

  // ---------------------------------------------------------------- cancelling all orders

  /** How the venue decodes a batch of cancellations. */
  function DecodeItem(v: Value): Option<(int, string)> {
    if !v.Obj? then None
    else
      match (Lookup(v.members, "instIdCode"), Lookup(v.members, "ordId"))
      case (Some(Num(code)), Some(Str(ordId))) => Some((code, ordId))
      case _ => None
  }

  function DecodeItems(vs: seq<Value>): Option<seq<(int, string)>> {
    if vs == [] then Some([])
    else
      match (DecodeItem(vs[0]), DecodeItems(vs[1..]))
      case (Some(pair), Some(pairs)) => Some([pair] + pairs)
      case _ => None
  }

  function DecodeCancelAll(text: string, id: string): Option<seq<(int, string)>> {
    match Arguments(text, "batch-cancel-orders", id)
    case Some(items) => DecodeItems(items)
    case None => None
  }

  predicate PlainPairs(pairs: seq<(int, string)>) {
    forall i :: 0 <= i < |pairs| ==> PlainText(pairs[i].1)
  }

  lemma DecodeEncodedItem(pair: (int, string))
    ensures DecodeItem(CancelItem(pair)) == Some(pair)
  {
    var ms := CancelItem(pair).members;
    LookupFirst(ms, "instIdCode", 0);
    LookupFirst(ms, "ordId", 1);
  }

  lemma {:induction false} DecodeEncodedItems(pairs: seq<(int, string)>)
    ensures DecodeItems(CancelItems(pairs)) == Some(pairs)
  {
    if pairs != [] {
      DecodeEncodedItems(pairs[1..]);
      DecodeEncodedItem(pairs[0]);
      assert CancelItems(pairs)[1..] == CancelItems(pairs[1..]);
      assert pairs == [pairs[0]] + pairs[1..];
    }
  }

  lemma CancelItemsArePlain(pairs: seq<(int, string)>)
    requires PlainPairs(pairs)
    ensures PlainItems(CancelItems(pairs))
  {
    PlainItemsAt(CancelItems(pairs));
    forall i | 0 <= i < |pairs| ensures Plain(CancelItem(pairs[i])) {
      PlainMembersAt(CancelItem(pairs[i]).members);
    }
  }

  /** The message of `BatchCancelOrders` decodes, under its request id, to the pairs, in order, any sign of code. */
  lemma CancelAllRoundTrip(id: string, pairs: seq<(int, string)>)
    requires PlainText(id) && PlainPairs(pairs)
    ensures DecodeCancelAll(CancelAllMessage(id, pairs), id) == Some(pairs)
    ensures forall other :: other != id ==> DecodeCancelAll(CancelAllMessage(id, pairs), other) == None
  {
    CancelItemsArePlain(pairs);
    EnvelopeReadsBack(id, "batch-cancel-orders", CancelItems(pairs));
    DecodeEncodedItems(pairs);
  }

  /** Two different batches never share a text. */
  lemma CancelAllInjective(id: string, pairs: seq<(int, string)>, id': string, pairs': seq<(int, string)>)
    requires PlainText(id) && PlainPairs(pairs) && PlainText(id') && PlainPairs(pairs')
    requires CancelAllMessage(id, pairs) == CancelAllMessage(id', pairs')
    ensures id == id' && pairs == pairs'
  {
    CancelAllRoundTrip(id, pairs);
    CancelAllRoundTrip(id', pairs');
  }

  /** The orders a cancel-all request reaches: those the venue has given an identifier. */
  function Cancellable(orders: seq<Order>): seq<(int, string)> {
    if orders == [] then []
    else
      var rest := Cancellable(orders[..|orders| - 1]);
      var o := orders[|orders| - 1];
      if o.externalOrderId == "" then rest else rest + [(o.instIdCode, o.externalOrderId)]
  }

  /** The places of the orders a request is to reach. */
  function Places(orders: seq<Order>): seq<nat> {
    if orders == [] then []
    else
      var n := |orders| - 1;
      Places(orders[..n]) + (if orders[n].externalOrderId == "" then [] else [n])
  }

  /**
    The pairs are those of the orders at some places, in order: exactly the places of the orders that the
    venue has given an identifier.
   */
  predicate Selects(orders: seq<Order>, idx: seq<nat>, pairs: seq<(int, string)>) {
    |idx| == |pairs|
    && (forall k :: 0 <= k < |idx| ==>
          idx[k] < |orders| && pairs[k] == (orders[idx[k]].instIdCode, orders[idx[k]].externalOrderId))
    && (forall k, l :: 0 <= k < l < |idx| ==> idx[k] < idx[l])
    && (forall i :: 0 <= i < |orders| ==> (i in idx <==> orders[i].externalOrderId != ""))
  }

  lemma {:induction false} CancellableSelects(orders: seq<Order>)
    ensures Selects(orders, Places(orders), Cancellable(orders))
  {
    if orders != [] {
      var n := |orders| - 1;
      var front := orders[..n];
      CancellableSelects(front);
      assert forall i :: 0 <= i < n ==> front[i] == orders[i];
      if orders[n].externalOrderId == "" {
        assert Places(orders) == Places(front);
        assert n !in Places(front);
      } else {
        assert Places(orders) == Places(front) + [n];
        assert orders[n] == orders[|orders| - 1];
      }
    }
  }

  /** No part of any order that goes into the message needs escaping. */
  predicate PlainIds(orders: seq<Order>) {
    forall i :: 0 <= i < |orders| ==> PlainText(orders[i].externalOrderId)
  }

  /** What was sent cancels, under the request's id, exactly the orders that the venue has given an identifier. */
  predicate CancelsAll(text: string, id: string, orders: seq<Order>) {
    DecodeCancelAll(text, id).Some? && Selects(orders, Places(orders), DecodeCancelAll(text, id).value)
  }

  lemma PlainIdsPair(orders: seq<Order>)
    requires PlainIds(orders)
    ensures PlainPairs(Cancellable(orders))
  {
    CancellableSelects(orders);
  }

  /** The orders the order management system visits are the matching ones, in its own order. */
  method CancelAllOrders(buffer: Buffer, id: string, orders: seq<Order>) returns (sent: seq<string>)
    modifies buffer
    ensures sent == [] <==> forall i :: 0 <= i < |orders| ==> orders[i].externalOrderId == ""
    ensures sent != [] ==> |sent| == 1
    ensures |sent| == 1 && PlainText(id) && PlainIds(orders) ==> CancelsAll(sent[0], id, orders)
  {
    var pairs: seq<(int, string)> := [];
    for i := 0 to |orders|
      invariant pairs == Cancellable(orders[..i])
      invariant pairs == [] <==> forall j :: 0 <= j < i ==> orders[j].externalOrderId == ""
    {
      assert orders[..i + 1][..i] == orders[..i];
      if orders[i].externalOrderId != "" {
        pairs := pairs + [(orders[i].instIdCode, orders[i].externalOrderId)];
      }
    }
    assert orders[..|orders|] == orders;
    sent := [];
    if pairs != [] {
      var message := BatchCancelOrders(buffer, id, pairs);
      sent := [message];
      if PlainText(id) && PlainIds(orders) {
        PlainIdsPair(orders);
        CancelAllRoundTrip(id, pairs);
        CancellableSelects(orders);
      }
    }
  }
}
