/**
  The business stream (src/roq/okx/gateway/business.cpp): one socket asks for the candles of the whole
  registry. It has no slices and no derived channels, but the same two ways of asking as the market data
  streams: for what is new while it is READY, and for everything when it becomes READY.
 */
module Candles {
  import opened Json
  import opened SubscribeText
  import opened Subscription
  import opened SubscriptionRuns

  const CANDLE := "candle1m"

  datatype Candles = Candles(ready: bool, queue: seq<Request>, sent: seq<Request>) {
    function Asked(): seq<Request> { sent + queue }
  }

  function AskFor(c: Candles, symbols: seq<string>): Candles {
    if symbols == [] then c else c.(queue := c.queue + [Request(CANDLE, symbols)])
  }

  /** The registry has grown. */
  function OnNews(c: Candles, symbols: seq<string>, start: nat): Candles
    requires start <= |symbols|
  {
    if c.ready then AskFor(c, symbols[start..]) else c
  }

  function OnConnected(c: Candles, symbols: seq<string>): Candles {
    AskFor(c.(sent := []), symbols).(ready := true)
  }

  function OnTick(c: Candles, n: nat): Candles {
    var k := Min(n, |c.queue|);
    if c.ready then c.(sent := c.sent + c.queue[..k], queue := c.queue[k..]) else c
  }

  function OnLost(c: Candles): Candles {
    c.(ready := false, queue := [])
  }

  // ---------------------------------------------------------------- beside the market data streams

  datatype BusinessEvent =
    | Elsewhere(event: Event)
    | BusinessReady
    | BusinessTimer(n: nat)
    | BusinessDown

  datatype Pair = Pair(world: World, candles: Candles)

  predicate CanHappen(s: Pair, e: BusinessEvent) {
    match e
    case Elsewhere(event) => Possible(s.world, event)
    case BusinessReady => !s.candles.ready
    case _ => true
  }

  function Happens(cfg: Config, s: Pair, e: BusinessEvent): Pair
    requires Serviceable(cfg) && CanHappen(s, e)
  {
    match e
    case Elsewhere(event) =>
      var v := Step(cfg, s.world, event);
      OnlyGrows(cfg, s.world, event);
      Pair(v, OnNews(s.candles, v.registry.symbols, |s.world.registry.symbols|))
    case BusinessReady => s.(candles := OnConnected(s.candles, s.world.registry.symbols))
    case BusinessTimer(n) => s.(candles := OnTick(s.candles, n))
    case BusinessDown => s.(candles := OnLost(s.candles))
  }

  lemma OnlyGrows(cfg: Config, w: World, e: Event)
    requires Serviceable(cfg) && Possible(w, e)
    ensures w.registry.symbols <= Step(cfg, w, e).registry.symbols
  {
  }

  function RunPair(cfg: Config, events: seq<BusinessEvent>): Pair
    requires Serviceable(cfg)
  {
    if events == [] then Pair(INITIAL, Candles(false, [], []))
    else
      var s, e := RunPair(cfg, events[..|events| - 1]), events[|events| - 1];
      if CanHappen(s, e) then Happens(cfg, s, e) else s
  }

  // ---------------------------------------------------------------- what has been asked for

  predicate CandlesOk(c: Candles, symbols: seq<string>) {
    if c.ready then Covered(c.Asked(), {CANDLE}) == symbols else c.queue == []
  }

  lemma AskForCovers(c: Candles, before: seq<string>, more: seq<string>)
    requires Covered(c.Asked(), {CANDLE}) == before
    ensures Covered(AskFor(c, more).Asked(), {CANDLE}) == before + more
  {
    if more == [] {
      assert before + more == before;
    } else {
      CoveredConcat(c.Asked(), [Request(CANDLE, more)], {CANDLE});
      assert Covered([Request(CANDLE, more)], {CANDLE}) == more + [];
      assert c.sent + (c.queue + [Request(CANDLE, more)]) == c.Asked() + [Request(CANDLE, more)];
    }
  }

  lemma HappensKeepsOk(cfg: Config, s: Pair, e: BusinessEvent)
    requires Serviceable(cfg) && CanHappen(s, e) && CandlesOk(s.candles, s.world.registry.symbols)
    ensures var t := Happens(cfg, s, e); CandlesOk(t.candles, t.world.registry.symbols)
  {
    var symbols := s.world.registry.symbols;
    match e {
      case Elsewhere(event) =>
        var now := Step(cfg, s.world, event).registry.symbols;
        OnlyGrows(cfg, s.world, event);
        if s.candles.ready {
          AskForCovers(s.candles, symbols, now[|symbols|..]);
          assert now == symbols + now[|symbols|..];
        }
      case BusinessReady =>
        AskForCovers(s.candles.(sent := []), [], symbols);
        assert [] + symbols == symbols;
      case BusinessTimer(n) =>
        assert s.candles.ready ==> OnTick(s.candles, n).Asked() == s.candles.Asked();
      case BusinessDown =>
    }
  }

  lemma {:induction false} PairKeepsInv(cfg: Config, events: seq<BusinessEvent>)
    requires Serviceable(cfg)
    ensures Inv(cfg, RunPair(cfg, events).world)
    decreases |events|
  {
    if events == [] {
      RunKeepsInv(cfg, []);
    } else {
      var s, e := RunPair(cfg, events[..|events| - 1]), events[|events| - 1];
      PairKeepsInv(cfg, events[..|events| - 1]);
      if CanHappen(s, e) && e.Elsewhere? {
        StepKeepsInv(cfg, s.world, e.event);
      }
    }
  }

  /**
    In every run a READY business stream has asked for the candles of exactly the registry, in order, each
    instrument once; a reconnect would ask for the same.
   */
  lemma {:induction false} CandlesAreComplete(cfg: Config, events: seq<BusinessEvent>)
    requires Serviceable(cfg)
    ensures var s := RunPair(cfg, events);
      CandlesOk(s.candles, s.world.registry.symbols) && Distinct(s.world.registry.symbols)
      && (s.candles.ready ==>
            Covered(OnConnected(OnLost(s.candles), s.world.registry.symbols).Asked(), {CANDLE}) ==
            Covered(s.candles.Asked(), {CANDLE}))
    decreases |events|
  {
    PairKeepsInv(cfg, events);
    if events != [] {
      var s, e := RunPair(cfg, events[..|events| - 1]), events[|events| - 1];
      CandlesAreComplete(cfg, events[..|events| - 1]);
      if CanHappen(s, e) {
        HappensKeepsOk(cfg, s, e);
      }
    }
    var t := RunPair(cfg, events);
    AskForCovers(OnLost(t.candles).(sent := []), [], t.world.registry.symbols);
    assert [] + t.world.registry.symbols == t.world.registry.symbols;
  }

  // ---------------------------------------------------------------- what leaves the socket

  /** What one call of the timer puts on the socket. */
  function TickTexts(c: Candles, n: nat): seq<string> {
    if c.ready then Texts(c.queue[..Min(n, |c.queue|)]) else []
  }

  /** Everything that the business stream has put on its socket since it last became READY. */
  function Uttered(cfg: Config, events: seq<BusinessEvent>): seq<string>
    requires Serviceable(cfg)
    decreases |events|
  {
    if events == [] then []
    else
      var front, e := events[..|events| - 1], events[|events| - 1];
      var c := RunPair(cfg, front).candles;
      if RunPair(cfg, events).candles.ready && !c.ready then []
      else Uttered(cfg, front) + if e.BusinessTimer? then TickTexts(c, e.n) else []
  }

  /** Every request names some instruments of the registry. */
  predicate FromRegistry(rs: seq<Request>, symbols: seq<string>) {
    forall r :: r in rs ==> r.channel == CANDLE && r.symbols != [] && forall x :: x in r.symbols ==> x in symbols
  }

  lemma HappensTells(cfg: Config, s: Pair, e: BusinessEvent)
    requires Serviceable(cfg) && CanHappen(s, e)
    ensures var c := Happens(cfg, s, e).candles;
      Texts(c.sent) ==
      if c.ready && !s.candles.ready then []
      else Texts(s.candles.sent) + if e.BusinessTimer? then TickTexts(s.candles, e.n) else []
  {
    assert Texts(s.candles.sent) + [] == Texts(s.candles.sent);
  }

  lemma HappensFromRegistry(cfg: Config, s: Pair, e: BusinessEvent)
    requires Serviceable(cfg) && CanHappen(s, e) && FromRegistry(s.candles.Asked(), s.world.registry.symbols)
    ensures var t := Happens(cfg, s, e); FromRegistry(t.candles.Asked(), t.world.registry.symbols)
  {
    match e {
      case Elsewhere(event) => OnlyGrows(cfg, s.world, event);
      case BusinessTimer(n) => assert s.candles.ready ==> OnTick(s.candles, n).Asked() == s.candles.Asked();
      case _ =>
    }
  }

  lemma {:induction false} UtteredIsSent(cfg: Config, events: seq<BusinessEvent>)
    requires Serviceable(cfg)
    ensures var s := RunPair(cfg, events);
      Uttered(cfg, events) == Texts(s.candles.sent) && FromRegistry(s.candles.Asked(), s.world.registry.symbols)
    decreases |events|
  {
    if events != [] {
      var front, e := events[..|events| - 1], events[|events| - 1];
      var s := RunPair(cfg, front);
      UtteredIsSent(cfg, front);
      if CanHappen(s, e) {
        HappensTells(cfg, s, e);
        HappensFromRegistry(cfg, s, e);
      }
    }
  }

  /**
    Text by text: what the timers of a READY business stream have put on the socket and what is still queued
    is heard by the venue as the registry. A timer that may send the whole queue sends the rest of it, once.
   */
  lemma CandlesAreHeard(cfg: Config, events: seq<BusinessEvent>, n: nat, m: nat)
    requires Serviceable(cfg) && RunPair(cfg, events).candles.ready
    requires forall s :: s in RunPair(cfg, events).world.registry.symbols ==> PlainText(s)
    ensures var s := RunPair(cfg, events);
      Heard(Uttered(cfg, events) + Texts(s.candles.queue), "candle1m") == s.world.registry.symbols
    ensures var s, sent := RunPair(cfg, events), events + [BusinessTimer(n)];
      |s.candles.queue| <= n ==>
        Heard(Uttered(cfg, sent), "candle1m") == s.world.registry.symbols
        && TickTexts(RunPair(cfg, sent).candles, m) == []
  {
    AllIsHeard(cfg, events);
    var sent := events + [BusinessTimer(n)];
    assert sent[..|sent| - 1] == events;
    AllIsHeard(cfg, sent);
    assert Uttered(cfg, sent) + [] == Uttered(cfg, sent);
  }

  lemma CandlesArePlain(rs: seq<Request>, symbols: seq<string>)
    requires FromRegistry(rs, symbols) && forall s :: s in symbols ==> PlainText(s)
    ensures PlainRequests(rs)
  {
    assert PlainText(CANDLE);
  }

  lemma AllIsHeard(cfg: Config, events: seq<BusinessEvent>)
    requires Serviceable(cfg) && RunPair(cfg, events).candles.ready
    requires forall s :: s in RunPair(cfg, events).world.registry.symbols ==> PlainText(s)
    ensures var s := RunPair(cfg, events);
      Heard(Uttered(cfg, events) + Texts(s.candles.queue), "candle1m") == s.world.registry.symbols
  {
    var s := RunPair(cfg, events);
    UtteredIsSent(cfg, events);
    CandlesAreComplete(cfg, events);
    CandlesArePlain(s.candles.Asked(), s.world.registry.symbols);
    BothAreHeard(s.candles.sent, s.candles.queue, CANDLE);
  }
}
