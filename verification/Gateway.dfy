/**
  The objects that keep the state of modules Subscription and Candles: Shared, MarketData, Business,
  Controller and the two sources of instrument data (Rest and StaticData run the same loop). Each handler
  is proved to take the step its event stands for. The queue holds texts, as in the source; which request a
  text stands for is ghost, and so are the log of what a stream has sent since it became READY and the set
  of instruments first met in instrument data.
 */
module Gateway {
  import opened Wrappers
  import opened SubscribeText
  import opened Subscription
  import opened SubscriptionRuns
  import opened Candles

  class Shared {
    const cfg: Config
    var symbols: seq<string>
    var allSymbols: set<string>
    var extendedSymbols: set<string>
    ghost var native: set<string>

    constructor (cfg: Config)
      ensures this.cfg == cfg && View() == INITIAL.registry
    {
      this.cfg := cfg;
      symbols, allSymbols, extendedSymbols, native := [], {}, {}, {};
    }

    ghost function View(): Registry
      reads this
    {
      Registry(symbols, allSymbols, extendedSymbols, native)
    }

    /** The symbol table: appends, and tells the number of slices and the old length. */
    method AddSymbols(news: seq<string>) returns (size: nat, startFrom: nat)
      requires cfg.perStream > 0
      modifies this`symbols
      ensures symbols == old(symbols) + news
      ensures size == SliceCount(|symbols|, cfg.perStream) && startFrom == old(|symbols|)
    {
      startFrom := |symbols|;
      symbols := symbols + news;
      size := SliceCount(|symbols|, cfg.perStream);
    }
  }

  class MarketData {
    const shared: Shared
    const streamId: nat
    const index: nat
    var connectionStatus: Status
    var download: Download
    var subscribeQueue: seq<string>
    ghost var requests: seq<Request>
    ghost var sent: seq<Request>

    constructor (shared: Shared, streamId: nat, index: nat)
      ensures this.shared == shared && this.streamId == streamId && this.index == index
      ensures Valid() && View() == NewStream(index)
    {
      this.shared, this.streamId, this.index := shared, streamId, index;
      connectionStatus, download := Disconnected, Idle;
      subscribeQueue, requests, sent := [], [], [];
    }

    ghost predicate Valid()
      reads this
    {
      subscribeQueue == Texts(requests)
    }

    ghost function View(): Stream
      reads this
    {
      Stream(index, download, connectionStatus, requests, sent)
    }

    method Subscribe(startFrom: nat)
      requires Valid() && Serviceable(shared.cfg)
      modifies this`subscribeQueue, this`requests
      ensures Valid() && View() == Ask(shared.cfg, shared.View(), old(View()), startFrom)
    {
      if connectionStatus == Ready {
        SubscribeSymbols(Slice(shared.symbols, shared.cfg.perStream, index, startFrom));
      }
    }

    method SubscribeSymbols(symbols: seq<string>)
      requires Valid() && Serviceable(shared.cfg)
      modifies this`subscribeQueue, this`requests
      ensures Valid() && requests == old(requests) + Requests(shared.cfg, shared.extendedSymbols, symbols)
    {
      if symbols == [] {
        return;
      }
      ghost var before := requests;
      SubscribeList(TICKERS, symbols);
      SubscribeList(TRADES, symbols);
      SubscribeList(BBO, symbols);
      SubscribeList(BooksChannel(shared.cfg).value, symbols);
      ghost var four := [ Request(TICKERS, symbols), Request(TRADES, symbols), Request(BBO, symbols),
                          Request(BooksChannel(shared.cfg).value, symbols) ];
      assert requests == before + four;
      SubscribeDerived(symbols);
      ghost var derived := Derived(shared.cfg, shared.extendedSymbols, symbols);
      assert before + four + derived == before + (four + derived);
    }

    /** Different channels exist for underlyings and for swaps and futures. */
    method SubscribeDerived(symbols: seq<string>)
      requires Valid()
      modifies this`subscribeQueue, this`requests
      ensures Valid() && requests == old(requests) + Derived(shared.cfg, shared.extendedSymbols, symbols)
    {
      ghost var before, cfg, known := requests, shared.cfg, shared.extendedSymbols;
      assert symbols[0..] == symbols;
      for k := 0 to |symbols|
        invariant Valid()
        invariant requests + Derived(cfg, known, symbols[k..]) == before + Derived(cfg, known, symbols)
      {
        ghost var here := requests;
        var extended := symbols[k] in shared.extendedSymbols;
        if shared.cfg.includeBad || extended {
          SubscribeOne(FUNDING, symbols[k]);
        }
        if shared.cfg.includeBad || !extended {
          SubscribeOne(INDEX, symbols[k]);
        }
        DerivedAt(cfg, known, symbols, k, here, requests);
      }
      assert symbols[|symbols|..] == [];
      assert requests + [] == requests;
    }

    method SubscribeList(channel: string, values: seq<string>)
      requires Valid()
      modifies this`subscribeQueue, this`requests
      ensures Valid() && requests == old(requests) + [Request(channel, values)]
    {
      subscribeQueue := subscribeQueue + [ListText(channel, "instId", values)];
      requests := requests + [Request(channel, values)];
    }

    method SubscribeOne(channel: string, value: string)
      requires Valid()
      modifies this`subscribeQueue, this`requests
      ensures Valid() && requests == old(requests) + [Request(channel, [value])]
    {
      ScalarIsSingleton(channel, "instId", value);
      subscribeQueue := subscribeQueue + [ScalarText(channel, "instId", value)];
      requests := requests + [Request(channel, [value])];
    }

    /** The callback of the download helper: what a state does, and how many acknowledgements it awaits. */
    method OnDownload(state: Download) returns (acks: nat)
      requires Valid() && Serviceable(shared.cfg) && state != Idle
      modifies this`connectionStatus, this`subscribeQueue, this`requests, this`sent
      ensures Valid()
      ensures state == Login && !shared.cfg.hasAccount ==> acks == 0 && View() == old(View())
      ensures state == Login && shared.cfg.hasAccount ==> acks == 1 && View() == old(View()).(status := LoginSent)
      ensures state == Done ==>
                acks == 0
                && View() == Ask(shared.cfg, shared.View(), old(View()).(status := Ready, sent := []), 0)
    {
      match state {
        case Idle =>
        case Login =>
          if !shared.cfg.hasAccount {
            return 0;
          } else {
            connectionStatus := LoginSent;
            return 1;
          }
        case Done =>
          connectionStatus := Ready;
          sent := [];
          Subscribe(0);
          return 0;
      }
    }

    method Begin()
      requires Valid() && Serviceable(shared.cfg)
      modifies this
      ensures Valid() && View() == OnReady(shared.cfg, shared.View(), old(View()))
    {
      download := Login;
      var acks := OnDownload(Login);
      if acks == 0 {
        download := Done;
        acks := OnDownload(Done);
      }
    }

    method LoginAcknowledged()
      requires Valid() && Serviceable(shared.cfg)
      modifies this
      ensures Valid() && View() == OnLogin(shared.cfg, shared.View(), old(View()))
    {
      if download == Login {
        download := Done;
        var acks := OnDownload(Done);
      }
    }

    /** The rate limiter decides how much of the queue may go. */
    method CheckSubscribeQueue(n: nat) returns (messages: seq<string>)
      requires Valid() && Serviceable(shared.cfg)
      modifies this`subscribeQueue, this`requests, this`sent
      ensures Valid() && View() == OnTimer(old(View()), n) && messages == TimerTexts(old(View()), n)
      ensures messages + subscribeQueue == old(subscribeQueue)
      ensures Texts(sent) == Texts(old(sent)) + messages
      ensures |messages| == if connectionStatus == Ready then Min(n, |old(subscribeQueue)|) else 0
    {
      messages := [];
      ghost var rs := requests;
      if connectionStatus == Ready {
        messages := Dispatch(n);
      }
      TextsSplit(rs, |messages|);
      TextsConcat(old(sent), rs[..|messages|]);
    }

    method Dispatch(n: nat) returns (messages: seq<string>)
      requires |requests| == |subscribeQueue|
      modifies this`subscribeQueue, this`requests, this`sent
      ensures |messages| == Min(n, |old(subscribeQueue)|)
      ensures messages == old(subscribeQueue)[..|messages|]
      ensures subscribeQueue == old(subscribeQueue)[|messages|..]
      ensures requests == old(requests)[|messages|..]
      ensures sent == old(sent) + old(requests)[..|messages|]
    {
      messages := [];
      while subscribeQueue != [] && |messages| < n
        invariant |messages| <= Min(n, |old(subscribeQueue)|)
        invariant messages == old(subscribeQueue)[..|messages|]
        invariant subscribeQueue == old(subscribeQueue)[|messages|..]
        invariant requests == old(requests)[|messages|..]
        invariant sent == old(sent) + old(requests)[..|messages|]
        decreases |subscribeQueue|
      {
        OneMoves(old(subscribeQueue), old(requests), |messages|);
        messages := messages + [subscribeQueue[0]];
        subscribeQueue := subscribeQueue[1..];
        sent := sent + [requests[0]];
        requests := requests[1..];
      }
    }

    method SocketDisconnected()
      requires Valid()
      modifies this
      ensures Valid() && View() == OnDown(old(View()))
    {
      connectionStatus := Disconnected;
      download := Idle;
      subscribeQueue := [];
      requests := [];
    }
  }

  /** The stream of candles; it serves the whole registry. */
  class Business {
    const shared: Shared
    const streamId: nat
    var ready: bool
    var subscribeQueue: seq<string>
    ghost var requests: seq<Request>
    ghost var sent: seq<Request>

    constructor (shared: Shared, streamId: nat)
      ensures this.shared == shared && this.streamId == streamId
      ensures Valid() && View() == Candles(false, [], [])
    {
      this.shared, this.streamId := shared, streamId;
      ready := false;
      subscribeQueue, requests, sent := [], [], [];
    }

    ghost predicate Valid()
      reads this
    {
      subscribeQueue == Texts(requests)
    }

    ghost function View(): Candles
      reads this
    {
      Candles(ready, requests, sent)
    }

    method Subscribe(startFrom: nat)
      requires Valid() && startFrom <= |shared.symbols|
      modifies this`subscribeQueue, this`requests
      ensures Valid() && View() == OnNews(old(View()), shared.symbols, startFrom)
    {
      if ready {
        SubscribeSymbols(shared.symbols[startFrom..]);
      }
    }

    method SubscribeSymbols(symbols: seq<string>)
      requires Valid()
      modifies this`subscribeQueue, this`requests
      ensures Valid() && View() == AskFor(old(View()), symbols)
    {
      if symbols == [] {
        return;
      }
      subscribeQueue := subscribeQueue + [ListText(CANDLE, "instId", symbols)];
      requests := requests + [Request(CANDLE, symbols)];
    }

    method SocketReady()
      requires Valid()
      modifies this
      ensures Valid() && View() == OnConnected(old(View()), shared.symbols)
    {
      sent := [];
      SubscribeSymbols(shared.symbols);
      ready := true;
    }

    /** The rate limiter decides how much of the queue may go. */
    method CheckSubscribeQueue(n: nat) returns (messages: seq<string>)
      requires Valid()
      modifies this`subscribeQueue, this`requests, this`sent
      ensures Valid() && View() == OnTick(old(View()), n)
      ensures messages == TickTexts(old(View()), n)
      ensures messages + subscribeQueue == old(subscribeQueue)
      ensures Texts(sent) == Texts(old(sent)) + messages
      ensures |messages| == if ready then Min(n, |old(subscribeQueue)|) else 0
    {
      messages := [];
      if ready {
        var k := Min(n, |subscribeQueue|);
        TextsSplit(requests, k);
        TextsConcat(sent, requests[..k]);
        messages := subscribeQueue[..k];
        subscribeQueue := subscribeQueue[k..];
        sent := sent + requests[..k];
        requests := requests[k..];
      }
    }

    method SocketDisconnected()
      requires Valid()
      modifies this
      ensures Valid() && View() == OnLost(old(View()))
    {
      ready := false;
      subscribeQueue := [];
      requests := [];
    }
  }

  /** One text, and the request it stands for, move from what waits to what has been sent. */
  lemma OneMoves(texts: seq<string>, rs: seq<Request>, k: nat)
    requires k < |texts| && |texts| == |rs|
    ensures texts[k..][0] == texts[k] && texts[k..][1..] == texts[k + 1..] && texts[..k + 1] == texts[..k] + [texts[k]]
    ensures rs[k..][0] == rs[k] && rs[k..][1..] == rs[k + 1..] && rs[..k + 1] == rs[..k] + [rs[k]]
  {
  }

  /** One round of the loop over derived channels. */
  lemma DerivedAt(
    cfg: Config, known: set<string>, symbols: seq<string>, k: nat, here: seq<Request>, after: seq<Request>)
    requires k < |symbols|
    requires after == here
                      + (if cfg.includeBad || symbols[k] in known then [Request(FUNDING, [symbols[k]])] else [])
                      + (if cfg.includeBad || symbols[k] !in known then [Request(INDEX, [symbols[k]])] else [])
    ensures here + Derived(cfg, known, symbols[k..]) == after + Derived(cfg, known, symbols[k + 1..])
  {
    assert symbols[k..][0] == symbols[k] && symbols[k..][1..] == symbols[k + 1..];
  }

  const STREAM_IDS := 0x1_0000

  class Controller {
    const shared: Shared
    const restId: nat
    const orderEntryIds: seq<nat>
    const dropCopyIds: seq<nat>
    const staticDataId: nat
    const business: Business?
    var streamId: nat
    var marketData: seq<MarketData>

    ghost predicate Valid()
      reads this, marketData, business
    {
      Serviceable(shared.cfg) && StreamsValid() && Numbered(Ids()) && streamId == |Ids()| % STREAM_IDS
      && (business != null ==> business.shared == shared && business.Valid())
    }

    /** The business stream, if there is one. */
    ghost function BusinessView(): Option<Candles>
      reads this, business
    {
      if business == null then None else Some(business.View())
    }

    ghost predicate StreamsValid()
      reads this, marketData
    {
      (forall i :: 0 <= i < |marketData| ==>
         marketData[i].shared == shared && marketData[i].index == i && marketData[i].Valid())
      && (forall i, j :: 0 <= i < j < |marketData| ==> marketData[i] != marketData[j])
    }

    ghost function Streams(): seq<Stream>
      reads this, marketData
    {
      seq(|marketData|, i requires 0 <= i < |marketData| reads this, marketData => marketData[i].View())
    }

    ghost function View(): World
      reads this, shared, marketData
    {
      World(shared.View(), Streams())
    }

    /** The identifiers of all streams but the business one, in order of creation. */
    ghost function Ids(): seq<nat>
      reads this, marketData
    {
      [restId] + orderEntryIds + dropCopyIds + [staticDataId]
      + seq(|marketData|, i requires 0 <= i < |marketData| reads this, marketData => marketData[i].streamId)
    }

    /** One order entry and one drop copy stream per account; the business stream takes no number of its own. */
    constructor (shared: Shared, accounts: nat, timeSeries: bool)
      requires Serviceable(shared.cfg)
      ensures this.shared == shared && Valid() && View() == World(shared.View(), [])
      ensures |Ids()| == 2 * accounts + 2
      ensures if timeSeries then
                business != null && business.streamId == staticDataId && business.View() == Candles(false, [], [])
              else business == null
    {
      var rest := Next(0);
      var id := rest;
      var oe: seq<nat> := [];
      for k := 0 to accounts
        invariant |oe| == k && Numbered([rest] + oe) && id == |[rest] + oe| % STREAM_IDS
      {
        id := Next(id);
        NumberedAppend([rest] + oe, id);
        assert [rest] + (oe + [id]) == [rest] + oe + [id];
        oe := oe + [id];
      }
      var dc: seq<nat> := [];
      for k := 0 to accounts
        invariant |dc| == k && Numbered([rest] + oe + dc) && id == |[rest] + oe + dc| % STREAM_IDS
      {
        id := Next(id);
        NumberedAppend([rest] + oe + dc, id);
        assert [rest] + oe + (dc + [id]) == [rest] + oe + dc + [id];
        dc := dc + [id];
      }
      id := Next(id);
      NumberedAppend([rest] + oe + dc, id);
      this.shared := shared;
      restId, orderEntryIds, dropCopyIds, staticDataId := rest, oe, dc, id;
      if timeSeries {
        business := new Business(shared, id);
      } else {
        business := null;
      }
      streamId := id;
      marketData := [];
      new;
      assert Ids() == [rest] + oe + dc + [id];
    }

    method AddStream()
      requires Valid()
      modifies this`marketData, this`streamId
      ensures Valid()
      ensures |marketData| == |old(marketData)| + 1 && marketData[..|old(marketData)|] == old(marketData)
      ensures fresh(marketData[|old(marketData)|])
      ensures Streams() == old(Streams()) + [NewStream(|old(marketData)|)]
    {
      ghost var ids, streams := Ids(), Streams();
      streamId := Next(streamId);
      var stream := new MarketData(shared, streamId, |marketData|);
      NumberedAppend(ids, streamId);
      assert stream !in marketData;
      marketData := marketData + [stream];
      assert Ids() == ids + [streamId];
      assert Streams() == streams + [stream.View()];
    }

    method EnsureSymbolSlices(size: nat)
      requires Valid()
      modifies this`marketData, this`streamId
      ensures Valid()
      ensures old(marketData) <= marketData
      ensures forall i :: |old(marketData)| <= i < |marketData| ==> fresh(marketData[i])
      ensures Streams() == Grown(old(Streams()), size)
    {
      while |marketData| < size
        invariant Valid()
        invariant old(marketData) <= marketData
        invariant forall i :: |old(marketData)| <= i < |marketData| ==> fresh(marketData[i])
        invariant Streams() == Grown(old(Streams()), |marketData|)
        invariant |marketData| <= if size < |old(marketData)| then |old(marketData)| else size
      {
        AddStream();
      }
    }

    method AskStreams(startFrom: nat)
      requires Valid()
      modifies marketData
      ensures Valid()
      ensures Streams() == AskAll(shared.cfg, shared.View(), old(Streams()), startFrom)
    {
      ghost var streams, ids := Streams(), Ids();
      for i := 0 to |marketData|
        invariant StreamsValid() && |Streams()| == |streams|
        invariant forall j :: 0 <= j < i ==> Streams()[j] == Ask(shared.cfg, shared.View(), streams[j], startFrom)
        invariant forall j :: i <= j < |streams| ==> Streams()[j] == streams[j]
      {
        AskStream(i, startFrom);
      }
      assert Ids() == ids;
    }

    method AskStream(i: nat, startFrom: nat)
      requires Serviceable(shared.cfg) && StreamsValid() && i < |marketData|
      modifies marketData[i]
      ensures StreamsValid()
      ensures Streams() == old(Streams())[i := Ask(shared.cfg, shared.View(), old(Streams()[i]), startFrom)]
    {
      marketData[i].Subscribe(startFrom);
    }

    /** Controller::operator()(Trace<SymbolsUpdate>): grow the table, then the streams, then ask. */
    method SymbolsUpdated(news: seq<string>)
      requires Valid()
      modifies this`marketData, this`streamId, shared`symbols, marketData, business
      ensures Valid()
      ensures View() == SymbolsUpdate(shared.cfg, old(View()), news)
      ensures BusinessView() == Told(old(BusinessView()), shared.symbols, old(|shared.symbols|))
    {
      var size, startFrom := shared.AddSymbols(news);
      assert Streams() == old(Streams());
      EnsureSymbolSlices(size);
      AskStreams(startFrom);
      TellBusiness(startFrom);
    }

    method TellBusiness(startFrom: nat)
      requires Valid() && startFrom <= |shared.symbols|
      modifies business
      ensures Valid() && View() == old(View())
      ensures BusinessView() == Told(old(BusinessView()), shared.symbols, startFrom)
    {
      ghost var streams, ids := Streams(), Ids();
      if business != null {
        business.Subscribe(startFrom);
      }
      assert Streams() == streams && Ids() == ids;
    }

    /** Controller::operator()(Event<Subscribe>): the client names instruments of its own. */
    method Subscribe(names: seq<string>)
      requires Valid()
      modifies this`marketData, this`streamId, shared, marketData, business
      ensures Valid()
      ensures View() == OnClient(shared.cfg, old(View()), names)
      ensures BusinessView() == Told(old(BusinessView()), shared.symbols, old(|shared.symbols|))
    {
      var news := RegisterNames(names);
      SymbolsUpdated(news);
    }

    method RegisterNames(names: seq<string>) returns (news: seq<string>)
      modifies shared`allSymbols
      ensures news == Fresh(old(shared.allSymbols), names)
      ensures shared.allSymbols == old(shared.allSymbols) + Elements(news)
    {
      ghost var all := shared.allSymbols;
      news := [];
      assert names[0..] == names;
      for k := 0 to |names|
        invariant shared.allSymbols == all + Elements(news)
        invariant news + Fresh(shared.allSymbols, names[k..]) == Fresh(all, names)
      {
        FreshAt(shared.allSymbols, names, k, news);
        if names[k] !in shared.allSymbols {
          shared.allSymbols := shared.allSymbols + {names[k]};
          ElementsAppend(news, names[k]);
          news := news + [names[k]];
        }
      }
      assert news + [] == news;
    }
  }

  lemma ElementsAppend(news: seq<string>, x: string)
    ensures Elements(news + [x]) == Elements(news) + {x}
  {
  }

  /** One round of a registration loop. */
  lemma FreshAt(all: set<string>, names: seq<string>, k: nat, news: seq<string>)
    requires k < |names|
    ensures news + Fresh(all, names[k..]) ==
            if names[k] in all then news + Fresh(all, names[k + 1..])
            else news + [names[k]] + Fresh(all + {names[k]}, names[k + 1..])
  {
    assert names[k..][0] == names[k] && names[k..][1..] == names[k + 1..];
  }

  /** What the business stream, if there is one, does about a registry that has grown. */
  function Told(c: Option<Candles>, symbols: seq<string>, start: nat): Option<Candles>
    requires start <= |symbols|
  {
    if c == None then None else Some(OnNews(c.value, symbols, start))
  }

  /** The seed is a 16-bit counter. */
  function Next(id: nat): nat {
    (id + 1) % STREAM_IDS
  }

  /** The k-th stream carries the number k + 1, as far as 16 bits tell. */
  predicate Numbered(ids: seq<nat>) {
    forall k :: 0 <= k < |ids| ==> ids[k] == (k + 1) % STREAM_IDS
  }

  lemma NumberedAppend(ids: seq<nat>, id: nat)
    requires Numbered(ids) && id == Next(|ids| % STREAM_IDS)
    ensures Numbered(ids + [id]) && id == |ids + [id]| % STREAM_IDS
  {
  }

  /** Stream identifiers are pairwise distinct exactly as long as no more than 65536 streams exist. */
  lemma IdsDistinctIff(ids: seq<nat>)
    requires Numbered(ids)
    ensures (forall i, j :: 0 <= i < j < |ids| ==> ids[i] != ids[j]) <==> |ids| <= STREAM_IDS
  {
    if |ids| > STREAM_IDS {
      assert ids[0] == ids[STREAM_IDS];
    }
  }

  /** Rest and StaticData: the loop over the instruments of one message. */
  class InstrumentSource {
    const shared: Shared
    const handler: Controller

    constructor (handler: Controller)
      ensures this.handler == handler && shared == handler.shared
    {
      this.handler, shared := handler, handler.shared;
    }

    method Instruments(items: seq<Instrument>)
      requires handler.Valid() && shared == handler.shared
      modifies handler`marketData, handler`streamId, shared, handler.marketData, handler.business
      ensures handler.Valid()
      ensures handler.View() == OnInstruments(shared.cfg, old(handler.View()), items)
      ensures handler.BusinessView() == Told(old(handler.BusinessView()), shared.symbols, old(|shared.symbols|))
    {
      var news := RegisterInstruments(items);
      shared.native := shared.native + Elements(news);
      if news != [] {
        handler.SymbolsUpdated(news);
      }
    }

    method RegisterInstruments(items: seq<Instrument>) returns (news: seq<string>)
      modifies shared`allSymbols, shared`extendedSymbols
      ensures news == Fresh(old(shared.allSymbols), Kept(items))
      ensures shared.allSymbols == old(shared.allSymbols) + Elements(news)
      ensures shared.extendedSymbols == old(shared.extendedSymbols) + Funded(items)
    {
      ghost var all := shared.allSymbols;
      news := [];
      assert items[0..] == items;
      for k := 0 to |items|
        invariant shared.allSymbols == all + Elements(news)
        invariant shared.extendedSymbols == old(shared.extendedSymbols) + Funded(items[..k])
        invariant news + Fresh(shared.allSymbols, Kept(items[k..])) == Fresh(all, Kept(items))
      {
        FundedGrows(items, k);
        KeptAt(items, k);
        var item := items[k];
        if item.discard {
          continue;
        }
        FreshAt(shared.allSymbols, Kept(items[k..]), 0, news);
        if item.symbol !in shared.allSymbols {
          shared.allSymbols := shared.allSymbols + {item.symbol};
          ElementsAppend(news, item.symbol);
          news := news + [item.symbol];
        }
        match item.kind {
          case SwapType =>
            shared.extendedSymbols := shared.extendedSymbols + {item.symbol};
          case FuturesType =>
            shared.extendedSymbols := shared.extendedSymbols + {item.symbol};
          case _ =>
        }
      }
      assert items[..|items|] == items;
      assert news + [] == news;
    }
  }

  lemma KeptAt(items: seq<Instrument>, k: nat)
    requires k < |items|
    ensures Kept(items[k..]) == (if items[k].discard then [] else [items[k].symbol]) + Kept(items[k + 1..])
    ensures items[k].discard ==> Kept(items[k..]) == Kept(items[k + 1..])
    ensures !items[k].discard ==>
              Kept(items[k..]) != [] && Kept(items[k..])[0] == items[k].symbol
              && Kept(items[k..])[1..] == Kept(items[k + 1..])
              && Kept(items[k..])[0..] == Kept(items[k..])
  {
    assert items[k..][0] == items[k] && items[k..][1..] == items[k + 1..];
    assert [] + Kept(items[k + 1..]) == Kept(items[k + 1..]);
  }

  lemma FundedGrows(items: seq<Instrument>, k: nat)
    requires k < |items|
    ensures Funded(items[..k + 1]) ==
            Funded(items[..k]) + (if !items[k].discard && items[k].HasFunding() then {items[k].symbol} else {})
  {
    var a, b := items[..k], items[..k + 1];
    assert forall j :: 0 <= j < k ==> a[j] == b[j];
    assert b[k] == items[k];
    forall x | x in Funded(b)
      ensures x in Funded(a) || (!items[k].discard && items[k].HasFunding() && x == items[k].symbol)
    {
      var j :| 0 <= j < |b| && !b[j].discard && b[j].HasFunding() && b[j].symbol == x;
      if j < k { assert a[j].symbol == x; }
    }
    forall x | x in Funded(a) ensures x in Funded(b) {
      var j :| 0 <= j < |a| && !a[j].discard && a[j].HasFunding() && a[j].symbol == x;
      assert b[j].symbol == x;
    }
    if !items[k].discard && items[k].HasFunding() {
      assert b[k].symbol in Funded(b);
    }
  }

  /** The event of a stream, on that stream alone. */
  function Moved(cfg: Config, r: Registry, s: Stream, e: Event): Stream
    requires Serviceable(cfg)
  {
    match e
    case SocketReady(_) => OnReady(cfg, r, s)
    case LoginAck(_) => OnLogin(cfg, r, s)
    case Timer(_, n) => OnTimer(s, n)
    case SocketDown(_) => OnDown(s)
    case _ => s
  }

  method HandleOne(m: MarketData, e: Event) returns (messages: seq<string>)
    requires m.Valid() && Serviceable(m.shared.cfg)
    modifies m
    ensures m.Valid() && m.View() == Moved(m.shared.cfg, m.shared.View(), old(m.View()), e)
    ensures messages == if e.Timer? then TimerTexts(old(m.View()), e.n) else []
  {
    messages := [];
    match e {
      case SocketReady(_) => m.Begin();
      case LoginAck(_) => m.LoginAcknowledged();
      case Timer(_, n) => messages := m.CheckSubscribeQueue(n);
      case SocketDown(_) => m.SocketDisconnected();
      case _ =>
    }
  }

  method HandleStream(c: Controller, i: nat, e: Event) returns (messages: seq<string>)
    requires c.Valid() && i < |c.marketData|
    modifies c.marketData[i]
    ensures c.Valid()
    ensures var moved := Moved(c.shared.cfg, c.shared.View(), old(c.Streams()[i]), e);
      c.View() == old(c.View()).(streams := old(c.Streams())[i := moved])
    ensures messages == if e.Timer? then TimerTexts(old(c.Streams()[i]), e.n) else []
  {
    ghost var ids := c.Ids();
    messages := HandleOne(c.marketData[i], e);
    assert c.Ids() == ids;
  }

  /** Whatever event reaches the objects, together they take the step it stands for and send what it sends. */
  method Handle(c: Controller, source: InstrumentSource, e: Event) returns (messages: seq<string>)
    requires c.Valid() && source.handler == c && source.shared == c.shared && Possible(c.View(), e)
    modifies c, c.shared, c.marketData, c.business
    ensures c.Valid()
    ensures c.View() == Step(c.shared.cfg, old(c.View()), e)
    ensures e.Timer? ==> messages == TextsOf(old(c.View()), e, e.i)
    ensures !e.Timer? ==> messages == []
    ensures old(|c.shared.symbols|) <= |c.shared.symbols|
    ensures c.BusinessView() == Told(old(c.BusinessView()), c.shared.symbols, old(|c.shared.symbols|))
  {
    messages := [];
    match e {
      case ClientSubscribe(names) => c.Subscribe(names);
      case InstrumentData(items) => source.Instruments(items);
      case SocketReady(i) => messages := HandleStream(c, i, e);
      case LoginAck(i) => messages := HandleStream(c, i, e);
      case Timer(i, _) => messages := HandleStream(c, i, e);
      case SocketDown(i) => messages := HandleStream(c, i, e);
    }
  }

  /** With a business stream, any event at all: the step of the pair. */
  method HandlePair(c: Controller, source: InstrumentSource, e: BusinessEvent) returns (messages: seq<string>)
    requires c.Valid() && source.handler == c && source.shared == c.shared && c.business != null
    requires CanHappen(Pair(c.View(), c.business.View()), e)
    modifies c, c.shared, c.marketData, c.business
    ensures c.Valid()
    ensures Pair(c.View(), c.business.View()) == Happens(c.shared.cfg, old(Pair(c.View(), c.business.View())), e)
    ensures e.BusinessTimer? ==> messages == TickTexts(old(c.business.View()), e.n)
  {
    messages := [];
    ghost var streams, ids := c.Streams(), c.Ids();
    match e {
      case Elsewhere(event) =>
        messages := Handle(c, source, event);
        return;
      case BusinessReady => c.business.SocketReady();
      case BusinessTimer(n) => messages := c.business.CheckSubscribeQueue(n);
      case BusinessDown => c.business.SocketDisconnected();
    }
    assert c.Streams() == streams && c.Ids() == ids;
  }
}
