/**
  Which instruments are known, and which of them each market data stream has asked for: the state shared
  by Controller, Rest, StaticData and MarketData, one pure step function per event, and the invariants
  of all its runs. The classes of module Gateway are proved to take exactly these steps.

  A market data stream serves one slice of the ordered registry. While it is READY it asks only for what
  is new; after a reconnect it asks for its whole slice again. The main theorem says that nobody can tell
  the difference.
 */
module Subscription {
  import opened Wrappers
  import opened SubscribeText

  datatype Config = Config(
    perStream: nat,
    booksDepth: nat,
    booksUsePublic: bool,
    hasAccount: bool,
    includeBad: bool)

  /** The order book channel; None where the gateway gives up and terminates. */
  function BooksChannel(cfg: Config): Option<string> {
    var vip := cfg.hasAccount && !cfg.booksUsePublic;
    if cfg.booksDepth == 5 then Some("books5")
    else if cfg.booksDepth == 50 then if vip then Some("books50-l2-tbt") else None
    else if cfg.booksDepth == 400 then Some(if vip then "books-l2-tbt" else "books")
    else None
  }

  predicate Serviceable(cfg: Config) {
    cfg.perStream > 0 && BooksChannel(cfg).Some?
  }

  datatype Request = Request(channel: string, symbols: seq<string>)

  function Text(r: Request): string {
    ListText(r.channel, "instId", r.symbols)
  }

  datatype Status = Disconnected | LoginSent | Ready

  datatype Download = Idle | Login | Done

  /** One market data stream; `sent` is what has left the socket since the stream last became READY. */
  datatype Stream = Stream(index: nat, download: Download, status: Status, queue: seq<Request>, sent: seq<Request>) {
    function Asked(): seq<Request> { sent + queue }
  }

  /**
    `symbols` is the ordered registry, `all` its members, `extended` the instruments that carry a funding
    rate, `native` (history only) those first registered from instrument data.
   */
  datatype Registry = Registry(symbols: seq<string>, all: set<string>, extended: set<string>, native: set<string>)

  datatype World = World(registry: Registry, streams: seq<Stream>)

  datatype InstrumentType =
    | UndefinedType | UnknownType | SpotType | MarginType | SwapType | FuturesType | OptionType

  datatype Instrument = Instrument(symbol: string, discard: bool, kind: InstrumentType) {
    predicate HasFunding() { kind.SwapType? || kind.FuturesType? }
  }

  datatype Event =
    | ClientSubscribe(names: seq<string>)
    | InstrumentData(items: seq<Instrument>)
    | SocketReady(i: nat)
    | LoginAck(i: nat)
    | Timer(i: nat, n: nat)
    | SocketDown(i: nat)

  // ---------------------------------------------------------------- the registry

  function Min(a: int, b: int): int { if a < b then a else b }

  function Max(a: int, b: int): int { if a < b then b else a }

  /** The part of slice `index` at or after position `start`. */
  function Slice(symbols: seq<string>, perStream: nat, index: nat, start: nat): seq<string> {
    Part(symbols, index * perStream, (index + 1) * perStream, start)
  }

  function Part(symbols: seq<string>, from: int, to: int, start: nat): seq<string> {
    var lo, hi := Max(from, start), Min(to, |symbols|);
    if lo < hi then symbols[lo..hi] else []
  }

  function SliceCount(n: nat, perStream: nat): nat
    requires perStream > 0
  {
    (n + perStream - 1) / perStream
  }

  /** The names not registered yet, each once, in order of first appearance. */
  function Fresh(all: set<string>, names: seq<string>): seq<string>
    decreases |names|
  {
    if names == [] then []
    else if names[0] in all then Fresh(all, names[1..])
    else [names[0]] + Fresh(all + {names[0]}, names[1..])
  }

  function Kept(items: seq<Instrument>): seq<string> {
    if items == [] then []
    else (if items[0].discard then [] else [items[0].symbol]) + Kept(items[1..])
  }

  function Funded(items: seq<Instrument>): set<string> {
    set k | 0 <= k < |items| && !items[k].discard && items[k].HasFunding() :: items[k].symbol
  }

  function Elements(names: seq<string>): set<string> {
    set s | s in names
  }

  // ---------------------------------------------------------------- requests

  const TICKERS := "tickers"
  const TRADES := "trades"
  const BBO := "bbo-tbt"
  const FUNDING := "funding-rate"
  const INDEX := "index-tickers"

  /** By name: the three fixed data channels, and the order books by depth and by access to the VIP channels. */
  predicate DataChannel(cfg: Config, channel: string) {
    channel in {"tickers", "trades", "bbo-tbt"}
    || (cfg.booksDepth == 5 && channel == "books5")
    || (cfg.booksDepth == 50 && channel == "books50-l2-tbt")
    || (cfg.booksDepth == 400 && channel == if cfg.hasAccount && !cfg.booksUsePublic then "books-l2-tbt" else "books")
  }

  /** Which depths are served, and by which channel: fifty levels are for VIP members only. */
  lemma ServedIff(cfg: Config, channel: string)
    ensures BooksChannel(cfg).Some? <==>
            cfg.booksDepth in {5, 400} || (cfg.booksDepth == 50 && cfg.hasAccount && !cfg.booksUsePublic)
    ensures BooksChannel(cfg).Some? ==>
              (DataChannel(cfg, channel) <==> channel in {TICKERS, TRADES, BBO, BooksChannel(cfg).value})
  {
  }

  function Derived(cfg: Config, extended: set<string>, symbols: seq<string>): seq<Request> {
    if symbols == [] then []
    else
      (if cfg.includeBad || symbols[0] in extended then [Request(FUNDING, [symbols[0]])] else [])
      + (if cfg.includeBad || symbols[0] !in extended then [Request(INDEX, [symbols[0]])] else [])
      + Derived(cfg, extended, symbols[1..])
  }

  function Requests(cfg: Config, extended: set<string>, symbols: seq<string>): seq<Request>
    requires BooksChannel(cfg).Some?
  {
    if symbols == [] then []
    else
      [ Request(TICKERS, symbols), Request(TRADES, symbols), Request(BBO, symbols),
        Request(BooksChannel(cfg).value, symbols) ]
      + Derived(cfg, extended, symbols)
  }

  // ---------------------------------------------------------------- stream steps

  function Ask(cfg: Config, r: Registry, s: Stream, start: nat): Stream
    requires Serviceable(cfg)
  {
    if s.status == Ready then
      s.(queue := s.queue + Requests(cfg, r.extended, Slice(r.symbols, cfg.perStream, s.index, start)))
    else s
  }

  function BecomeReady(cfg: Config, r: Registry, s: Stream): Stream
    requires Serviceable(cfg)
  {
    Ask(cfg, r, s.(download := Done, status := Ready, sent := []), 0)
  }

  function OnReady(cfg: Config, r: Registry, s: Stream): Stream
    requires Serviceable(cfg)
  {
    if cfg.hasAccount then s.(download := Login, status := LoginSent) else BecomeReady(cfg, r, s)
  }

  function OnLogin(cfg: Config, r: Registry, s: Stream): Stream
    requires Serviceable(cfg)
  {
    if s.download == Login then BecomeReady(cfg, r, s) else s
  }

  /** The rate limiter lets some prefix of the queue go. */
  function OnTimer(s: Stream, n: nat): Stream {
    var k := Min(n, |s.queue|);
    if s.status == Ready then s.(sent := s.sent + s.queue[..k], queue := s.queue[k..]) else s
  }

  function OnDown(s: Stream): Stream {
    s.(download := Idle, status := Disconnected, queue := [])
  }

  // ---------------------------------------------------------------- world steps

  function NewStream(i: nat): Stream {
    Stream(i, Idle, Disconnected, [], [])
  }

  function Grown(streams: seq<Stream>, count: nat): (r: seq<Stream>)
    ensures |r| == if |streams| < count then count else |streams|
    ensures forall i :: 0 <= i < |r| ==> r[i] == if i < |streams| then streams[i] else NewStream(i)
  {
    streams + seq(if |streams| < count then count - |streams| else 0, k requires 0 <= k => NewStream(|streams| + k))
  }

  function AskAll(cfg: Config, r: Registry, streams: seq<Stream>, start: nat): (q: seq<Stream>)
    requires Serviceable(cfg)
    ensures |q| == |streams| && forall i :: 0 <= i < |q| ==> q[i] == Ask(cfg, r, streams[i], start)
  {
    seq(|streams|, i requires 0 <= i < |streams| => Ask(cfg, r, streams[i], start))
  }

  function SymbolsUpdate(cfg: Config, w: World, news: seq<string>): World
    requires Serviceable(cfg)
  {
    var start := |w.registry.symbols|;
    var r := w.registry.(symbols := w.registry.symbols + news);
    World(r, AskAll(cfg, r, Grown(w.streams, SliceCount(|r.symbols|, cfg.perStream)), start))
  }

  function OnClient(cfg: Config, w: World, names: seq<string>): World
    requires Serviceable(cfg)
  {
    var news := Fresh(w.registry.all, names);
    var r := w.registry.(all := w.registry.all + Elements(news));
    SymbolsUpdate(cfg, w.(registry := r), news)
  }

  function OnInstruments(cfg: Config, w: World, items: seq<Instrument>): World
    requires Serviceable(cfg)
  {
    var news := Fresh(w.registry.all, Kept(items));
    var r := w.registry.(
      all := w.registry.all + Elements(news),
      extended := w.registry.extended + Funded(items),
      native := w.registry.native + Elements(news));
    if news == [] then w.(registry := r) else SymbolsUpdate(cfg, w.(registry := r), news)
  }

  /** A socket announces itself ready once per connection; an event of a stream needs the stream. */
  predicate Possible(w: World, e: Event) {
    match e
    case ClientSubscribe(_) => true
    case InstrumentData(_) => true
    case SocketReady(i) => i < |w.streams| && w.streams[i].download == Idle
    case LoginAck(i) => i < |w.streams|
    case Timer(i, _) => i < |w.streams|
    case SocketDown(i) => i < |w.streams|
  }

  function Step(cfg: Config, w: World, e: Event): World
    requires Serviceable(cfg) && Possible(w, e)
  {
    match e
    case ClientSubscribe(names) => OnClient(cfg, w, names)
    case InstrumentData(items) => OnInstruments(cfg, w, items)
    case SocketReady(i) => w.(streams := w.streams[i := OnReady(cfg, w.registry, w.streams[i])])
    case LoginAck(i) => w.(streams := w.streams[i := OnLogin(cfg, w.registry, w.streams[i])])
    case Timer(i, n) => w.(streams := w.streams[i := OnTimer(w.streams[i], n)])
    case SocketDown(i) => w.(streams := w.streams[i := OnDown(w.streams[i])])
  }

  const INITIAL := World(Registry([], {}, {}, {}), [])

  /** All events in order, those that cannot occur being passed over. */
  function Run(cfg: Config, events: seq<Event>): World
    requires Serviceable(cfg)
  {
    if events == [] then INITIAL
    else
      var w := Run(cfg, events[..|events| - 1]);
      var e := events[|events| - 1];
      if Possible(w, e) then Step(cfg, w, e) else w
  }

  // ---------------------------------------------------------------- what has been asked for

  /** The instruments asked for on some channels, request by request. */
  function Covered(rs: seq<Request>, channels: set<string>): seq<string> {
    if rs == [] then []
    else if rs[0].channel in channels then rs[0].symbols + Covered(rs[1..], channels)
    else Covered(rs[1..], channels)
  }

  lemma {:induction false} CoveredConcat(a: seq<Request>, b: seq<Request>, channels: set<string>)
    ensures Covered(a + b, channels) == Covered(a, channels) + Covered(b, channels)
  {
    if a == [] {
      assert a + b == b;
    } else {
      CoveredConcat(a[1..], b, channels);
      assert (a + b)[1..] == a[1..] + b;
      var x, y := Covered(a[1..], channels), Covered(b, channels);
      assert a[0].symbols + (x + y) == a[0].symbols + x + y;
    }
  }

  lemma {:induction false} DerivedCoversNoOther(
    cfg: Config, extended: set<string>, symbols: seq<string>, channels: set<string>)
    requires FUNDING !in channels && INDEX !in channels
    ensures Covered(Derived(cfg, extended, symbols), channels) == []
  {
    if symbols != [] {
      DerivedCoversNoOther(cfg, extended, symbols[1..], channels);
      DerivedHead(cfg, extended, symbols, channels);
    }
  }

  /** The requests made for the first instrument, and those for the rest. */
  lemma DerivedHead(cfg: Config, extended: set<string>, symbols: seq<string>, channels: set<string>)
    requires symbols != []
    ensures Covered(Derived(cfg, extended, symbols), channels) ==
            (if FUNDING in channels && (cfg.includeBad || symbols[0] in extended) then [symbols[0]] else [])
            + (if INDEX in channels && (cfg.includeBad || symbols[0] !in extended) then [symbols[0]] else [])
            + Covered(Derived(cfg, extended, symbols[1..]), channels)
  {
    var s, rest := symbols[0], Derived(cfg, extended, symbols[1..]);
    var a := if cfg.includeBad || s in extended then [Request(FUNDING, [s])] else [];
    var b := if cfg.includeBad || s !in extended then [Request(INDEX, [s])] else [];
    CoveredConcat(a + b, rest, channels);
    CoveredConcat(a, b, channels);
    assert [s] + [] == [s];
  }

  lemma {:induction false} DerivedCovers(cfg: Config, extended: set<string>, symbols: seq<string>)
    ensures var ds := Derived(cfg, extended, symbols);
      if cfg.includeBad then
        Covered(ds, {FUNDING}) == symbols && Covered(ds, {INDEX}) == symbols
      else
        Covered(ds, {FUNDING, INDEX}) == symbols
        && (forall s :: s in Covered(ds, {FUNDING}) ==> s in extended)
        && (forall s :: s in Covered(ds, {INDEX}) ==> s !in extended)
  {
    if symbols != [] {
      DerivedCovers(cfg, extended, symbols[1..]);
      DerivedHead(cfg, extended, symbols, {FUNDING});
      DerivedHead(cfg, extended, symbols, {INDEX});
      DerivedHead(cfg, extended, symbols, {FUNDING, INDEX});
      assert FUNDING != INDEX;
      assert symbols == [symbols[0]] + symbols[1..];
    }
  }
}
