/** The invariants of every run of module Subscription, and the theorems they give. */
module SubscriptionRuns {
  import opened Json
  import opened SubscribeText
  import opened Subscription

  // ---------------------------------------------------------------- the registry

  predicate Distinct(names: seq<string>) {
    forall i, j :: 0 <= i < j < |names| ==> names[i] != names[j]
  }

  predicate RegistryOk(r: Registry) {
    Distinct(r.symbols) && Elements(r.symbols) == r.all && r.native <= r.all
  }

  lemma {:induction false} FreshIsNew(all: set<string>, names: seq<string>)
    ensures Distinct(Fresh(all, names))
    ensures forall s :: s in Fresh(all, names) <==> s in names && s !in all
    decreases |names|
  {
    if names != [] {
      var rest := names[1..];
      assert names == [names[0]] + rest;
      if names[0] in all {
        FreshIsNew(all, rest);
      } else {
        FreshIsNew(all + {names[0]}, rest);
        var tail := Fresh(all + {names[0]}, rest);
        assert names[0] !in tail;
        assert Fresh(all, names) == [names[0]] + tail;
      }
    }
  }

  /** Where a name first appears. */
  function FirstPlace(names: seq<string>, x: string): nat {
    if names == [] || names[0] == x then 0 else 1 + FirstPlace(names[1..], x)
  }

  predicate InOrder(names: seq<string>, news: seq<string>) {
    forall i, j :: 0 <= i < j < |news| ==> FirstPlace(names, news[i]) < FirstPlace(names, news[j])
  }

  /** New names come in the order of their first appearance. */
  lemma {:induction false} FreshKeepsOrder(all: set<string>, names: seq<string>)
    ensures InOrder(names, Fresh(all, names))
    decreases |names|
  {
    if names != [] {
      var known := all + {names[0]};
      var rest := Fresh(known, names[1..]);
      FreshKeepsOrder(known, names[1..]);
      FreshIsNew(known, names[1..]);
      assert names[0] in all ==> known == all;
      assert Fresh(all, names) == if names[0] in all then rest else [names[0]] + rest;
      LaterInOrder(names, rest);
    }
  }

  lemma LaterInOrder(names: seq<string>, rest: seq<string>)
    requires names != [] && names[0] !in rest && InOrder(names[1..], rest)
    ensures InOrder(names, rest) && InOrder(names, [names[0]] + rest)
  {
    forall x | x in rest ensures FirstPlace(names, x) == 1 + FirstPlace(names[1..], x) {
      FirstPlaceLater(names, x);
    }
  }

  lemma FirstPlaceLater(names: seq<string>, x: string)
    requires names != [] && names[0] != x
    ensures FirstPlace(names, x) == 1 + FirstPlace(names[1..], x)
  {
  }

  lemma RegisterKeepsRegistry(r: Registry, names: seq<string>)
    requires RegistryOk(r)
    ensures var news := Fresh(r.all, names);
      Distinct(r.symbols + news) && Elements(r.symbols + news) == r.all + Elements(news)
  {
    FreshIsNew(r.all, names);
    var news := Fresh(r.all, names);
    forall i, j | 0 <= i < |r.symbols| && 0 <= j < |news| ensures r.symbols[i] != news[j] {
      assert r.symbols[i] in Elements(r.symbols);
      assert news[j] in news;
    }
  }

  // ---------------------------------------------------------------- what a READY stream has asked for

  /** The data channels cover exactly `slice`; so do the derived ones, together or each, by configuration. */
  predicate Complete(cfg: Config, asked: seq<Request>, slice: seq<string>)
    requires BooksChannel(cfg).Some?
  {
    Covered(asked, {TICKERS}) == slice
    && Covered(asked, {TRADES}) == slice
    && Covered(asked, {BBO}) == slice
    && Covered(asked, {BooksChannel(cfg).value}) == slice
    && if cfg.includeBad then Covered(asked, {FUNDING}) == slice && Covered(asked, {INDEX}) == slice
       else Covered(asked, {FUNDING, INDEX}) == slice
  }

  lemma ChannelsDiffer(cfg: Config)
    requires BooksChannel(cfg).Some?
    ensures var b := BooksChannel(cfg).value; b != TICKERS && b != TRADES && b != BBO && b != FUNDING && b != INDEX
    ensures TICKERS != TRADES && TICKERS != BBO && TRADES != BBO
    ensures FUNDING != TICKERS && FUNDING != TRADES && FUNDING != BBO
    ensures INDEX != TICKERS && INDEX != TRADES && INDEX != BBO
  {
    var b := BooksChannel(cfg).value;
    assert b[0] == 'b' && b[1] == 'o';
    assert |TICKERS| == 7 && |TRADES| == 6 && |BBO| == 7 && |FUNDING| == 12 && |INDEX| == 13;
    assert TICKERS[0] == 't' && BBO[0] == 'b' && BBO[1] == 'b' && TRADES[0] == 't' && FUNDING[0] == 'f'
      && INDEX[0] == 'i';
  }

  lemma FourBatches(a: Request, b: Request, c: Request, d: Request, channels: set<string>)
    ensures Covered([a, b, c, d], channels) ==
            (if a.channel in channels then a.symbols else []) + (if b.channel in channels then b.symbols else [])
            + (if c.channel in channels then c.symbols else []) + (if d.channel in channels then d.symbols else [])
  {
    CoveredConcat([a], [b], channels);
    CoveredConcat([a, b], [c], channels);
    CoveredConcat([a, b, c], [d], channels);
    assert [a] + [b] == [a, b] && [a, b] + [c] == [a, b, c] && [a, b, c] + [d] == [a, b, c, d];
    OneBatch(a, channels);
    OneBatch(b, channels);
    OneBatch(c, channels);
    OneBatch(d, channels);
  }

  lemma OneBatch(a: Request, channels: set<string>)
    ensures Covered([a], channels) == if a.channel in channels then a.symbols else []
  {
    assert a.symbols + [] == a.symbols;
  }

  lemma RequestsOn(cfg: Config, extended: set<string>, symbols: seq<string>, channels: set<string>)
    requires BooksChannel(cfg).Some? && symbols != []
    ensures var four := [ Request(TICKERS, symbols), Request(TRADES, symbols), Request(BBO, symbols),
                          Request(BooksChannel(cfg).value, symbols) ];
      Covered(Requests(cfg, extended, symbols), channels) ==
      Covered(four, channels) + Covered(Derived(cfg, extended, symbols), channels)
  {
    var four := [ Request(TICKERS, symbols), Request(TRADES, symbols), Request(BBO, symbols),
                  Request(BooksChannel(cfg).value, symbols) ];
    CoveredConcat(four, Derived(cfg, extended, symbols), channels);
  }

  lemma DataChannelComplete(cfg: Config, extended: set<string>, symbols: seq<string>, channel: string)
    requires BooksChannel(cfg).Some? && channel in {TICKERS, TRADES, BBO, BooksChannel(cfg).value}
    ensures Covered(Requests(cfg, extended, symbols), {channel}) == symbols
  {
    ChannelsDiffer(cfg);
    if symbols != [] {
      RequestsOn(cfg, extended, symbols, {channel});
      FourBatches(Request(TICKERS, symbols), Request(TRADES, symbols), Request(BBO, symbols),
                  Request(BooksChannel(cfg).value, symbols), {channel});
      DerivedCoversNoOther(cfg, extended, symbols, {channel});
    }
  }

  lemma DerivedChannelsComplete(cfg: Config, extended: set<string>, symbols: seq<string>, channels: set<string>)
    requires BooksChannel(cfg).Some? && channels <= {FUNDING, INDEX}
    ensures Covered(Requests(cfg, extended, symbols), channels) == Covered(Derived(cfg, extended, symbols), channels)
  {
    ChannelsDiffer(cfg);
    if symbols != [] {
      RequestsOn(cfg, extended, symbols, channels);
      FourBatches(Request(TICKERS, symbols), Request(TRADES, symbols), Request(BBO, symbols),
                  Request(BooksChannel(cfg).value, symbols), channels);
    }
  }

  lemma RequestsComplete(cfg: Config, extended: set<string>, symbols: seq<string>)
    requires BooksChannel(cfg).Some?
    ensures Complete(cfg, Requests(cfg, extended, symbols), symbols)
  {
    DataChannelComplete(cfg, extended, symbols, TICKERS);
    DataChannelComplete(cfg, extended, symbols, TRADES);
    DataChannelComplete(cfg, extended, symbols, BBO);
    DataChannelComplete(cfg, extended, symbols, BooksChannel(cfg).value);
    DerivedCovers(cfg, extended, symbols);
    DerivedChannelsComplete(cfg, extended, symbols, {FUNDING});
    DerivedChannelsComplete(cfg, extended, symbols, {INDEX});
    DerivedChannelsComplete(cfg, extended, symbols, {FUNDING, INDEX});
  }

  /** Asking for more is complete for more. */
  lemma CompleteConcat(cfg: Config, a: seq<Request>, x: seq<string>, b: seq<Request>, y: seq<string>)
    requires BooksChannel(cfg).Some? && Complete(cfg, a, x) && Complete(cfg, b, y)
    ensures Complete(cfg, a + b, x + y)
  {
    CoveredConcat(a, b, {TICKERS});
    CoveredConcat(a, b, {TRADES});
    CoveredConcat(a, b, {BBO});
    CoveredConcat(a, b, {BooksChannel(cfg).value});
    CoveredConcat(a, b, {FUNDING});
    CoveredConcat(a, b, {INDEX});
    CoveredConcat(a, b, {FUNDING, INDEX});
  }

  /** A slice of a longer registry is the old slice followed by the part past the old end. */
  lemma SliceGrows(symbols: seq<string>, more: seq<string>, perStream: nat, index: nat)
    ensures Slice(symbols + more, perStream, index, 0) ==
            Slice(symbols, perStream, index, 0) + Slice(symbols + more, perStream, index, |symbols|)
  {
    Multiples(index, perStream);
    PartGrows(symbols, more, index * perStream, (index + 1) * perStream);
  }

  lemma Multiples(n: nat, m: nat)
    ensures 0 <= n * m && (n + 1) * m == n * m + m
  {
  }

  lemma PartGrows(symbols: seq<string>, more: seq<string>, from: int, to: int)
    requires 0 <= from <= to
    ensures Part(symbols + more, from, to, 0) == Part(symbols, from, to, 0) + Part(symbols + more, from, to, |symbols|)
  {
  }

  // ---------------------------------------------------------------- the invariant

  predicate StreamOk(cfg: Config, r: Registry, s: Stream)
    requires Serviceable(cfg)
  {
    (s.status == Ready <==> s.download == Done)
    && (s.status == LoginSent <==> s.download == Login)
    && (s.status == LoginSent ==> cfg.hasAccount)
    && (s.status != Ready ==> s.queue == [])
    && (s.status == Ready ==> Complete(cfg, s.Asked(), Slice(r.symbols, cfg.perStream, s.index, 0)))
  }

  predicate Inv(cfg: Config, w: World)
    requires Serviceable(cfg)
  {
    RegistryOk(w.registry)
    && |w.streams| == SliceCount(|w.registry.symbols|, cfg.perStream)
    && forall i :: 0 <= i < |w.streams| ==> w.streams[i].index == i && StreamOk(cfg, w.registry, w.streams[i])
  }

  lemma BecomeReadyOk(cfg: Config, r: Registry, s: Stream)
    requires Serviceable(cfg) && s.queue == []
    ensures StreamOk(cfg, r, BecomeReady(cfg, r, s))
  {
    var slice := Slice(r.symbols, cfg.perStream, s.index, 0);
    RequestsComplete(cfg, r.extended, slice);
    assert BecomeReady(cfg, r, s).Asked() == Requests(cfg, r.extended, slice);
  }

  /** The incremental path: a stream complete for the old registry becomes complete for the new one. */
  lemma AskOk(cfg: Config, r: Registry, more: seq<string>, q: Registry, s: Stream)
    requires Serviceable(cfg) && StreamOk(cfg, r, s)
    requires q.symbols == r.symbols + more
    ensures StreamOk(cfg, q, Ask(cfg, q, s, |r.symbols|))
  {
    if s.status == Ready {
      var part := Slice(q.symbols, cfg.perStream, s.index, |r.symbols|);
      SliceGrows(r.symbols, more, cfg.perStream, s.index);
      RequestsComplete(cfg, q.extended, part);
      AskedGrows(cfg, s, Requests(cfg, q.extended, part), Slice(r.symbols, cfg.perStream, s.index, 0), part);
    }
  }

  lemma AskedGrows(cfg: Config, s: Stream, rs: seq<Request>, before: seq<string>, part: seq<string>)
    requires BooksChannel(cfg).Some? && Complete(cfg, s.Asked(), before) && Complete(cfg, rs, part)
    ensures Complete(cfg, s.(queue := s.queue + rs).Asked(), before + part)
  {
    CompleteConcat(cfg, s.Asked(), before, rs, part);
    assert s.sent + (s.queue + rs) == s.sent + s.queue + rs;
  }

  lemma TimerOk(cfg: Config, r: Registry, s: Stream, n: nat)
    requires Serviceable(cfg) && StreamOk(cfg, r, s)
    ensures StreamOk(cfg, r, OnTimer(s, n))
  {
    if s.status == Ready {
      assert OnTimer(s, n).Asked() == s.Asked();
    }
  }

  lemma SymbolsUpdateOk(cfg: Config, w: World, r: Registry, news: seq<string>)
    requires Serviceable(cfg) && Inv(cfg, w)
    requires r.symbols == w.registry.symbols
    requires RegistryOk(r.(symbols := r.symbols + news))
    ensures Inv(cfg, SymbolsUpdate(cfg, w.(registry := r), news))
  {
    var q := r.(symbols := r.symbols + news);
    var count := SliceCount(|q.symbols|, cfg.perStream);
    CountGrows(|r.symbols|, |q.symbols|, cfg.perStream);
    var grown := Grown(w.streams, count);
    forall i | 0 <= i < count
      ensures grown[i].index == i && StreamOk(cfg, q, Ask(cfg, q, grown[i], |r.symbols|))
    {
      if i < |w.streams| {
        AskOk(cfg, w.registry, news, q, w.streams[i]);
      }
    }
  }

  lemma CountGrows(n: nat, m: nat, perStream: nat)
    requires perStream > 0 && n <= m
    ensures SliceCount(n, perStream) <= SliceCount(m, perStream)
  {
    DivMonotone(n + perStream - 1, m + perStream - 1, perStream);
  }

  lemma DivMonotone(a: nat, b: nat, d: nat)
    requires d > 0 && a <= b
    ensures a / d <= b / d
  {
    var p, q := a / d, b / d;
    assert a == d * p + a % d && b == d * q + b % d;
    assert (p - q) * d == d * p - d * q;
    if p > q {
      MulAtLeast(p - q, d);
    }
  }

  lemma {:induction false} MulAtLeast(x: nat, d: nat)
    requires x >= 1
    ensures x * d >= d
  {
    if x > 1 {
      MulAtLeast(x - 1, d);
      assert x * d == (x - 1) * d + d;
    }
  }

  lemma StepKeepsInv(cfg: Config, w: World, e: Event)
    requires Serviceable(cfg) && Inv(cfg, w) && Possible(w, e)
    ensures Inv(cfg, Step(cfg, w, e))
  {
    var r := w.registry;
    match e {
      case ClientSubscribe(names) =>
        var news := Fresh(r.all, names);
        RegisterKeepsRegistry(r, names);
        SymbolsUpdateOk(cfg, w, r.(all := r.all + Elements(news)), news);
      case InstrumentData(items) =>
        var news := Fresh(r.all, Kept(items));
        RegisterKeepsRegistry(r, Kept(items));
        if news != [] {
          SymbolsUpdateOk(cfg, w,
            r.(all := r.all + Elements(news), extended := r.extended + Funded(items),
              native := r.native + Elements(news)),
            news);
        } else {
          assert r.symbols + news == r.symbols;
        }
      case SocketReady(i) => BecomeReadyOk(cfg, r, w.streams[i]);
      case LoginAck(i) =>
        if w.streams[i].download == Login {
          BecomeReadyOk(cfg, r, w.streams[i]);
        }
      case Timer(i, n) => TimerOk(cfg, r, w.streams[i], n);
      case SocketDown(i) =>
    }
  }

  lemma {:induction false} RunKeepsInv(cfg: Config, events: seq<Event>)
    requires Serviceable(cfg)
    ensures Inv(cfg, Run(cfg, events))
    decreases |events|
  {
    if events == [] {
      assert (cfg.perStream - 1) / cfg.perStream == 0;
    } else {
      var w := Run(cfg, events[..|events| - 1]);
      RunKeepsInv(cfg, events[..|events| - 1]);
      if Possible(w, events[|events| - 1]) {
        StepKeepsInv(cfg, w, events[|events| - 1]);
      }
    }
  }

  // ---------------------------------------------------------------- theorems: status

  predicate IsReady(w: World, i: nat) {
    i < |w.streams| && w.streams[i].status == Ready
  }

  predicate AwaitsLogin(w: World, i: nat) {
    i < |w.streams| && w.streams[i].status == LoginSent
  }

  /** News about instruments creates streams and makes them ask, and nothing else. */
  lemma NewsMovesNoStream(cfg: Config, w: World, e: Event, i: nat)
    requires Serviceable(cfg) && (e.ClientSubscribe? || e.InstrumentData?)
    ensures var v := Step(cfg, w, e);
      |w.streams| <= |v.streams|
      && (i < |v.streams| ==>
            var s := if i < |w.streams| then w.streams[i] else NewStream(i);
            v.streams[i] == s.(queue := v.streams[i].queue))
  {
  }

  /**
    A stream becomes READY when its login is acknowledged, without an account when its socket is ready, and
    at no other event; it stays READY until its socket is lost. Between, it waits for the acknowledgement.
   */
  lemma ReadyIff(cfg: Config, w: World, e: Event, i: nat)
    requires Serviceable(cfg) && Inv(cfg, w) && Possible(w, e)
    ensures IsReady(Step(cfg, w, e), i) <==>
            if IsReady(w, i) then e != SocketDown(i)
            else if cfg.hasAccount then AwaitsLogin(w, i) && e == LoginAck(i)
            else e == SocketReady(i)
    ensures AwaitsLogin(Step(cfg, w, e), i) <==>
            if AwaitsLogin(w, i) then e != LoginAck(i) && e != SocketDown(i)
            else cfg.hasAccount && e == SocketReady(i)
  {
    if e.ClientSubscribe? || e.InstrumentData? {
      NewsMovesNoStream(cfg, w, e, i);
    }
  }

  // ---------------------------------------------------------------- theorems: coverage

  /**
    In every run, a READY stream has asked, on each data channel and on the derived ones, for exactly the
    instruments of its slice, in order and each of them once.
   */
  lemma ReadyStreamsAreComplete(cfg: Config, events: seq<Event>, i: nat)
    requires Serviceable(cfg) && i < |Run(cfg, events).streams|
    ensures var w := Run(cfg, events);
      w.streams[i].status == Ready ==>
        Complete(cfg, w.streams[i].Asked(), Slice(w.registry.symbols, cfg.perStream, i, 0))
    ensures Distinct(Slice(Run(cfg, events).registry.symbols, cfg.perStream, i, 0))
  {
    RunKeepsInv(cfg, events);
    SliceIsDistinct(Run(cfg, events).registry.symbols, cfg.perStream, i);
  }

  lemma SliceIsDistinct(symbols: seq<string>, perStream: nat, i: nat)
    requires Distinct(symbols)
    ensures Distinct(Slice(symbols, perStream, i, 0))
  {
    Multiples(i, perStream);
    PartIsDistinct(symbols, i * perStream, (i + 1) * perStream);
  }

  lemma PartIsDistinct(symbols: seq<string>, from: nat, to: nat)
    requires Distinct(symbols)
    ensures Distinct(Part(symbols, from, to, 0))
  {
    var part := Part(symbols, from, to, 0);
    assert forall j :: 0 <= j < |part| ==> part[j] == symbols[from + j];
  }

  /** What a stream that lost its connection asks for once it is READY again. */
  function Resubscribed(cfg: Config, w: World, i: nat): seq<Request>
    requires Serviceable(cfg) && i < |w.streams|
  {
    var r := w.registry;
    OnLogin(cfg, r, OnReady(cfg, r, OnDown(w.streams[i]))).Asked()
  }

  /** Subscribing as instruments appear covers what one subscription of the whole slice covers. */
  lemma IncrementalAgreesWithResubscription(cfg: Config, events: seq<Event>, i: nat, channel: string)
    requires Serviceable(cfg) && i < |Run(cfg, events).streams|
    requires Run(cfg, events).streams[i].status == Ready
    requires channel in {TICKERS, TRADES, BBO, BooksChannel(cfg).value}
    ensures var w := Run(cfg, events);
      Covered(w.streams[i].Asked(), {channel}) == Covered(Resubscribed(cfg, w, i), {channel})
      && Covered(w.streams[i].Asked(), {channel}) == Slice(w.registry.symbols, cfg.perStream, i, 0)
  {
    var w := Run(cfg, events);
    RunKeepsInv(cfg, events);
    BecomeReadyOk(cfg, w.registry, OnDown(w.streams[i]));
    BecomeReadyOk(cfg, w.registry, OnReady(cfg, w.registry, OnDown(w.streams[i])).(queue := []));
    assert OnReady(cfg, w.registry, OnDown(w.streams[i])).status != Ready ==>
           OnReady(cfg, w.registry, OnDown(w.streams[i])).queue == [];
  }

  /** All streams one after the other: what has been asked for on a channel. */
  function AllCovered(streams: seq<Stream>, channel: string): seq<string> {
    if streams == [] then []
    else AllCovered(streams[..|streams| - 1], channel) + Covered(streams[|streams| - 1].Asked(), {channel})
  }

  lemma {:induction false} SlicesPartition(cfg: Config, w: World, n: nat, channel: string)
    requires Serviceable(cfg) && Inv(cfg, w) && n <= |w.streams|
    requires forall i :: 0 <= i < n ==> w.streams[i].status == Ready
    requires channel in {TICKERS, TRADES, BBO, BooksChannel(cfg).value}
    ensures AllCovered(w.streams[..n], channel) == w.registry.symbols[..Min(n * cfg.perStream, |w.registry.symbols|)]
  {
    if n > 0 {
      SlicesPartition(cfg, w, n - 1, channel);
      assert w.streams[..n][..n - 1] == w.streams[..n - 1];
      CoveredByOne(cfg, w, n - 1, channel);
      NextSlice(w.registry.symbols, cfg.perStream, n - 1);
    }
  }

  lemma CoveredByOne(cfg: Config, w: World, i: nat, channel: string)
    requires Serviceable(cfg) && Inv(cfg, w) && i < |w.streams| && w.streams[i].status == Ready
    requires channel in {TICKERS, TRADES, BBO, BooksChannel(cfg).value}
    ensures Covered(w.streams[i].Asked(), {channel}) == Slice(w.registry.symbols, cfg.perStream, i, 0)
  {
  }

  lemma NextSlice(symbols: seq<string>, perStream: nat, n: nat)
    ensures 0 <= n * perStream && 0 <= (n + 1) * perStream
    ensures symbols[..Min(n * perStream, |symbols|)] + Slice(symbols, perStream, n, 0) ==
            symbols[..Min((n + 1) * perStream, |symbols|)]
  {
    Multiples(n, perStream);
    NextPart(symbols, n * perStream, (n + 1) * perStream);
  }

  lemma NextPart(symbols: seq<string>, from: int, to: int)
    requires 0 <= from <= to
    ensures symbols[..Min(from, |symbols|)] + Part(symbols, from, to, 0) == symbols[..Min(to, |symbols|)]
  {
  }

  /** The slices are enough, and one fewer would not be. */
  lemma CountCovers(n: nat, perStream: nat)
    requires perStream > 0
    ensures SliceCount(n, perStream) * perStream >= n
    ensures n > 0 ==> (SliceCount(n, perStream) - 1) * perStream < n
  {
    var m := n + perStream - 1;
    assert m == perStream * (m / perStream) + m % perStream;
    assert (SliceCount(n, perStream) - 1) * perStream == SliceCount(n, perStream) * perStream - perStream;
  }

  /** When every stream is READY, the registry has been asked for as a whole, each instrument on one stream. */
  lemma RegistryIsCovered(cfg: Config, events: seq<Event>, channel: string)
    requires Serviceable(cfg)
    requires forall i :: 0 <= i < |Run(cfg, events).streams| ==> Run(cfg, events).streams[i].status == Ready
    requires channel in {TICKERS, TRADES, BBO, BooksChannel(cfg).value}
    ensures AllCovered(Run(cfg, events).streams, channel) == Run(cfg, events).registry.symbols
  {
    var w := Run(cfg, events);
    RunKeepsInv(cfg, events);
    SlicesPartition(cfg, w, |w.streams|, channel);
    CountCovers(|w.registry.symbols|, cfg.perStream);
    assert w.streams[..|w.streams|] == w.streams;
  }

  // ---------------------------------------------------------------- theorems: texts

  function Texts(rs: seq<Request>): (ts: seq<string>)
    ensures |ts| == |rs| && forall i :: 0 <= i < |ts| ==> ts[i] == Text(rs[i])
  {
    seq(|rs|, i requires 0 <= i < |rs| => Text(rs[i]))
  }

  /** The instruments the venue reads in a list of messages, on one channel. */
  function Heard(texts: seq<string>, channel: string): seq<string> {
    if texts == [] then []
    else
      (match Subscriptions(texts[0]) case Some(pairs) => On(pairs, channel) case None => [])
      + Heard(texts[1..], channel)
  }

  function On(pairs: seq<(string, string)>, channel: string): seq<string> {
    if pairs == [] then []
    else (if pairs[0].0 == channel then [pairs[0].1] else []) + On(pairs[1..], channel)
  }

  lemma {:induction false} OnPairs(c: string, values: seq<string>, channel: string)
    ensures On(Pairs(c, values), channel) == if c == channel then values else []
  {
    if values != [] {
      OnPairs(c, values[1..], channel);
      assert Pairs(c, values)[1..] == Pairs(c, values[1..]);
      assert values == [values[0]] + values[1..];
    }
  }

  predicate PlainRequests(rs: seq<Request>) {
    forall i :: 0 <= i < |rs| ==> PlainText(rs[i].channel) && PlainTexts(rs[i].symbols) && rs[i].symbols != []
  }

  lemma {:induction false} HeardIsCovered(rs: seq<Request>, channel: string)
    requires PlainRequests(rs)
    ensures Heard(Texts(rs), channel) == Covered(rs, {channel})
  {
    if rs != [] {
      HeardIsCovered(rs[1..], channel);
      ListReadsBack(rs[0].channel, rs[0].symbols);
      OnPairs(rs[0].channel, rs[0].symbols, channel);
      assert Texts(rs)[1..] == Texts(rs[1..]);
    }
  }

  lemma TextsConcat(a: seq<Request>, b: seq<Request>)
    ensures Texts(a + b) == Texts(a) + Texts(b)
  {
  }

  lemma TextsSplit(rs: seq<Request>, k: nat)
    requires k <= |rs|
    ensures Texts(rs)[..k] == Texts(rs[..k]) && Texts(rs)[k..] == Texts(rs[k..])
    ensures Texts(rs[..k]) + Texts(rs[k..]) == Texts(rs)
  {
  }

  lemma BothAreHeard(sent: seq<Request>, queue: seq<Request>, channel: string)
    requires PlainRequests(sent + queue)
    ensures Heard(Texts(sent) + Texts(queue), channel) == Covered(sent + queue, {channel})
  {
    HeardIsCovered(sent + queue, channel);
    TextsConcat(sent, queue);
  }

  // ---------------------------------------------------------------- theorems: what leaves the socket

  /** What one call of a stream's timer puts on its socket. */
  function TimerTexts(s: Stream, n: nat): seq<string> {
    if s.status == Ready then Texts(s.queue[..Min(n, |s.queue|)]) else []
  }

  /** What one event makes stream `i` put on its socket. */
  function TextsOf(w: World, e: Event, i: nat): seq<string> {
    if e.Timer? && e.i == i && i < |w.streams| then TimerTexts(w.streams[i], e.n) else []
  }

  /** Everything that stream `i` has put on its socket since it last became READY. */
  function Emitted(cfg: Config, events: seq<Event>, i: nat): seq<string>
    requires Serviceable(cfg)
    decreases |events|
  {
    if events == [] then []
    else
      var front, e := events[..|events| - 1], events[|events| - 1];
      var w := Run(cfg, front);
      if IsReady(Run(cfg, events), i) && !IsReady(w, i) then [] else Emitted(cfg, front, i) + TextsOf(w, e, i)
  }

  /** A timer takes out of the queue what it puts on the socket. */
  lemma TimerMoves(s: Stream, n: nat)
    ensures var t := OnTimer(s, n);
      TimerTexts(s, n) + Texts(t.queue) == Texts(s.queue)
      && Texts(t.sent) == Texts(s.sent) + TimerTexts(s, n)
  {
    var k := Min(n, |s.queue|);
    TextsSplit(s.queue, k);
    TextsConcat(s.sent, s.queue[..k]);
  }

  /** The texts of what a stream is recorded to have sent. */
  function SentTexts(w: World, i: nat): seq<string> {
    if i < |w.streams| then Texts(w.streams[i].sent) else []
  }

  lemma StepEmits(cfg: Config, w: World, e: Event, i: nat)
    requires Serviceable(cfg) && Inv(cfg, w) && Possible(w, e)
    ensures var v := Step(cfg, w, e);
      SentTexts(v, i) == if IsReady(v, i) && !IsReady(w, i) then [] else SentTexts(w, i) + TextsOf(w, e, i)
  {
    assert SentTexts(w, i) + [] == SentTexts(w, i);
    match e {
      case ClientSubscribe(_) => NewsMovesNoStream(cfg, w, e, i);
      case InstrumentData(_) => NewsMovesNoStream(cfg, w, e, i);
      case Timer(j, n) => TimerMoves(w.streams[j], n);
      case _ =>
    }
  }

  /** In every run the record of what was sent is what the timers have put on the socket. */
  lemma {:induction false} EmittedIsSent(cfg: Config, events: seq<Event>, i: nat)
    requires Serviceable(cfg)
    ensures Emitted(cfg, events, i) == SentTexts(Run(cfg, events), i)
    decreases |events|
  {
    if events != [] {
      var front, e := events[..|events| - 1], events[|events| - 1];
      var w := Run(cfg, front);
      EmittedIsSent(cfg, front, i);
      RunKeepsInv(cfg, front);
      if Possible(w, e) {
        StepEmits(cfg, w, e, i);
      }
    }
  }
}
