/**
  Three more facts about all runs of module Subscription: the texts a stream sends are heard by the venue
  as its slice, the derived channel of an instrument follows its type, and the registry only grows.
 */
module SubscriptionDetail {
  import opened Json
  import opened SubscribeText
  import opened Subscription
  import opened SubscriptionRuns

  // ---------------------------------------------------------------- every request is drawn from the registry

  predicate DrawnRequest(cfg: Config, all: set<string>, q: Request)
    requires BooksChannel(cfg).Some?
  {
    q.channel in {TICKERS, TRADES, BBO, BooksChannel(cfg).value, FUNDING, INDEX}
    && q.symbols != []
    && forall k :: 0 <= k < |q.symbols| ==> q.symbols[k] in all
  }

  predicate Drawn(cfg: Config, all: set<string>, rs: seq<Request>)
    requires BooksChannel(cfg).Some?
  {
    forall i :: 0 <= i < |rs| ==> DrawnRequest(cfg, all, rs[i])
  }

  predicate AllDrawn(cfg: Config, w: World)
    requires BooksChannel(cfg).Some?
  {
    forall i :: 0 <= i < |w.streams| ==>
      Drawn(cfg, w.registry.all, w.streams[i].sent) && Drawn(cfg, w.registry.all, w.streams[i].queue)
  }

  lemma {:induction false} DerivedDrawn(cfg: Config, extended: set<string>, symbols: seq<string>, all: set<string>)
    requires BooksChannel(cfg).Some?
    requires forall k :: 0 <= k < |symbols| ==> symbols[k] in all
    ensures Drawn(cfg, all, Derived(cfg, extended, symbols))
  {
    if symbols != [] {
      DerivedDrawn(cfg, extended, symbols[1..], all);
      assert DrawnRequest(cfg, all, Request(FUNDING, [symbols[0]]));
      assert DrawnRequest(cfg, all, Request(INDEX, [symbols[0]]));
    }
  }

  lemma AskDrawn(cfg: Config, r: Registry, s: Stream, start: nat)
    requires Serviceable(cfg) && RegistryOk(r)
    requires Drawn(cfg, r.all, s.sent) && Drawn(cfg, r.all, s.queue)
    ensures Drawn(cfg, r.all, Ask(cfg, r, s, start).sent) && Drawn(cfg, r.all, Ask(cfg, r, s, start).queue)
  {
    var part := Slice(r.symbols, cfg.perStream, s.index, start);
    forall k | 0 <= k < |part| ensures part[k] in r.all {
      assert part[k] in r.symbols;
      assert part[k] in Elements(r.symbols);
    }
    DerivedDrawn(cfg, r.extended, part, r.all);
    if part != [] {
      assert DrawnRequest(cfg, r.all, Request(TICKERS, part)) && DrawnRequest(cfg, r.all, Request(TRADES, part));
      assert DrawnRequest(cfg, r.all, Request(BBO, part))
        && DrawnRequest(cfg, r.all, Request(BooksChannel(cfg).value, part));
    }
  }

  lemma SymbolsUpdateDrawn(cfg: Config, w: World, news: seq<string>, all: set<string>)
    requires Serviceable(cfg)
    requires all <= w.registry.all && RegistryOk(w.registry.(symbols := w.registry.symbols + news))
    requires AllDrawn(cfg, w.(registry := w.registry.(all := all)))
    ensures AllDrawn(cfg, SymbolsUpdate(cfg, w, news))
  {
    var q := w.registry.(symbols := w.registry.symbols + news);
    var grown := Grown(w.streams, SliceCount(|q.symbols|, cfg.perStream));
    forall i | 0 <= i < |grown|
      ensures var t := Ask(cfg, q, grown[i], |w.registry.symbols|);
        Drawn(cfg, q.all, t.sent) && Drawn(cfg, q.all, t.queue)
    {
      if i < |w.streams| {
        assert Drawn(cfg, all, w.streams[i].sent) && Drawn(cfg, all, w.streams[i].queue);
      }
      AskDrawn(cfg, q, grown[i], |w.registry.symbols|);
    }
  }

  lemma StepKeepsDrawn(cfg: Config, w: World, e: Event)
    requires Serviceable(cfg) && Inv(cfg, w) && AllDrawn(cfg, w) && Possible(w, e)
    ensures AllDrawn(cfg, Step(cfg, w, e))
  {
    var r := w.registry;
    match e {
      case ClientSubscribe(names) =>
        var news := Fresh(r.all, names);
        RegisterKeepsRegistry(r, names);
        SymbolsUpdateDrawn(cfg, w.(registry := r.(all := r.all + Elements(news))), news, r.all);
      case InstrumentData(items) =>
        var news := Fresh(r.all, Kept(items));
        RegisterKeepsRegistry(r, Kept(items));
        var q := r.(all := r.all + Elements(news), extended := r.extended + Funded(items),
          native := r.native + Elements(news));
        if news != [] {
          SymbolsUpdateDrawn(cfg, w.(registry := q), news, r.all);
        }
      case SocketReady(i) => AskDrawn(cfg, r, w.streams[i].(download := Done, status := Ready, sent := []), 0);
      case LoginAck(i) => AskDrawn(cfg, r, w.streams[i].(download := Done, status := Ready, sent := []), 0);
      case Timer(i, n) =>
      case SocketDown(i) =>
    }
  }

  lemma {:induction false} RunKeepsDrawn(cfg: Config, events: seq<Event>)
    requires Serviceable(cfg)
    ensures AllDrawn(cfg, Run(cfg, events))
    decreases |events|
  {
    if events != [] {
      var w := Run(cfg, events[..|events| - 1]);
      RunKeepsDrawn(cfg, events[..|events| - 1]);
      RunKeepsInv(cfg, events[..|events| - 1]);
      if Possible(w, events[|events| - 1]) {
        StepKeepsDrawn(cfg, w, events[|events| - 1]);
      }
    }
  }

  lemma ChannelsArePlain(cfg: Config)
    requires BooksChannel(cfg).Some?
    ensures forall c :: c in {TICKERS, TRADES, BBO, BooksChannel(cfg).value, FUNDING, INDEX} ==> PlainText(c)
  {
  }

  /** On any channel: what has been put on the socket and what is still queued cover what has been asked for. */
  lemma AskedIsHeard(cfg: Config, events: seq<Event>, i: nat, channel: string)
    requires Serviceable(cfg) && i < |Run(cfg, events).streams|
    requires forall s :: s in Run(cfg, events).registry.all ==> PlainText(s)
    ensures var s := Run(cfg, events).streams[i];
      Heard(Emitted(cfg, events, i) + Texts(s.queue), channel) == Covered(s.Asked(), {channel})
  {
    var w := Run(cfg, events);
    RunKeepsDrawn(cfg, events);
    EmittedIsSent(cfg, events, i);
    DrawnIsPlain(cfg, w.registry.all, w.streams[i]);
    BothAreHeard(w.streams[i].sent, w.streams[i].queue, channel);
  }

  lemma DrawnIsPlain(cfg: Config, all: set<string>, s: Stream)
    requires BooksChannel(cfg).Some? && Drawn(cfg, all, s.sent) && Drawn(cfg, all, s.queue)
    requires forall x :: x in all ==> PlainText(x)
    ensures PlainRequests(s.Asked())
  {
    ChannelsArePlain(cfg);
    forall k | 0 <= k < |s.Asked()|
      ensures PlainText(s.Asked()[k].channel) && PlainTexts(s.Asked()[k].symbols) && s.Asked()[k].symbols != []
    {
      assert DrawnRequest(cfg, all, s.Asked()[k]);
    }
  }

  /**
    Text by text: what the timers of a stream have put on the socket since it became READY, and what it still
    holds in its queue, is heard by the venue, on each data channel, as its slice of the registry.
   */
  lemma TextsAreHeard(cfg: Config, events: seq<Event>, i: nat, channel: string)
    requires Serviceable(cfg) && i < |Run(cfg, events).streams|
    requires Run(cfg, events).streams[i].status == Ready && DataChannel(cfg, channel)
    requires forall s :: s in Run(cfg, events).registry.all ==> PlainText(s)
    ensures var w := Run(cfg, events);
      Heard(Emitted(cfg, events, i) + Texts(w.streams[i].queue), channel) ==
      Slice(w.registry.symbols, cfg.perStream, i, 0)
  {
    AskedIsHeard(cfg, events, i, channel);
    RunKeepsInv(cfg, events);
    ServedIff(cfg, channel);
  }

  /**
    A timer that the rate limiter lets send the whole queue leaves nothing to send: the venue has then heard
    the slice, all of it and once, and no timer after it sends anything.
   */
  lemma NothingIsSentTwice(cfg: Config, events: seq<Event>, i: nat, n: nat, m: nat, channel: string)
    requires Serviceable(cfg) && i < |Run(cfg, events).streams|
    requires Run(cfg, events).streams[i].status == Ready && DataChannel(cfg, channel)
    requires forall s :: s in Run(cfg, events).registry.all ==> PlainText(s)
    requires |Run(cfg, events).streams[i].queue| <= n
    ensures var sent := events + [Timer(i, n)];
      Run(cfg, sent).streams[i].queue == []
      && Heard(Emitted(cfg, sent, i), channel) == Slice(Run(cfg, events).registry.symbols, cfg.perStream, i, 0)
      && TextsOf(Run(cfg, sent), Timer(i, m), i) == []
  {
    var sent := events + [Timer(i, n)];
    assert sent[..|sent| - 1] == events;
    TextsAreHeard(cfg, sent, i, channel);
    assert Emitted(cfg, sent, i) + [] == Emitted(cfg, sent, i);
  }

  // ---------------------------------------------------------------- derived channels follow the type

  /** The exchange says of each instrument, consistently, whether it is a swap or a future. */
  predicate ConsistentItems(items: seq<Instrument>, swaps: set<string>) {
    forall k :: 0 <= k < |items| ==> (items[k].kind in {SwapType, FuturesType} <==> items[k].symbol in swaps)
  }

  predicate Consistent(events: seq<Event>, swaps: set<string>) {
    forall k :: 0 <= k < |events| && events[k].InstrumentData? ==> ConsistentItems(events[k].items, swaps)
  }

  predicate TypedRegistry(r: Registry, swaps: set<string>) {
    r.extended <= swaps && r.native * swaps <= r.extended
  }

  predicate TypedStream(r: Registry, swaps: set<string>, s: Stream) {
    s.status == Ready ==>
      (forall x :: x in Covered(s.Asked(), {FUNDING}) ==> x in r.extended)
      && (forall x :: x in Covered(s.Asked(), {INDEX}) && x in r.native ==> x !in swaps)
  }

  predicate Typed(w: World, swaps: set<string>) {
    TypedRegistry(w.registry, swaps)
    && forall i :: 0 <= i < |w.streams| ==> TypedStream(w.registry, swaps, w.streams[i])
  }

  lemma {:induction false} CoveredUnion(rs: seq<Request>, a: string, b: string, x: string)
    ensures x in Covered(rs, {a, b}) <==> x in Covered(rs, {a}) || x in Covered(rs, {b})
  {
    if rs != [] {
      CoveredUnion(rs[1..], a, b, x);
    }
  }

  lemma {:induction false} KeptFunded(items: seq<Instrument>, x: string)
    ensures x in Kept(items) <==> exists k :: 0 <= k < |items| && !items[k].discard && items[k].symbol == x
  {
    if items != [] {
      KeptFunded(items[1..], x);
      if k :| 0 <= k < |items| && !items[k].discard && items[k].symbol == x {
        if k > 0 { assert items[1..][k - 1] == items[k]; }
      }
      if x in Kept(items[1..]) {
        var k :| 0 <= k < |items[1..]| && !items[1..][k].discard && items[1..][k].symbol == x;
        assert items[k + 1] == items[1..][k];
      }
    }
  }

  lemma AskedAlso(cfg: Config, s: Stream, rs: seq<Request>, channel: string, x: string)
    ensures x in Covered(s.(queue := s.queue + rs).Asked(), {channel}) <==>
            x in Covered(s.Asked(), {channel}) || x in Covered(rs, {channel})
  {
    CoveredConcat(s.Asked(), rs, {channel});
    assert s.sent + (s.queue + rs) == s.sent + s.queue + rs;
  }

  /** Newly asked requests obey the registry they were made from. */
  lemma RequestsTyped(cfg: Config, r: Registry, swaps: set<string>, part: seq<string>, x: string)
    requires BooksChannel(cfg).Some? && !cfg.includeBad && TypedRegistry(r, swaps)
    ensures x in Covered(Requests(cfg, r.extended, part), {FUNDING}) ==> x in r.extended
    ensures x in Covered(Requests(cfg, r.extended, part), {INDEX}) && x in r.native ==> x !in swaps
  {
    DerivedChannelsComplete(cfg, r.extended, part, {FUNDING});
    DerivedChannelsComplete(cfg, r.extended, part, {INDEX});
    DerivedCovers(cfg, r.extended, part);
  }

  lemma AskTyped(cfg: Config, r: Registry, q: Registry, swaps: set<string>, s: Stream, start: nat)
    requires Serviceable(cfg) && !cfg.includeBad && TypedRegistry(q, swaps) && TypedStream(r, swaps, s)
    requires r.extended <= q.extended
    requires s.status == Ready ==> forall x :: x in Covered(s.Asked(), {INDEX}) && x in q.native ==> x in r.native
    ensures TypedStream(q, swaps, Ask(cfg, q, s, start))
  {
    if s.status == Ready {
      var part := Slice(q.symbols, cfg.perStream, s.index, start);
      var rs := Requests(cfg, q.extended, part);
      var t := s.(queue := s.queue + rs);
      forall x
        ensures x in Covered(t.Asked(), {FUNDING}) ==> x in q.extended
        ensures x in Covered(t.Asked(), {INDEX}) && x in q.native ==> x !in swaps
      {
        RequestsTyped(cfg, q, swaps, part, x);
        AskedAlso(cfg, s, rs, FUNDING, x);
        AskedAlso(cfg, s, rs, INDEX, x);
      }
    }
  }

  lemma BecomeReadyTyped(cfg: Config, r: Registry, swaps: set<string>, s: Stream)
    requires Serviceable(cfg) && !cfg.includeBad && TypedRegistry(r, swaps) && s.queue == []
    ensures TypedStream(r, swaps, BecomeReady(cfg, r, s))
  {
    AskTyped(cfg, r, r, swaps, s.(download := Done, status := Ready, sent := []), 0);
  }

  /** What a stream has asked for is registered, hence not new. */
  lemma AskedIsOld(cfg: Config, w: World, i: nat, x: string)
    requires Serviceable(cfg) && Inv(cfg, w) && i < |w.streams| && !cfg.includeBad
    requires w.streams[i].status == Ready && x in Covered(w.streams[i].Asked(), {INDEX})
    ensures x in w.registry.all
  {
    CoveredUnion(w.streams[i].Asked(), FUNDING, INDEX, x);
    assert x in Slice(w.registry.symbols, cfg.perStream, i, 0);
    assert x in w.registry.symbols;
    assert x in Elements(w.registry.symbols);
  }

  lemma SymbolsUpdateTyped(cfg: Config, w: World, q: Registry, news: seq<string>, swaps: set<string>)
    requires Serviceable(cfg) && !cfg.includeBad && Inv(cfg, w) && Typed(w, swaps)
    requires w.registry.extended <= q.extended && TypedRegistry(q, swaps)
    requires forall x :: x in q.native && x in w.registry.all ==> x in w.registry.native
    ensures Typed(SymbolsUpdate(cfg, w.(registry := q), news), swaps)
  {
    var q' := q.(symbols := q.symbols + news);
    var grown := Grown(w.streams, SliceCount(|q'.symbols|, cfg.perStream));
    forall i | 0 <= i < |grown| ensures TypedStream(q', swaps, Ask(cfg, q', grown[i], |q.symbols|)) {
      if i < |w.streams| {
        if w.streams[i].status == Ready {
          forall x | x in Covered(w.streams[i].Asked(), {INDEX}) ensures x in w.registry.all {
            AskedIsOld(cfg, w, i, x);
          }
        }
        AskTyped(cfg, w.registry, q', swaps, w.streams[i], |q.symbols|);
      }
    }
  }

  lemma InstrumentsTyped(r: Registry, items: seq<Instrument>, swaps: set<string>)
    requires RegistryOk(r) && TypedRegistry(r, swaps) && ConsistentItems(items, swaps)
    ensures var news := Fresh(r.all, Kept(items));
      TypedRegistry(r.(extended := r.extended + Funded(items), native := r.native + Elements(news)), swaps)
      && forall x :: x in r.native + Elements(news) && x in r.all ==> x in r.native
  {
    var news := Fresh(r.all, Kept(items));
    FreshIsNew(r.all, Kept(items));
    forall x | x in Elements(news) && x in swaps ensures x in Funded(items) {
      KeptFunded(items, x);
    }
  }

  lemma InstrumentsKeepTyped(cfg: Config, w: World, items: seq<Instrument>, swaps: set<string>)
    requires Serviceable(cfg) && !cfg.includeBad && Inv(cfg, w) && Typed(w, swaps) && ConsistentItems(items, swaps)
    ensures Typed(OnInstruments(cfg, w, items), swaps)
  {
    var r := w.registry;
    var news := Fresh(r.all, Kept(items));
    InstrumentsTyped(r, items, swaps);
    var q := r.(all := r.all + Elements(news), extended := r.extended + Funded(items),
      native := r.native + Elements(news));
    if news != [] {
      SymbolsUpdateTyped(cfg, w, q, news, swaps);
    } else {
      assert Elements(news) == {};
      assert q.native == r.native;
    }
  }

  lemma StepKeepsTyped(cfg: Config, w: World, e: Event, swaps: set<string>)
    requires Serviceable(cfg) && !cfg.includeBad && Inv(cfg, w) && Typed(w, swaps) && Possible(w, e)
    requires e.InstrumentData? ==> ConsistentItems(e.items, swaps)
    ensures Typed(Step(cfg, w, e), swaps)
  {
    var r := w.registry;
    match e {
      case ClientSubscribe(names) =>
        var news := Fresh(r.all, names);
        SymbolsUpdateTyped(cfg, w, r.(all := r.all + Elements(news)), news, swaps);
      case InstrumentData(items) => InstrumentsKeepTyped(cfg, w, items, swaps);
      case SocketReady(i) => BecomeReadyTyped(cfg, r, swaps, w.streams[i]);
      case LoginAck(i) =>
        if w.streams[i].download == Login {
          BecomeReadyTyped(cfg, r, swaps, w.streams[i]);
        }
      case Timer(i, n) =>
        if w.streams[i].status == Ready {
          assert OnTimer(w.streams[i], n).Asked() == w.streams[i].Asked();
        }
      case SocketDown(i) =>
    }
  }

  lemma {:induction false} RunKeepsTyped(cfg: Config, events: seq<Event>, swaps: set<string>)
    requires Serviceable(cfg) && !cfg.includeBad && Consistent(events, swaps)
    ensures Typed(Run(cfg, events), swaps)
    decreases |events|
  {
    if events != [] {
      var before := events[..|events| - 1];
      var w := Run(cfg, before);
      RunKeepsTyped(cfg, before, swaps);
      RunKeepsInv(cfg, before);
      if Possible(w, events[|events| - 1]) {
        StepKeepsTyped(cfg, w, events[|events| - 1], swaps);
      }
    }
  }

  /**
    Unless bad subscriptions are wanted, a READY stream has asked for exactly one derived channel of every
    instrument of its slice; of an instrument first registered from instrument data it is the funding rate
    if and only if the exchange lists it as a swap or a future.
   */
  lemma DerivedChannelFollowsType(cfg: Config, events: seq<Event>, swaps: set<string>, i: nat, x: string)
    requires Serviceable(cfg) && !cfg.includeBad && Consistent(events, swaps)
    requires i < |Run(cfg, events).streams| && Run(cfg, events).streams[i].status == Ready
    requires x in Slice(Run(cfg, events).registry.symbols, cfg.perStream, i, 0)
    requires x in Run(cfg, events).registry.native
    ensures var asked := Run(cfg, events).streams[i].Asked();
      (x in Covered(asked, {"funding-rate"}) <==> x in swaps)
      && (x in Covered(asked, {"index-tickers"}) <==> x !in swaps)
  {
    RunKeepsTyped(cfg, events, swaps);
    RunKeepsInv(cfg, events);
    CoveredUnion(Run(cfg, events).streams[i].Asked(), FUNDING, INDEX, x);
  }

  // ---------------------------------------------------------------- the registry only grows

  /** Earlier contents are a prefix of later ones; instrument loops never register what is discarded. */
  lemma StepGrowsRegistry(cfg: Config, w: World, e: Event)
    requires Serviceable(cfg) && Inv(cfg, w) && Possible(w, e)
    ensures var v := Step(cfg, w, e);
      w.registry.symbols <= v.registry.symbols
      && (forall x :: x in v.registry.extended <==>
            x in w.registry.extended
            || (e.InstrumentData?
                && exists k :: 0 <= k < |e.items| && !e.items[k].discard && e.items[k].symbol == x
                               && e.items[k].kind in {SwapType, FuturesType}))
      && (e.ClientSubscribe? ==> v.registry.all == w.registry.all + Elements(e.names))
      && (e.InstrumentData? ==>
            forall x :: x in v.registry.all && x !in w.registry.all <==>
                        x !in w.registry.all
                        && exists k :: 0 <= k < |e.items| && !e.items[k].discard && e.items[k].symbol == x)
      && (!e.ClientSubscribe? && !e.InstrumentData? ==> v.registry == w.registry)
  {
    match e {
      case ClientSubscribe(names) => FreshIsNew(w.registry.all, names);
      case InstrumentData(items) =>
        FreshIsNew(w.registry.all, Kept(items));
        forall x
          ensures x in Kept(items) <==>
                  exists k :: 0 <= k < |items| && !items[k].discard && items[k].symbol == x
        {
          KeptFunded(items, x);
        }
      case _ =>
    }
  }
}
