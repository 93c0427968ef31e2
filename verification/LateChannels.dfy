/**
  When the choice of a derived channel survives a reconnect. A stream asks for the funding rate of an
  instrument if it is known to carry one at that moment; it is not asked again when that becomes known later.
 */
module LateChannels {
  import opened Subscription
  import opened SubscriptionRuns
  import opened SubscriptionDetail

  /**
    The instruments of a READY stream's slice that turned out to carry a funding rate only after the stream
    had asked for them. Becoming READY asks anew.
   */
  function LateStep(cfg: Config, w: World, e: Event, i: nat, late: set<string>): set<string>
    requires Possible(w, e)
  {
    match e
    case InstrumentData(items) =>
      if i < |w.streams| && w.streams[i].status == Ready then
        late + (Funded(items) - w.registry.extended) * Elements(Slice(w.registry.symbols, cfg.perStream, i, 0))
      else late
    case SocketReady(j) => if j == i && !cfg.hasAccount then {} else late
    case LoginAck(j) => if j == i && w.streams[i].download == Login then {} else late
    case _ => late
  }

  function Late(cfg: Config, events: seq<Event>, i: nat): set<string>
    requires Serviceable(cfg)
  {
    if events == [] then {}
    else
      var before, e := events[..|events| - 1], events[|events| - 1];
      var w, late := Run(cfg, before), Late(cfg, before, i);
      if Possible(w, e) then LateStep(cfg, w, e, i, late) else late
  }

  /** What a READY stream has asked for about one instrument. */
  predicate LateAt(cfg: Config, r: Registry, s: Stream, late: set<string>, x: string) {
    s.status == Ready ==>
      var slice := Slice(r.symbols, cfg.perStream, s.index, 0);
      (x in Covered(s.Asked(), {FUNDING}) <==> x in slice && x in r.extended && x !in late)
      && (x in Covered(s.Asked(), {INDEX}) <==> x in slice && (x !in r.extended || x in late))
      && (x in late ==> x in r.extended && x in slice)
  }

  /** Requests made now choose by what is known now. */
  lemma RequestsChoose(cfg: Config, extended: set<string>, part: seq<string>, x: string)
    requires BooksChannel(cfg).Some? && !cfg.includeBad
    ensures x in Covered(Requests(cfg, extended, part), {FUNDING}) <==> x in part && x in extended
    ensures x in Covered(Requests(cfg, extended, part), {INDEX}) <==> x in part && x !in extended
  {
    DerivedChannelsComplete(cfg, extended, part, {FUNDING});
    DerivedChannelsComplete(cfg, extended, part, {INDEX});
    DerivedCovers(cfg, extended, part);
    CoveredUnion(Derived(cfg, extended, part), FUNDING, INDEX, x);
  }

  lemma BecomeReadyLate(cfg: Config, r: Registry, s: Stream, x: string)
    requires Serviceable(cfg) && !cfg.includeBad && s.queue == []
    ensures LateAt(cfg, r, BecomeReady(cfg, r, s), {}, x)
  {
    var slice := Slice(r.symbols, cfg.perStream, s.index, 0);
    RequestsChoose(cfg, r.extended, slice, x);
    assert BecomeReady(cfg, r, s).Asked() == Requests(cfg, r.extended, slice);
  }

  /** The part of a slice from the old length on holds new instruments only. */
  lemma PartIsNew(symbols: seq<string>, news: seq<string>, perStream: nat, index: nat, x: string)
    requires Distinct(symbols + news)
    ensures !(x in Slice(symbols, perStream, index, 0) && x in Slice(symbols + news, perStream, index, |symbols|))
  {
    Multiples(index, perStream);
    var all := symbols + news;
    var early, part := Slice(symbols, perStream, index, 0), Slice(all, perStream, index, |symbols|);
    forall a, b | 0 <= a < |early| && 0 <= b < |part| ensures early[a] != part[b] {
      assert early[a] == all[index * perStream + a] && part[b] == all[Max(index * perStream, |symbols|) + b];
    }
  }

  /** Growing registries: instruments asked for before they were known to carry a funding rate become late. */
  lemma AskLate(cfg: Config, r: Registry, q: Registry, news: seq<string>, s: Stream, late: set<string>, x: string)
    requires Serviceable(cfg) && !cfg.includeBad && LateAt(cfg, r, s, late, x)
    requires q.symbols == r.symbols + news && Distinct(q.symbols) && r.extended <= q.extended
    ensures var more := (q.extended - r.extended) * Elements(Slice(r.symbols, cfg.perStream, s.index, 0));
      LateAt(cfg, q, Ask(cfg, q, s, |r.symbols|), late + more, x)
  {
    if s.status == Ready {
      var part := Slice(q.symbols, cfg.perStream, s.index, |r.symbols|);
      SliceGrows(r.symbols, news, cfg.perStream, s.index);
      PartIsNew(r.symbols, news, cfg.perStream, s.index, x);
      RequestsChoose(cfg, q.extended, part, x);
      AskedAlso(cfg, s, Requests(cfg, q.extended, part), FUNDING, x);
      AskedAlso(cfg, s, Requests(cfg, q.extended, part), INDEX, x);
    }
  }

  predicate StreamLateAt(cfg: Config, w: World, i: nat, late: set<string>, x: string) {
    i < |w.streams| ==> LateAt(cfg, w.registry, w.streams[i], late, x)
  }

  lemma ClientKeepsLate(cfg: Config, w: World, names: seq<string>, i: nat, late: set<string>, x: string)
    requires Serviceable(cfg) && !cfg.includeBad && Inv(cfg, w) && StreamLateAt(cfg, w, i, late, x)
    ensures StreamLateAt(cfg, OnClient(cfg, w, names), i, late, x)
  {
    var r := w.registry;
    var news := Fresh(r.all, names);
    RegisterKeepsRegistry(r, names);
    if i < |w.streams| {
      var q := r.(all := r.all + Elements(news), symbols := r.symbols + news);
      AskLate(cfg, r, q, news, w.streams[i], late, x);
      assert late + (q.extended - r.extended) * Elements(Slice(r.symbols, cfg.perStream, i, 0)) == late;
    }
  }

  lemma InstrumentsKeepLate(cfg: Config, w: World, items: seq<Instrument>, i: nat, late: set<string>, x: string)
    requires Serviceable(cfg) && !cfg.includeBad && Inv(cfg, w) && StreamLateAt(cfg, w, i, late, x)
    ensures StreamLateAt(cfg, OnInstruments(cfg, w, items), i, LateStep(cfg, w, InstrumentData(items), i, late), x)
  {
    var r := w.registry;
    var news := Fresh(r.all, Kept(items));
    RegisterKeepsRegistry(r, Kept(items));
    if i < |w.streams| && w.streams[i].status == Ready {
      var q := r.(all := r.all + Elements(news), extended := r.extended + Funded(items),
                  native := r.native + Elements(news), symbols := r.symbols + news);
      AskLate(cfg, r, q, news, w.streams[i], late, x);
      assert q.extended - r.extended == Funded(items) - r.extended;
      if news == [] {
        NothingNew(cfg, q, w.streams[i]);
        assert r.symbols + news == r.symbols;
      }
    }
  }

  lemma NothingNew(cfg: Config, q: Registry, s: Stream)
    requires Serviceable(cfg)
    ensures Ask(cfg, q, s, |q.symbols|) == s
  {
    assert Slice(q.symbols, cfg.perStream, s.index, |q.symbols|) == [];
    assert s.queue + [] == s.queue;
  }

  /** An event of the stream itself. */
  lemma OwnEventKeepsLate(cfg: Config, w: World, e: Event, late: set<string>, x: string)
    requires Serviceable(cfg) && !cfg.includeBad && Inv(cfg, w) && Possible(w, e)
    requires !e.ClientSubscribe? && !e.InstrumentData? && LateAt(cfg, w.registry, w.streams[e.i], late, x)
    ensures LateAt(cfg, w.registry, Step(cfg, w, e).streams[e.i], LateStep(cfg, w, e, e.i, late), x)
  {
    var s := w.streams[e.i];
    match e {
      case SocketReady(_) => BecomeReadyLate(cfg, w.registry, s, x);
      case LoginAck(_) =>
        if s.download == Login {
          BecomeReadyLate(cfg, w.registry, s, x);
        }
      case Timer(_, n) =>
        if s.status == Ready {
          assert OnTimer(s, n).Asked() == s.Asked();
        }
      case _ =>
    }
  }

  lemma StepKeepsLate(cfg: Config, w: World, e: Event, i: nat, late: set<string>, x: string)
    requires Serviceable(cfg) && !cfg.includeBad && Inv(cfg, w) && Possible(w, e) && StreamLateAt(cfg, w, i, late, x)
    ensures StreamLateAt(cfg, Step(cfg, w, e), i, LateStep(cfg, w, e, i, late), x)
  {
    match e {
      case ClientSubscribe(names) => ClientKeepsLate(cfg, w, names, i, late, x);
      case InstrumentData(items) => InstrumentsKeepLate(cfg, w, items, i, late, x);
      case _ =>
        if e.i == i {
          OwnEventKeepsLate(cfg, w, e, late, x);
        }
    }
  }

  lemma {:induction false} RunKeepsLate(cfg: Config, events: seq<Event>, i: nat, x: string)
    requires Serviceable(cfg) && !cfg.includeBad
    ensures StreamLateAt(cfg, Run(cfg, events), i, Late(cfg, events, i), x)
    decreases |events|
  {
    if events != [] {
      var before := events[..|events| - 1];
      RunKeepsLate(cfg, before, i, x);
      RunKeepsInv(cfg, before);
      if Possible(Run(cfg, before), events[|events| - 1]) {
        StepKeepsLate(cfg, Run(cfg, before), events[|events| - 1], i, Late(cfg, before, i), x);
      }
    }
  }

  // ---------------------------------------------------------------- the exact condition

  /** On both derived channels the stream has asked for an instrument as it would after a reconnect. */
  predicate Agrees(cfg: Config, w: World, i: nat, x: string)
    requires Serviceable(cfg) && i < |w.streams|
  {
    var asked, again := w.streams[i].Asked(), Resubscribed(cfg, w, i);
    (x in Covered(asked, {FUNDING}) <==> x in Covered(again, {FUNDING}))
    && (x in Covered(asked, {INDEX}) <==> x in Covered(again, {INDEX}))
  }

  /**
    Unless bad subscriptions are wanted, a reconnect repeats the choice of derived channel for an instrument
    of a READY stream if and only if the instrument was not late.
   */
  lemma DerivedAgreesIff(cfg: Config, events: seq<Event>, i: nat, x: string)
    requires Serviceable(cfg) && !cfg.includeBad
    requires i < |Run(cfg, events).streams| && Run(cfg, events).streams[i].status == Ready
    requires x in Slice(Run(cfg, events).registry.symbols, cfg.perStream, i, 0)
    ensures Agrees(cfg, Run(cfg, events), i, x) <==> x !in Late(cfg, events, i)
  {
    var w := Run(cfg, events);
    RunKeepsLate(cfg, events, i, x);
    RunKeepsInv(cfg, events);
    ResubscribedIsWhole(cfg, w, i);
    RequestsChoose(cfg, w.registry.extended, Slice(w.registry.symbols, cfg.perStream, i, 0), x);
  }

  /** An instrument first registered from consistent instrument data is never late. */
  lemma NativeIsNeverLate(cfg: Config, events: seq<Event>, swaps: set<string>, i: nat, x: string)
    requires Serviceable(cfg) && !cfg.includeBad && Consistent(events, swaps)
    requires i < |Run(cfg, events).streams| && Run(cfg, events).streams[i].status == Ready
    requires x in Slice(Run(cfg, events).registry.symbols, cfg.perStream, i, 0)
    requires x in Run(cfg, events).registry.native
    ensures x !in Late(cfg, events, i)
  {
    RunKeepsLate(cfg, events, i, x);
    RunKeepsInv(cfg, events);
    RunKeepsTyped(cfg, events, swaps);
    DerivedChannelFollowsType(cfg, events, swaps, i, x);
  }

  lemma ResubscribedIsWhole(cfg: Config, w: World, i: nat)
    requires Serviceable(cfg) && Inv(cfg, w) && i < |w.streams|
    ensures Resubscribed(cfg, w, i) ==
            Requests(cfg, w.registry.extended, Slice(w.registry.symbols, cfg.perStream, i, 0))
  {
    var down := OnDown(w.streams[i]);
    assert OnReady(cfg, w.registry, down).download == if cfg.hasAccount then Login else Done;
  }

  const SMALL := Config(1, 5, false, false, false)

  lemma OneDerived(extended: set<string>, x: string)
    ensures Covered(Requests(SMALL, extended, [x]), {INDEX}) == if x in extended then [] else [x]
  {
    DerivedChannelsComplete(SMALL, extended, [x], {INDEX});
    DerivedHead(SMALL, extended, [x], {INDEX});
    assert [x][1..] == [];
    assert FUNDING != INDEX;
  }

  lemma NamedFirst(x: string)
    ensures Run(SMALL, [ClientSubscribe([x])]) == World(Registry([x], {x}, {}, {}), [NewStream(0)])
  {
    var e := [ClientSubscribe([x])];
    assert e[..0] == [] && Run(SMALL, []) == INITIAL;
    assert Fresh({x}, []) == [] && [x][1..] == [] && {} + {x} == {x};
    assert Fresh({}, [x]) == [x] && Elements([x]) == {x};
    assert Grown([], 1) == [NewStream(0)];
    assert Run(SMALL, e).streams == [NewStream(0)];
    assert Run(SMALL, e).registry == Registry([x], {x}, {}, {});
  }

  lemma ReadyNext(x: string)
    ensures var w := Run(SMALL, [ClientSubscribe([x])] + [SocketReady(0)]);
      w.registry == Registry([x], {x}, {}, {}) && |w.streams| == 1 && w.streams[0].status == Ready
      && w.streams[0].index == 0 && w.streams[0].Asked() == Requests(SMALL, {}, [x])
  {
    NamedFirst(x);
    var es := [ClientSubscribe([x])] + [SocketReady(0)];
    assert es[..1] == [ClientSubscribe([x])];
    assert Slice([x], 1, 0, 0) == [x];
  }

  /** What is asked at once for an instrument a client has named can differ from what a reconnect asks. */
  lemma DerivedMayDiffer(x: string)
    ensures var w := Run(SMALL, [ClientSubscribe([x])] + [SocketReady(0)]
        + [InstrumentData([Instrument(x, false, SwapType)])]);
      |w.streams| == 1 && w.streams[0].status == Ready
      && x in Covered(w.streams[0].Asked(), {INDEX}) && x !in Covered(Resubscribed(SMALL, w, 0), {INDEX})
  {
    var before, item := [ClientSubscribe([x])] + [SocketReady(0)], Instrument(x, false, SwapType);
    var es := before + [InstrumentData([item])];
    assert es[..2] == before;
    ReadyNext(x);
    KeptFunded([item], x);
    FreshIsNew({x}, Kept([item]));
    assert [item][1..] == [] && Kept([item]) == [x] && Fresh({x}, [x][1..]) == [];
    assert [item][0].symbol in Funded([item]);
    RunKeepsInv(SMALL, es);
    ResubscribedIsWhole(SMALL, Run(SMALL, es), 0);
    assert Slice([x], 1, 0, 0) == [x];
    OneDerived({}, x);
    OneDerived(Run(SMALL, es).registry.extended, x);
  }
}
