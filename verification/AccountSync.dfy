/**
  The account synchronisation protocol between DropCopy (web socket side) and OrderEntry (REST side),
  which meet in the shared Request object. `CoreStep` is what the two objects do in response to one event
  and which messages they emit; module AccountGateway holds the objects and proves that they do exactly
  that. `Step` adds the world around them: the requests on the wire, answered first come first served,
  and a journal of the current login.
 */
module AccountSync {
  import opened Wrappers

  /** The states of the download, in the order they are visited; Idle stands for UNDEFINED. */
  datatype State =
    | Idle | SubscribeAccount | GetAccount | SubscribeBalance | GetBalances | SubscribePositions | GetPositions
    | SubscribeOrders | GetOpenOrders | GetStaleOrders | GetTrades | Done
  {
    function Rank(): nat {
      match this
      case Idle => 0
      case SubscribeAccount => 1
      case GetAccount => 2
      case SubscribeBalance => 3
      case GetBalances => 4
      case SubscribePositions => 5
      case GetPositions => 6
      case SubscribeOrders => 7
      case GetOpenOrders => 8
      case GetStaleOrders => 9
      case GetTrades => 10
      case Done => 11
    }

    function Next(): State {
      match this
      case Idle => SubscribeAccount
      case SubscribeAccount => GetAccount
      case GetAccount => SubscribeBalance
      case SubscribeBalance => GetBalances
      case GetBalances => SubscribePositions
      case SubscribePositions => GetPositions
      case GetPositions => SubscribeOrders
      case SubscribeOrders => GetOpenOrders
      case GetOpenOrders => GetStaleOrders
      case GetStaleOrders => GetTrades
      case GetTrades => Done
      case Done => Done
    }
  }

  datatype Channel = AccountChannel | BalanceChannel | PositionsChannel | OrdersChannel | OtherChannel

  /** The requests DropCopy makes of OrderEntry. */
  datatype Kind = AccountKind | BalancesKind | PositionsKind | OpenOrdersKind | StaleOrdersKind | TradesKind

  /** One value for each kind of request: the members of the Request object. */
  datatype PerKind<T> = PerKind(account: T, balances: T, positions: T, openOrders: T, staleOrders: T, trades: T) {
    function Get(k: Kind): T {
      match k
      case AccountKind => account
      case BalancesKind => balances
      case PositionsKind => positions
      case OpenOrdersKind => openOrders
      case StaleOrdersKind => staleOrders
      case TradesKind => trades
    }

    function Set(k: Kind, v: T): (r: PerKind<T>)
      ensures forall j :: r.Get(j) == if j == k then v else Get(j)
    {
      match k
      case AccountKind => this.(account := v)
      case BalancesKind => this.(balances := v)
      case PositionsKind => this.(positions := v)
      case OpenOrdersKind => this.(openOrders := v)
      case StaleOrdersKind => this.(staleOrders := v)
      case TradesKind => this.(trades := v)
    }
  }

  /** core::limit::Request: asking clears the response; the answer sets it. */
  datatype Slot = Slot(pending: bool, response: bool)

  type Slots = PerKind<Slot>

  type Key = (nat, nat)

  datatype Core = Core(state: State, slots: Slots, stale: set<Key>, counter: nat)

  datatype Action =
    | Subscribe(channel: Channel)
    | Ask(kind: Kind)
    | Query(kind: Kind)
    | QueryOrders(keys: set<Key>)
    | PublishReady
    | Fatal

  datatype Event =
    | SocketDown
    | LoginAck
    | SubscribeAck(channel: Channel)
    | SocketTimer(lost: set<Key>)
    | RestTimer(allowed: set<Kind>, known: set<Key>)
    | Answer(kind: Kind)
    | OrderAnswer

  /** The state a subscription acknowledgement completes. */
  function Acknowledged(c: Channel): Option<State> {
    match c
    case AccountChannel => Some(SubscribeAccount)
    case BalanceChannel => Some(SubscribeBalance)
    case PositionsChannel => Some(SubscribePositions)
    case OrdersChannel => Some(SubscribeOrders)
    case OtherChannel => None
  }

  /** The request a state waits for. */
  function Awaited(s: State): Option<Kind> {
    match s
    case GetAccount => Some(AccountKind)
    case GetBalances => Some(BalancesKind)
    case GetPositions => Some(PositionsKind)
    case GetOpenOrders => Some(OpenOrdersKind)
    case GetStaleOrders => Some(StaleOrdersKind)
    case GetTrades => Some(TradesKind)
    case _ => None
  }

  function Subscribed(s: State): Option<Channel> {
    match s
    case SubscribeAccount => Some(AccountChannel)
    case SubscribeBalance => Some(BalanceChannel)
    case SubscribePositions => Some(PositionsChannel)
    case SubscribeOrders => Some(OrdersChannel)
    case _ => None
  }

  /** The two states that may have nothing to do. */
  predicate Skipped(c: Core, lookback: bool, s: State) {
    (s == GetStaleOrders && c.stale == {}) || (s == GetTrades && !lookback)
  }

  function Asked(slots: Slots, k: Kind): Slots {
    slots.Set(k, Slot(true, false))
  }

  /** Entering a state, going on to the next while there is nothing to wait for. */
  function Enter(c: Core, lookback: bool, s: State): (r: (Core, seq<Action>))
    requires s != Idle
    ensures r.0.stale == c.stale && r.0.counter == c.counter
    decreases 11 - s.Rank()
  {
    var here := c.(state := s);
    if s == Done then (here, [PublishReady])
    else if Skipped(c, lookback, s) then Enter(c, lookback, s.Next())
    else
      match (Subscribed(s), Awaited(s))
      case (Some(ch), _) => (here, [Subscribe(ch)])
      case (None, Some(k)) => (here.(slots := Asked(c.slots, k)), [Ask(k)])
      case _ => (here, [])
  }

  /** The socket side's timer: has the awaited answer come? */
  function OnSocketTimer(c: Core, lookback: bool, lost: set<Key>): (Core, seq<Action>) {
    match Awaited(c.state)
    case None => (c, [])
    case Some(k) =>
      if !c.slots.Get(k).response then (c, [])
      else if c.state == GetStaleOrders && c.stale != {} then (c, [Fatal])
      else
        var found := if c.state == GetOpenOrders then c.(stale := c.stale + lost) else c;
        Enter(found, lookback, c.state.Next())
  }

  /** The pending requests the rate limiter lets go. */
  function Fired(slots: Slots, allowed: set<Kind>): set<Kind> {
    set k | k in allowed && slots.Get(k).pending
  }

  function Sent(slots: Slots, fired: set<Kind>): (r: Slots)
    ensures forall k :: r.Get(k) == if k in fired then Slot(false, slots.Get(k).response) else slots.Get(k)
  {
    var send := k => if k in fired then Slot(false, slots.Get(k).response) else slots.Get(k);
    PerKind(
      send(AccountKind), send(BalancesKind), send(PositionsKind),
      send(OpenOrdersKind), send(StaleOrdersKind), send(TradesKind))
  }

  /** The order in which the REST side sends its requests. */
  function Turn(k: Kind): nat {
    match k
    case AccountKind => 0
    case BalancesKind => 1
    case PositionsKind => 2
    case OpenOrdersKind => 3
    case StaleOrdersKind => 4
    case TradesKind => 5
  }

  function KindAt(n: nat): (k: Kind)
    requires n < 6
    ensures Turn(k) == n
  {
    [AccountKind, BalancesKind, PositionsKind, OpenOrdersKind, StaleOrdersKind, TradesKind][n]
  }

  function Either(k: Kind, fired: set<Kind>, a: Action): seq<Action> {
    if k in fired then [a] else []
  }

  function QueryFor(c: Core, known: set<Key>, k: Kind): Action {
    if k == StaleOrdersKind then QueryOrders(c.stale * known) else Query(k)
  }

  /** The first `n` turns. */
  function Queries(c: Core, fired: set<Kind>, known: set<Key>, n: nat): seq<Action>
    requires n <= 6
  {
    if n == 0 then []
    else Queries(c, fired, known, n - 1) + Either(KindAt(n - 1), fired, QueryFor(c, known, KindAt(n - 1)))
  }

  function OnRestTimer(c: Core, allowed: set<Kind>, known: set<Key>): (Core, seq<Action>) {
    var fired := Fired(c.slots, allowed);
    var drains := StaleOrdersKind in fired;
    ( c.(slots := Sent(c.slots, fired),
         stale := if drains then {} else c.stale,
         counter := if drains then c.counter + |c.stale * known| else c.counter),
      Queries(c, fired, known, 6) )
  }

  function Committed(slots: Slots, k: Kind): Slots {
    slots.Set(k, Slot(slots.Get(k).pending, true))
  }

  function OnOrderAnswer(c: Core): (Core, seq<Action>) {
    if c.counter == 0 then (c, [Fatal])
    else
      var left := c.counter - 1;
      (c.(counter := left, slots := if left == 0 then Committed(c.slots, StaleOrdersKind) else c.slots), [])
  }

  function CoreStep(c: Core, lookback: bool, e: Event): (Core, seq<Action>) {
    match e
    case SocketDown => (c.(state := Idle), [])
    case LoginAck => Enter(c, lookback, SubscribeAccount)
    case SubscribeAck(ch) =>
      if Acknowledged(ch) == Some(c.state) then Enter(c, lookback, c.state.Next()) else (c, [])
    case SocketTimer(lost) => OnSocketTimer(c, lookback, lost)
    case RestTimer(allowed, known) => OnRestTimer(c, allowed, known)
    case Answer(k) => (c.(slots := Committed(c.slots, k)), [])
    case OrderAnswer => OnOrderAnswer(c)
  }

  // ---------------------------------------------------------------- the world around the core

  /** What can be told apart in the course of one login. */
  datatype Entry = Acked(channel: Channel) | AskedFor(kind: Kind) | Answered(kind: Kind) | WentReady

  /** The fate of one kind of request since it was last asked for. */
  datatype Ledger = Ledger(
    asks: nat,         // how often it has been asked for
    wire: seq<nat>,    // requests on the wire, oldest first, each with the number of the ask it served
    backlog: nat,      // how many were on the wire when it was last asked for
    answers: nat,      // how many answers have come since
    latest: nat)       // the number of the ask the latest answer served

  type Ledgers = PerKind<Ledger>

  datatype System = System(core: Core, ledgers: Ledgers, orders: nat, journal: seq<Entry>, crashed: bool)

  function Asking(l: Ledger): Ledger {
    l.(asks := l.asks + 1, backlog := |l.wire|, answers := 0)
  }

  function Sending(l: Ledger): Ledger {
    l.(wire := l.wire + [l.asks])
  }

  function Answering(l: Ledger): Ledger
    requires l.wire != []
  {
    l.(wire := l.wire[1..], answers := l.answers + 1, latest := l.wire[0])
  }

  function Perform(s: System, a: Action): System {
    match a
    case Subscribe(_) => s
    case Ask(k) => s.(ledgers := s.ledgers.Set(k, Asking(s.ledgers.Get(k))), journal := s.journal + [AskedFor(k)])
    case Query(k) => s.(ledgers := s.ledgers.Set(k, Sending(s.ledgers.Get(k))))
    case QueryOrders(keys) => s.(orders := s.orders + |keys|)
    case PublishReady => s.(journal := s.journal + [WentReady])
    case Fatal => s.(crashed := true)
  }

  function PerformAll(s: System, actions: seq<Action>): System
    decreases |actions|
  {
    if actions == [] then s
    else Perform(PerformAll(s, actions[..|actions| - 1]), actions[|actions| - 1])
  }

  /** Only what is on the wire can be answered, and a crashed process does nothing. */
  predicate Possible(s: System, e: Event) {
    !s.crashed
    && (e.Answer? ==> s.ledgers.Get(e.kind).wire != [])
    && (e.OrderAnswer? ==> s.orders > 0)
  }

  /**
    What the event itself leaves on the wire and in the journal. The stale order round counts as answered
    when OrderEntry commits it, with the answer that brings its counter to zero.
   */
  function Observe(s: System, e: Event): System
    requires Possible(s, e)
  {
    match e
    case LoginAck => s.(journal := [])
    case SubscribeAck(ch) => s.(journal := s.journal + [Acked(ch)])
    case Answer(k) =>
      s.(ledgers := s.ledgers.Set(k, Answering(s.ledgers.Get(k))), journal := s.journal + [Answered(k)])
    case OrderAnswer =>
      var settled := if s.core.counter == 1 then [Answered(StaleOrdersKind)] else [];
      s.(orders := s.orders - 1, journal := s.journal + settled)
    case _ => s
  }

  function Step(s: System, lookback: bool, e: Event): System
    requires Possible(s, e)
  {
    var (core, actions) := CoreStep(s.core, lookback, e);
    PerformAll(Observe(s, e).(core := core), actions)
  }

  function Initial(): System {
    var slot, ledger := Slot(false, false), Ledger(0, [], 0, 0, 0);
    System(Core(Idle, PerKind(slot, slot, slot, slot, slot, slot), {}, 0),
           PerKind(ledger, ledger, ledger, ledger, ledger, ledger), 0, [], false)
  }

  function Run(lookback: bool, events: seq<Event>): System {
    RunFrom(Initial(), lookback, events)
  }

  /** All events in order, those that cannot occur being passed over. */
  function RunFrom(s: System, lookback: bool, events: seq<Event>): System {
    if events == [] then s
    else
      var before := RunFrom(s, lookback, events[..|events| - 1]);
      var e := events[|events| - 1];
      if Possible(before, e) then Step(before, lookback, e) else before
  }
}
