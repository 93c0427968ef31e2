/**
  The objects of the account synchronisation protocol: DropCopy and OrderEntry, and the Request object
  they share. Each handler is proved to do what `AccountSync.CoreStep` says, message by message;
  `Handle`, at the end, puts the two sides together.
 */
module AccountGateway {
  import opened AccountSync

  const SNAPSHOTS: set<Kind> := {AccountKind, BalancesKind, PositionsKind, OpenOrdersKind}

  class Request {
    var slots: Slots
    var detailsStaleOrders: set<Key>

    constructor ()
      ensures slots == Initial().core.slots && detailsStaleOrders == {}
    {
      var slot := Slot(false, false);
      slots := PerKind(slot, slot, slot, slot, slot, slot);
      detailsStaleOrders := {};
    }

    method AskFor(k: Kind)
      modifies this`slots
      ensures slots == Asked(old(slots), k)
    {
      slots := slots.Set(k, Slot(true, false));
    }

    /** Fires once per question, when the rate limiter lets it. */
    method CheckPending(k: Kind, allowed: bool) returns (go: bool)
      modifies this`slots
      ensures go <==> allowed && old(slots).Get(k).pending
      ensures slots == Checked(old(slots), k, allowed)
    {
      go := allowed && slots.Get(k).pending;
      if go {
        slots := slots.Set(k, Slot(false, slots.Get(k).response));
      }
    }

    method Commit(k: Kind)
      modifies this`slots
      ensures slots == Committed(old(slots), k)
    {
      slots := slots.Set(k, Slot(slots.Get(k).pending, true));
    }
  }

  class DropCopy {
    const request: Request
    const lookback: bool
    var download: State

    constructor (request: Request, lookback: bool)
      ensures this.request == request && this.lookback == lookback && download == Idle
    {
      this.request, this.lookback := request, lookback;
      download := Idle;
    }

    /** The part of the core this object sees; the counter is none of its business. */
    ghost function View(): Core
      reads this, request
    {
      Core(download, request.slots, request.detailsStaleOrders, 0)
    }

    /** The callback of the download helper: what a state does, and how many acknowledgements it awaits. */
    method OnDownload(state: State) returns (acks: nat, actions: seq<Action>)
      requires state != Idle
      modifies request`slots
      ensures acks == 0 <==> state == Done || Skipped(old(View()), lookback, state)
      ensures state == Done || acks > 0 ==>
                (View().(state := state), actions) == Enter(old(View()), lookback, state)
      ensures state != Done && acks == 0 ==> request.slots == old(request.slots) && actions == []
    {
      acks, actions := 1, [];
      match state {
        case Idle =>
        case SubscribeAccount => actions := [Subscribe(AccountChannel)];
        case GetAccount =>
          request.AskFor(AccountKind);
          actions := [Ask(AccountKind)];
        case SubscribeBalance => actions := [Subscribe(BalanceChannel)];
        case GetBalances =>
          request.AskFor(BalancesKind);
          actions := [Ask(BalancesKind)];
        case SubscribePositions => actions := [Subscribe(PositionsChannel)];
        case GetPositions =>
          request.AskFor(PositionsKind);
          actions := [Ask(PositionsKind)];
        case SubscribeOrders => actions := [Subscribe(OrdersChannel)];
        case GetOpenOrders =>
          request.AskFor(OpenOrdersKind);
          actions := [Ask(OpenOrdersKind)];
        case GetStaleOrders =>
          if request.detailsStaleOrders == {} {
            acks := 0;
          } else {
            request.AskFor(StaleOrdersKind);
            actions := [Ask(StaleOrdersKind)];
          }
        case GetTrades =>
          if lookback {
            request.AskFor(TradesKind);
            actions := [Ask(TradesKind)];
          } else {
            acks := 0;
          }
        case Done =>
          acks, actions := 0, [PublishReady];
      }
    }

    /** The download helper: state after state until one has something to wait for. */
    method Advance(from: State) returns (actions: seq<Action>)
      requires from != Idle
      modifies this`download, request`slots
      ensures (View(), actions) == Enter(old(View()), lookback, from)
    {
      ghost var c, goal := View(), Enter(View(), lookback, from);
      download := from;
      var acks;
      EnterIgnoresState(c, lookback, from, from);
      acks, actions := OnDownload(download);
      while acks == 0 && download != Done
        invariant download != Idle
        invariant acks == 0 && download != Done ==>
                    Skipped(c, lookback, download) && View() == c.(state := download)
                    && Enter(c, lookback, download) == goal
        invariant acks > 0 || download == Done ==> (View(), actions) == goal
        decreases 11 - download.Rank()
      {
        EnterPasses(c, lookback, download);
        download := download.Next();
        acks, actions := OnDownload(download);
      }
    }

    method LoginReceived() returns (actions: seq<Action>)
      modifies this`download, request`slots
      ensures (View(), actions) == CoreStep(old(View()), lookback, LoginAck)
    {
      actions := Advance(SubscribeAccount);
    }

    /** An acknowledgement counts only in the state that waits for it. */
    method Check(state: State) returns (actions: seq<Action>)
      requires state != Idle
      modifies this`download, request`slots
      ensures (View(), actions) ==
              if old(download) == state then Enter(old(View()), lookback, state.Next()) else (old(View()), [])
    {
      actions := [];
      if download == state {
        actions := Advance(state.Next());
      }
    }

    method SubscribeReceived(channel: Channel) returns (actions: seq<Action>)
      modifies this`download, request`slots
      ensures (View(), actions) == CoreStep(old(View()), lookback, SubscribeAck(channel))
    {
      actions := [];
      match channel {
        case AccountChannel => actions := Check(SubscribeAccount);
        case BalanceChannel => actions := Check(SubscribeBalance);
        case PositionsChannel => actions := Check(SubscribePositions);
        case OrdersChannel => actions := Check(SubscribeOrders);
        case OtherChannel =>
      }
    }

    /** Orders the order management system has lost sight of, visited one by one. */
    method CheckStaleOrders(lost: set<Key>) returns (any: bool)
      modifies request`detailsStaleOrders
      ensures request.detailsStaleOrders == old(request.detailsStaleOrders) + lost
      ensures any <==> !(lost <= old(request.detailsStaleOrders))
    {
      var counter := 0;
      var todo := lost;
      while todo != {}
        invariant todo <= lost
        invariant request.detailsStaleOrders == old(request.detailsStaleOrders) + (lost - todo)
        invariant counter > 0 <==> !(lost - todo <= old(request.detailsStaleOrders))
        decreases |todo|
      {
        var key :| key in todo;
        todo := todo - {key};
        if key !in request.detailsStaleOrders {
          request.detailsStaleOrders := request.detailsStaleOrders + {key};
          counter := counter + 1;
        }
      }
      any := counter > 0;
    }

    method CheckRequestQueue(lost: set<Key>) returns (actions: seq<Action>)
      modifies this`download, request
      ensures (View(), actions) == CoreStep(old(View()), lookback, SocketTimer(lost))
    {
      actions := [];
      var state := download;
      match state {
        case GetAccount =>
          if request.slots.account.response { actions := Check(state); }
        case GetBalances =>
          if request.slots.balances.response { actions := Check(state); }
        case GetPositions =>
          if request.slots.positions.response { actions := Check(state); }
        case GetOpenOrders =>
          if request.slots.openOrders.response {
            var any := CheckStaleOrders(lost);
            actions := Check(state);
          }
        case GetStaleOrders =>
          if request.slots.staleOrders.response {
            if request.detailsStaleOrders != {} {
              return [Fatal];
            }
            actions := Check(state);
          }
        case GetTrades =>
          if request.slots.trades.response { actions := Check(state); }
        case _ =>
      }
    }

    method SocketDisconnected() returns (actions: seq<Action>)
      modifies this`download
      ensures (View(), actions) == CoreStep(old(View()), lookback, SocketDown)
    {
      download := Idle;
      actions := [];
    }
  }

  class OrderEntry {
    const request: Request
    var downloadStaleOrdersCounter: nat

    constructor (request: Request)
      ensures this.request == request && downloadStaleOrdersCounter == 0
    {
      this.request := request;
      downloadStaleOrdersCounter := 0;
    }

    /** The part of the core this object sees; the download state is none of its business. */
    ghost function View(): Core
      reads this, request
    {
      Core(Idle, request.slots, request.detailsStaleOrders, downloadStaleOrdersCounter)
    }

    /** One query per order that is still listed; the set is emptied whatever happens. */
    method DrainStaleOrders(known: set<Key>) returns (queried: set<Key>)
      modifies this`downloadStaleOrdersCounter, request`detailsStaleOrders
      ensures queried == old(request.detailsStaleOrders) * known
      ensures downloadStaleOrdersCounter == old(downloadStaleOrdersCounter) + |queried|
      ensures request.detailsStaleOrders == {}
    {
      queried := {};
      var todo := request.detailsStaleOrders;
      while todo != {}
        invariant todo <= request.detailsStaleOrders == old(request.detailsStaleOrders)
        invariant queried == (request.detailsStaleOrders - todo) * known
        invariant downloadStaleOrdersCounter == old(downloadStaleOrdersCounter) + |queried|
        decreases |todo|
      {
        var key :| key in todo;
        OneLess(request.detailsStaleOrders, todo, known, key);
        todo := todo - {key};
        if key in known {
          downloadStaleOrdersCounter := downloadStaleOrdersCounter + 1;
          queried := queried + {key};
        }
      }
      request.detailsStaleOrders := {};
    }

    /** The snapshots, in order; `known` plays no part in them. */
    method CheckSnapshots(allowed: set<Kind>, ghost known: set<Key>) returns (actions: seq<Action>)
      modifies request`slots
      ensures request.slots ==
              Sent(old(request.slots), Fired(old(request.slots), allowed) * SNAPSHOTS)
      ensures actions == Queries(old(View()), Fired(old(request.slots), allowed), known, 4)
    {
      ghost var c, fired := View(), Fired(request.slots, allowed);
      var a := CheckOne(AccountKind, AccountKind in allowed);
      var b := CheckOne(BalancesKind, BalancesKind in allowed);
      var p := CheckOne(PositionsKind, PositionsKind in allowed);
      var o := CheckOne(OpenOrdersKind, OpenOrdersKind in allowed);
      assert a == Either(AccountKind, fired, Query(AccountKind))
        && b == Either(BalancesKind, fired, Query(BalancesKind));
      assert p == Either(PositionsKind, fired, Query(PositionsKind))
        && o == Either(OpenOrdersKind, fired, Query(OpenOrdersKind));
      actions := a + b + p + o;
      CheckedFour(c.slots, allowed);
      QueriesFour(c, fired, known);
    }

    method CheckOne(k: Kind, allowed: bool) returns (actions: seq<Action>)
      modifies request`slots
      ensures var go := allowed && old(request.slots).Get(k).pending;
        actions == (if go then [Query(k)] else [])
        && request.slots == Checked(old(request.slots), k, allowed)
    {
      actions := [];
      var go := request.CheckPending(k, allowed);
      if go {
        actions := [Query(k)];
      }
    }

    method CheckRequestQueue(allowed: set<Kind>, known: set<Key>) returns (actions: seq<Action>)
      modifies this`downloadStaleOrdersCounter, request
      ensures (View(), actions) == OnRestTimer(old(View()), allowed, known)
    {
      ghost var c, fired := View(), Fired(request.slots, allowed);
      actions := CheckSnapshots(allowed, known);
      ghost var snapshots := actions;
      var go := request.CheckPending(StaleOrdersKind, StaleOrdersKind in allowed);
      assert go <==> StaleOrdersKind in fired;
      if go {
        var queried := DrainStaleOrders(known);
        actions := actions + [QueryOrders(queried)];
      }
      assert actions == snapshots + Either(StaleOrdersKind, fired, QueryOrders(c.stale * known));
      ghost var five := actions;
      go := request.CheckPending(TradesKind, TradesKind in allowed);
      assert go <==> TradesKind in fired;
      if go { actions := actions + [Query(TradesKind)]; }
      assert actions == five + Either(TradesKind, fired, Query(TradesKind));
      QueriesAll(c, fired, known, snapshots);
      assert request.slots == Sent(c.slots, fired);
    }

    method AnswerReceived(k: Kind) returns (actions: seq<Action>)
      modifies request`slots
      ensures (View(), actions) == CoreStep(old(View()), false, Answer(k))
    {
      request.Commit(k);
      actions := [];
    }

    method TradeOrderAnswered() returns (actions: seq<Action>)
      modifies this`downloadStaleOrdersCounter, request`slots
      ensures (View(), actions) == OnOrderAnswer(old(View()))
    {
      actions := [];
      if downloadStaleOrdersCounter != 0 {
        downloadStaleOrdersCounter := downloadStaleOrdersCounter - 1;
      } else {
        return [Fatal];
      }
      if downloadStaleOrdersCounter == 0 {
        request.Commit(StaleOrdersKind);
      }
    }
  }

  /** What firing one kind of request leaves. */
  function Checked(slots: Slots, k: Kind, allowed: bool): Slots {
    if allowed && slots.Get(k).pending then slots.Set(k, Slot(false, slots.Get(k).response)) else slots
  }

  lemma CheckedFour(slots: Slots, allowed: set<Kind>)
    ensures
      var a := Checked(slots, AccountKind, AccountKind in allowed);
      var b := Checked(a, BalancesKind, BalancesKind in allowed);
      var p := Checked(b, PositionsKind, PositionsKind in allowed);
      var o := Checked(p, OpenOrdersKind, OpenOrdersKind in allowed);
      o == Sent(slots, Fired(slots, allowed) * SNAPSHOTS)
      && a.balances == slots.balances && b.positions == slots.positions && p.openOrders == slots.openOrders
  {
  }

  /** One key moves from those to do to those done. */
  lemma OneLess(all: set<Key>, todo: set<Key>, known: set<Key>, key: Key)
    requires key in todo && todo <= all
    ensures (all - (todo - {key})) * known == (all - todo) * known + (if key in known then {key} else {})
    ensures key !in (all - todo) * known
  {
  }

  lemma QueriesNext(c: Core, fired: set<Kind>, known: set<Key>, n: nat, k: Kind)
    requires n < 6 && k == KindAt(n)
    ensures Queries(c, fired, known, n + 1) == Queries(c, fired, known, n) + Either(k, fired, QueryFor(c, known, k))
  {
  }

  /** The snapshots, one after the other. */
  lemma QueriesFour(c: Core, fired: set<Kind>, known: set<Key>)
    ensures Queries(c, fired, known, 4) ==
            Either(AccountKind, fired, Query(AccountKind)) + Either(BalancesKind, fired, Query(BalancesKind))
            + Either(PositionsKind, fired, Query(PositionsKind)) + Either(OpenOrdersKind, fired, Query(OpenOrdersKind))
  {
    QueriesNext(c, fired, known, 0, AccountKind);
    QueriesNext(c, fired, known, 1, BalancesKind);
    QueriesNext(c, fired, known, 2, PositionsKind);
    QueriesNext(c, fired, known, 3, OpenOrdersKind);
    Chain(
      Queries(c, fired, known, 1), Queries(c, fired, known, 2),
      Queries(c, fired, known, 3), Queries(c, fired, known, 4),
      Either(AccountKind, fired, Query(AccountKind)), Either(BalancesKind, fired, Query(BalancesKind)),
      Either(PositionsKind, fired, Query(PositionsKind)), Either(OpenOrdersKind, fired, Query(OpenOrdersKind)));
  }

  lemma Chain(
    one: seq<Action>, two: seq<Action>, three: seq<Action>, four: seq<Action>,
    a: seq<Action>, b: seq<Action>, c: seq<Action>, d: seq<Action>)
    requires one == [] + a && two == one + b && three == two + c && four == three + d
    ensures four == a + b + c + d
  {
    assert [] + a == a;
  }

  /** And the rest. */
  lemma QueriesAll(c: Core, fired: set<Kind>, known: set<Key>, snapshots: seq<Action>)
    requires snapshots == Queries(c, fired, known, 4)
    ensures Queries(c, fired, known, 6) ==
            snapshots + Either(StaleOrdersKind, fired, QueryOrders(c.stale * known))
              + Either(TradesKind, fired, Query(TradesKind))
  {
    QueriesNext(c, fired, known, 4, StaleOrdersKind);
    QueriesNext(c, fired, known, 5, TradesKind);
  }

  lemma {:induction false} EnterIgnoresState(c: Core, lookback: bool, s: State, other: State)
    requires s != Idle
    ensures Enter(c.(state := other), lookback, s) == Enter(c, lookback, s)
    decreases 11 - s.Rank()
  {
    if Skipped(c, lookback, s) && s != Done {
      EnterIgnoresState(c, lookback, s.Next(), other);
    }
  }

  /** Passing over a state that has nothing to do. */
  lemma EnterPasses(c: Core, lookback: bool, s: State)
    requires s != Idle && Skipped(c, lookback, s)
    ensures Enter(c.(state := s.Next()), lookback, s.Next()) == Enter(c, lookback, s)
    ensures Enter(c, lookback, s.Next()) == Enter(c, lookback, s)
  {
    EnterIgnoresState(c, lookback, s.Next(), s.Next());
  }

  // ---------------------------------------------------------------- the two sides together

  lemma {:induction false} EnterIgnoresCounter(c: Core, lookback: bool, s: State, n: nat)
    requires s != Idle
    ensures Enter(c.(counter := n), lookback, s) ==
            (Enter(c, lookback, s).0.(counter := n), Enter(c, lookback, s).1)
    decreases 11 - s.Rank()
  {
    if Skipped(c, lookback, s) && s != Done {
      EnterIgnoresCounter(c, lookback, s.Next(), n);
    }
  }

  /** What DropCopy does to its part is what the core does to the whole. */
  lemma SocketSideIsCore(c: Core, lookback: bool, e: Event)
    requires e.SocketDown? || e.LoginAck? || e.SubscribeAck? || e.SocketTimer?
    ensures var (d, actions) := CoreStep(c.(counter := 0), lookback, e);
      CoreStep(c, lookback, e) == (d.(counter := c.counter), actions)
  {
    var z := c.(counter := 0);
    EnterIgnoresCounter(z, lookback, SubscribeAccount, c.counter);
    if c.state.Next() != Idle {
      EnterIgnoresCounter(z, lookback, c.state.Next(), c.counter);
      match e {
        case SocketTimer(lost) => EnterIgnoresCounter(z.(stale := z.stale + lost), lookback, c.state.Next(), c.counter);
        case _ =>
      }
    }
  }

  lemma {:induction false} QueriesIgnoreState(c: Core, fired: set<Kind>, known: set<Key>, n: nat)
    requires n <= 6
    ensures Queries(c.(state := Idle), fired, known, n) == Queries(c, fired, known, n)
  {
    if n > 0 {
      QueriesIgnoreState(c, fired, known, n - 1);
    }
  }

  /** What OrderEntry does to its part is what the core does to the whole. */
  lemma RestSideIsCore(c: Core, lookback: bool, e: Event)
    requires e.RestTimer? || e.Answer? || e.OrderAnswer?
    ensures var (d, actions) := CoreStep(c.(state := Idle), lookback, e);
      CoreStep(c, lookback, e) == (d.(state := c.state), actions)
  {
    match e {
      case RestTimer(allowed, known) =>
        QueriesIgnoreState(c, Fired(c.slots, allowed), known, 6);
      case _ =>
    }
  }

  /** The state of an account: what DropCopy, OrderEntry and their Request hold between them. */
  ghost function Joint(d: DropCopy, o: OrderEntry): Core
    reads d, o, d.request
  {
    Core(d.download, d.request.slots, d.request.detailsStaleOrders, o.downloadStaleOrdersCounter)
  }

  /** Whatever event reaches the two objects, together they take the step of the core and emit its actions. */
  method Handle(d: DropCopy, o: OrderEntry, e: Event) returns (actions: seq<Action>)
    requires d.request == o.request
    modifies d, o, d.request
    ensures (Joint(d, o), actions) == CoreStep(old(Joint(d, o)), d.lookback, e)
  {
    if e.RestTimer? || e.Answer? || e.OrderAnswer? {
      RestSideIsCore(Joint(d, o), d.lookback, e);
    } else {
      SocketSideIsCore(Joint(d, o), d.lookback, e);
    }
    match e {
      case SocketDown => actions := d.SocketDisconnected();
      case LoginAck => actions := d.LoginReceived();
      case SubscribeAck(ch) => actions := d.SubscribeReceived(ch);
      case SocketTimer(lost) => actions := d.CheckRequestQueue(lost);
      case RestTimer(allowed, known) => actions := o.CheckRequestQueue(allowed, known);
      case Answer(k) => actions := o.AnswerReceived(k);
      case OrderAnswer => actions := o.TradeOrderAnswered();
    }
  }
}
