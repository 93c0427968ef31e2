/**
  Which question an accepted answer belongs to, in the account synchronisation protocol; and what it takes
  for one state of the protocol to lead to another.
 */
module AccountLedger {
  import opened Wrappers
  import opened AccountSync
  import opened AccountRuns

  // ---------------------------------------------------------------- ledgers

  /**
    First come first served: what was on the wire when the kind was last asked for is answered before
    anything sent since, and the latest answer belongs to the last ask if and only if more answers have
    come than were outstanding. Every question is sent once: nothing before it leaves, one request after.
   */
  predicate LedgerOk(l: Ledger, slot: Slot) {
    (forall i :: 0 <= i < |l.wire| ==>
       if i < l.backlog - l.answers then l.wire[i] < l.asks else l.wire[i] == l.asks)
    && (l.answers < l.backlog ==> l.backlog - l.answers <= |l.wire|)
    && (slot.response ==> l.answers > 0)
    && |l.wire| + l.answers == l.backlog + SentOnce(l, slot)
    && (l.answers > 0 ==> (l.latest == l.asks <==> l.answers > l.backlog))
  }

  /** How many requests the latest question has sent. */
  function SentOnce(l: Ledger, slot: Slot): nat {
    if l.asks == 0 || slot.pending then 0 else 1
  }

  predicate LedgersOk(s: System) {
    forall k: Kind :: k != StaleOrdersKind ==>
      LedgerOk(s.ledgers.Get(k), s.core.slots.Get(k))
      && (s.core.slots.Get(k).pending ==> s.ledgers.Get(k).asks > 0)
  }

  lemma EnterLedgers(s: System, lookback: bool, st: State)
    requires st != Idle && LedgersOk(s)
    ensures LedgersOk(After(s, lookback, st))
  {
    var t := After(s, lookback, st);
    forall k: Kind | k != StaleOrdersKind
      ensures LedgerOk(t.ledgers.Get(k), t.core.slots.Get(k))
              && (t.core.slots.Get(k).pending ==> t.ledgers.Get(k).asks > 0)
    {
      assert LedgerOk(s.ledgers.Get(k), s.core.slots.Get(k));
      EnterTouchesOne(s, lookback, st, k);
    }
  }

  lemma SendingOk(l: Ledger, slot: Slot)
    requires LedgerOk(l, slot) && slot.pending && l.asks > 0
    ensures LedgerOk(Sending(l), Slot(false, slot.response))
  {
  }

  lemma AnsweringOk(l: Ledger, slot: Slot)
    requires LedgerOk(l, slot) && l.wire != []
    ensures LedgerOk(Answering(l), Slot(slot.pending, true))
  {
  }

  lemma StepKeepsLedgers(s: System, lookback: bool, e: Event)
    requires Possible(s, e) && LedgersOk(s)
    ensures LedgersOk(Step(s, lookback, e))
  {
    match e {
      case SocketDown => SocketDownIs(s, lookback);
      case RestTimer(allowed, known) => RestTimerLedgers(s, lookback, allowed, known);
      case Answer(k) => AnswerLedgers(s, lookback, k);
      case OrderAnswer => OrderAnswerLedgers(s, lookback);
      case _ =>
        SocketStepIs(s, lookback, e);
        if Entering(s, e).Some? {
          EnterLedgers(Entering(s, e).value.0, lookback, Entering(s, e).value.1);
        }
    }
  }

  lemma RestTimerLedgers(s: System, lookback: bool, allowed: set<Kind>, known: set<Key>)
    requires !s.crashed && LedgersOk(s)
    ensures LedgersOk(Step(s, lookback, RestTimer(allowed, known)))
  {
    var t := Step(s, lookback, RestTimer(allowed, known));
    RestTimerEffect(s, lookback, allowed, known);
    forall k: Kind | k != StaleOrdersKind ensures LedgerOk(t.ledgers.Get(k), t.core.slots.Get(k)) {
      if k in Fired(s.core.slots, allowed) {
        SendingOk(s.ledgers.Get(k), s.core.slots.Get(k));
      }
    }
  }

  lemma AnswerLedgers(s: System, lookback: bool, k: Kind)
    requires Possible(s, Answer(k)) && LedgersOk(s)
    ensures LedgersOk(Step(s, lookback, Answer(k)))
  {
    var t := Step(s, lookback, Answer(k));
    AnswerIs(s, lookback, k);
    forall j: Kind | j != StaleOrdersKind ensures LedgerOk(t.ledgers.Get(j), t.core.slots.Get(j)) {
      assert LedgerOk(s.ledgers.Get(j), s.core.slots.Get(j));
      SetChangesOne(s.ledgers, k, Answering(s.ledgers.Get(k)), j);
      SetChangesOne(s.core.slots, k, Slot(s.core.slots.Get(k).pending, true), j);
      if j == k {
        AnsweringOk(s.ledgers.Get(k), s.core.slots.Get(k));
      }
    }
  }

  lemma OrderAnswerLedgers(s: System, lookback: bool)
    requires Possible(s, OrderAnswer) && LedgersOk(s)
    ensures LedgersOk(Step(s, lookback, OrderAnswer))
  {
  }

  lemma {:induction false} RunKeepsLedgers(lookback: bool, events: seq<Event>)
    ensures LedgersOk(Run(lookback, events))
    decreases |events|
  {
    if events != [] {
      var before := events[..|events| - 1];
      RunKeepsLedgers(lookback, before);
      if Possible(Run(lookback, before), events[|events| - 1]) {
        StepKeepsLedgers(Run(lookback, before), lookback, events[|events| - 1]);
      }
    }
  }

  /**
    In every run a question goes out once: of the requests of its kind on the wire and the answers that have
    come since it was asked, all but one, or all if it has not left yet, were owed to earlier questions.
   */
  lemma QuestionIsSentOnce(lookback: bool, events: seq<Event>, k: Kind)
    requires k != StaleOrdersKind && Run(lookback, events).ledgers.Get(k).asks > 0
    ensures var s := Run(lookback, events);
      var l := s.ledgers.Get(k);
      |l.wire| + l.answers == l.backlog + if s.core.slots.Get(k).pending then 0 else 1
  {
    RunKeepsLedgers(lookback, events);
    assert LedgerOk(Run(lookback, events).ledgers.Get(k), Run(lookback, events).core.slots.Get(k));
  }

  /**
    When a snapshot state is about to be left, the answer it leaves with belongs to the question asked on
    entering it if and only if more answers have come since than requests of that kind were then on the
    wire; with nothing on the wire at that moment, always.
   */
  lemma AnswerIsFreshIff(lookback: bool, events: seq<Event>, k: Kind)
    requires Awaited(Run(lookback, events).core.state) == Some(k) && k != StaleOrdersKind
    requires Run(lookback, events).core.slots.Get(k).response
    ensures var l := Run(lookback, events).ledgers.Get(k);
      (l.latest == l.asks <==> l.answers > l.backlog) && (l.backlog == 0 ==> l.latest == l.asks)
  {
    RunKeepsLedgers(lookback, events);
    assert LedgerOk(Run(lookback, events).ledgers.Get(k), Run(lookback, events).core.slots.Get(k));
  }

  // ---------------------------------------------------------------- a login that finds nothing outstanding

  /** Nothing waits to be sent and nothing is on the wire. */
  predicate Settled(s: System, k: Kind) {
    !s.core.slots.Get(k).pending && s.ledgers.Get(k).wire == []
  }

  /** The snapshots a login may wait for. */
  predicate InPlay(k: Kind, lookback: bool) {
    k != StaleOrdersKind && (k == TradesKind ==> lookback)
  }

  /** The state that waits for a kind of request. */
  function Home(k: Kind): State {
    match k
    case AccountKind => GetAccount
    case BalancesKind => GetBalances
    case PositionsKind => GetPositions
    case OpenOrdersKind => GetOpenOrders
    case StaleOrdersKind => GetStaleOrders
    case TradesKind => GetTrades
  }

  predicate InOneLogin(events: seq<Event>) {
    forall i :: 0 <= i < |events| ==> events[i] != SocketDown && events[i] != LoginAck
  }

  /** Kinds whose turn is still to come are settled; the others were when their turn came. */
  predicate Orderly(s: System, lookback: bool) {
    s.core.state != Idle && TradesWanted(s, lookback)
    && forall k: Kind :: InPlay(k, lookback) ==>
         (s.core.state.Rank() < Home(k).Rank() ==> Settled(s, k))
         && (s.core.state == Home(k) ==> s.ledgers.Get(k).backlog == 0)
  }

  lemma EnterOrderly(s: System, lookback: bool, st: State)
    requires st != Idle
    requires forall k: Kind :: InPlay(k, lookback) && st.Rank() <= Home(k).Rank() ==> Settled(s, k)
    ensures Orderly(After(s, lookback, st), lookback)
  {
    var core := Enter(s.core, lookback, st).0;
    var t := After(s, lookback, st);
    EnterEmitsOne(s.core, lookback, st);
    forall k: Kind | InPlay(k, lookback)
      ensures t.core.state.Rank() < Home(k).Rank() ==> Settled(t, k)
      ensures t.core.state == Home(k) ==> t.ledgers.Get(k).backlog == 0
    {
      EnterTouchesOne(s, lookback, st, k);
      HomeAwaits(core.state, k);
    }
    EnterAsks(s, lookback, st);
  }

  lemma HomeAwaits(s: State, k: Kind)
    ensures Awaited(s) == Some(k) <==> s == Home(k)
  {
  }

  lemma EnterTouchesOne(s: System, lookback: bool, st: State, k: Kind)
    requires st != Idle
    ensures var core, t := Enter(s.core, lookback, st).0, After(s, lookback, st);
      t.core == core && core.state.Rank() >= st.Rank()
      && (if Awaited(core.state) == Some(k) then
            t.ledgers.Get(k) == Asking(s.ledgers.Get(k)) && core.slots.Get(k) == Slot(true, false)
          else
            t.ledgers.Get(k) == s.ledgers.Get(k) && core.slots.Get(k) == s.core.slots.Get(k))
  {
    EnterAsks(s, lookback, st);
    match Awaited(Enter(s.core, lookback, st).0.state) {
      case Some(j) => SetChangesOne(s.ledgers, j, Asking(s.ledgers.Get(j)), k);
                      SetChangesOne(s.core.slots, j, Slot(true, false), k);
      case None =>
    }
  }

  lemma SetChangesOne<T>(p: PerKind<T>, j: Kind, v: T, k: Kind)
    ensures p.Set(j, v).Get(k) == if k == j then v else p.Get(k)
  {
  }

  lemma EnterAsks(s: System, lookback: bool, st: State)
    requires st != Idle
    ensures var core, t := Enter(s.core, lookback, st).0, After(s, lookback, st);
      t.core == core && core.state.Rank() >= st.Rank()
      && match Awaited(core.state)
         case Some(j) =>
           t.ledgers == s.ledgers.Set(j, Asking(s.ledgers.Get(j)))
             && core.slots == s.core.slots.Set(j, Slot(true, false))
         case None => t.ledgers == s.ledgers && core.slots == s.core.slots
  {
    EnterEmitsOne(s.core, lookback, st);
    AfterPerforms(s, lookback, st);
  }

  lemma StepKeepsOrderly(s: System, lookback: bool, e: Event)
    requires Possible(s, e) && Orderly(s, lookback) && e != SocketDown && e != LoginAck
    ensures Orderly(Step(s, lookback, e), lookback)
  {
    match e {
      case RestTimer(allowed, known) => RestTimerOrderly(s, lookback, allowed, known);
      case Answer(k) => AnswerOrderly(s, lookback, k);
      case OrderAnswer => OrderAnswerOrderly(s, lookback);
      case SubscribeAck(_) => SocketOrderly(s, lookback, e);
      case SocketTimer(_) => SocketOrderly(s, lookback, e);
    }
  }

  lemma SocketOrderly(s: System, lookback: bool, e: Event)
    requires Possible(s, e) && Orderly(s, lookback) && (e.SubscribeAck? || e.SocketTimer?)
    ensures Orderly(Step(s, lookback, e), lookback)
  {
    SocketStepIs(s, lookback, e);
    if Entering(s, e).Some? {
      var (b, st) := Entering(s, e).value;
      EnteringFrom(s, e);
      EnteringNext(s, e);
      forall k: Kind | InPlay(k, lookback) && st.Rank() <= Home(k).Rank() ensures Settled(b, k) {
        assert Settled(s, k);
      }
      EnterOrderly(b, lookback, st);
    }
  }

  lemma EnteringNext(s: System, e: Event)
    requires (e.SubscribeAck? || e.SocketTimer?) && Entering(s, e).Some?
    ensures Entering(s, e).value.1 == s.core.state.Next() && s.core.state.Rank() < s.core.state.Next().Rank()
  {
  }

  lemma AnswerOrderly(s: System, lookback: bool, k: Kind)
    requires Possible(s, Answer(k)) && Orderly(s, lookback)
    ensures Orderly(Step(s, lookback, Answer(k)), lookback)
  {
    AnswerIs(s, lookback, k);
  }

  lemma OrderAnswerOrderly(s: System, lookback: bool)
    requires Possible(s, OrderAnswer) && Orderly(s, lookback)
    ensures Orderly(Step(s, lookback, OrderAnswer), lookback)
  {
  }

  lemma RestTimerOrderly(s: System, lookback: bool, allowed: set<Kind>, known: set<Key>)
    requires Orderly(s, lookback) && !s.crashed
    ensures Orderly(Step(s, lookback, RestTimer(allowed, known)), lookback)
  {
    RestTimerEffect(s, lookback, allowed, known);
  }

  lemma {:induction false} OneLoginKeepsOrderly(s: System, lookback: bool, events: seq<Event>)
    requires Orderly(s, lookback) && InOneLogin(events) && LedgersOk(s)
    ensures Orderly(RunFrom(s, lookback, events), lookback) && LedgersOk(RunFrom(s, lookback, events))
    decreases |events|
  {
    if events != [] {
      var before := events[..|events| - 1];
      OneLoginKeepsOrderly(s, lookback, before);
      if Possible(RunFrom(s, lookback, before), events[|events| - 1]) {
        StepKeepsOrderly(RunFrom(s, lookback, before), lookback, events[|events| - 1]);
        StepKeepsLedgers(RunFrom(s, lookback, before), lookback, events[|events| - 1]);
      }
    }
  }

  lemma LoginIsOrderly(s: System, lookback: bool)
    requires !s.crashed && forall j: Kind :: InPlay(j, lookback) ==> Settled(s, j)
    ensures Orderly(Step(s, lookback, LoginAck), lookback)
  {
    var t := s.(journal := []);
    forall k: Kind | InPlay(k, lookback) ensures Settled(t, k) {
      assert Settled(s, k);
    }
    SocketStepIs(s, lookback, LoginAck);
    EnterOrderly(t, lookback, SubscribeAccount);
  }

  /** If a login finds nothing outstanding, every snapshot accepted in it answers a question of that login. */
  lemma SettledLoginIsFresh(lookback: bool, history: seq<Event>, events: seq<Event>, k: Kind)
    requires var s := Run(lookback, history);
      !s.crashed && (forall j: Kind :: InPlay(j, lookback) ==> Settled(s, j))
    requires InOneLogin(events) && k != StaleOrdersKind
    ensures var t := RunFrom(Step(Run(lookback, history), lookback, LoginAck), lookback, events);
      Awaited(t.core.state) == Some(k) && t.core.slots.Get(k).response ==>
        t.ledgers.Get(k).latest == t.ledgers.Get(k).asks
  {
    var s := Run(lookback, history);
    RunKeepsLedgers(lookback, history);
    LoginIsOrderly(s, lookback);
    StepKeepsLedgers(s, lookback, LoginAck);
    OneLoginIsFresh(Step(s, lookback, LoginAck), lookback, events, k);
  }

  lemma OneLoginIsFresh(s: System, lookback: bool, events: seq<Event>, k: Kind)
    requires Orderly(s, lookback) && LedgersOk(s) && InOneLogin(events) && k != StaleOrdersKind
    ensures var t := RunFrom(s, lookback, events);
      Awaited(t.core.state) == Some(k) && t.core.slots.Get(k).response ==>
        t.ledgers.Get(k).latest == t.ledgers.Get(k).asks
  {
    OneLoginKeepsOrderly(s, lookback, events);
    var t := RunFrom(s, lookback, events);
    if Awaited(t.core.state) == Some(k) {
      assert Home(k) == t.core.state;
      assert LedgerOk(t.ledgers.Get(k), t.core.slots.Get(k));
    }
  }

  // ---------------------------------------------------------------- what can be reached

  lemma {:induction false} RunConcat(s: System, lookback: bool, a: seq<Event>, b: seq<Event>)
    ensures RunFrom(s, lookback, a + b) == RunFrom(RunFrom(s, lookback, a), lookback, b)
    decreases |b|
  {
    if b == [] {
      assert a + b == a;
    } else {
      var n := |b| - 1;
      RunConcat(s, lookback, a, b[..n]);
      assert (a + b)[..|a + b| - 1] == a + b[..n] && (a + b)[|a + b| - 1] == b[n];
    }
  }

  /** Some run leads from one state to the other; without a new login, if so wanted. */
  ghost predicate Leads(s: System, lookback: bool, t: System, oneLogin: bool) {
    exists events: seq<Event> :: (oneLogin ==> InOneLogin(events)) && RunFrom(s, lookback, events) == t
  }

  lemma LeadsSelf(s: System, lookback: bool)
    ensures Leads(s, lookback, s, true)
  {
    assert RunFrom(s, lookback, []) == s;
  }

  lemma LeadsByStep(s: System, lookback: bool, e: Event, oneLogin: bool)
    requires Possible(s, e) && (oneLogin ==> e != SocketDown && e != LoginAck)
    ensures Leads(s, lookback, Step(s, lookback, e), oneLogin)
  {
    assert [e][..0] == [];
    assert RunFrom(s, lookback, []) == s;
    assert RunFrom(s, lookback, [e]) == Step(s, lookback, e);
  }

  lemma LeadsOn(s: System, lookback: bool, t: System, u: System, oneLogin: bool)
    requires Leads(s, lookback, t, oneLogin) && Leads(t, lookback, u, oneLogin)
    ensures Leads(s, lookback, u, oneLogin)
  {
    var a: seq<Event> :| (oneLogin ==> InOneLogin(a)) && RunFrom(s, lookback, a) == t;
    var b: seq<Event> :| (oneLogin ==> InOneLogin(b)) && RunFrom(t, lookback, b) == u;
    RunConcat(s, lookback, a, b);
    assert oneLogin ==> InOneLogin(a + b);
  }

  /** One more step of a path. */
  lemma LeadsFurther(s: System, lookback: bool, t: System, e: Event, oneLogin: bool)
    requires Leads(s, lookback, t, oneLogin) && Possible(t, e) && (oneLogin ==> e != SocketDown && e != LoginAck)
    ensures Leads(s, lookback, Step(t, lookback, e), oneLogin)
  {
    LeadsByStep(t, lookback, e, oneLogin);
    LeadsOn(s, lookback, t, Step(t, lookback, e), oneLogin);
  }

  /** A kind of request nothing has happened to. */
  predicate Kept(s: System, t: System, k: Kind) {
    t.ledgers.Get(k) == s.ledgers.Get(k) && t.core.slots.Get(k) == s.core.slots.Get(k)
  }

  /** A kind of request that has just been asked for. */
  predicate JustAsked(s: System, t: System, k: Kind) {
    t.ledgers.Get(k) == Asking(s.ledgers.Get(k)) && t.core.slots.Get(k) == Slot(true, false)
  }

  lemma LeadsAnyway(s: System, lookback: bool, t: System)
    requires Leads(s, lookback, t, true)
    ensures Leads(s, lookback, t, false)
  {
  }

  lemma FirstLogin(s: System) returns (t: System)
    requires !s.crashed && s.core.state == Idle && s.ledgers.account == Ledger(0, [], 0, 0, 0)
    ensures Leads(s, false, t, false)
    ensures !t.crashed && t.core.state == Idle && t.ledgers.account == Ledger(1, [1], 0, 0, 0)
  {
    var a := Step(s, false, LoginAck);
    assert a.core.state == SubscribeAccount && a.ledgers == s.ledgers && !a.crashed;
    var b := Step(a, false, SubscribeAck(AccountChannel));
    assert b.core.state == GetAccount && b.core.slots.account == Slot(true, false) && !b.crashed;
    assert b.ledgers.account == Ledger(1, [], 0, 0, 0);
    var c := Step(b, false, RestTimer({AccountKind}, {}));
    assert c.ledgers.account == Ledger(1, [1], 0, 0, 0) && !c.crashed by {
      RestTimerEffect(b, false, {AccountKind}, {});
      assert AccountKind in Fired(b.core.slots, {AccountKind});
      assert c.ledgers.Get(AccountKind) == Sending(b.ledgers.Get(AccountKind));
    }
    t := Step(c, false, SocketDown);
    assert t == c.(core := c.core.(state := Idle));
    LeadsByStep(s, false, LoginAck, false);
    LeadsFurther(s, false, a, SubscribeAck(AccountChannel), false);
    LeadsFurther(s, false, b, RestTimer({AccountKind}, {}), false);
    LeadsFurther(s, false, c, SocketDown, false);
  }

  lemma SecondLogin(s: System) returns (t: System)
    requires !s.crashed && s.core.state == Idle && s.ledgers.account == Ledger(1, [1], 0, 0, 0)
    ensures Leads(s, false, t, false)
    ensures PassedOnStaleAnswer(t)
  {
    var b := AskedAgain(s);
    var c := Step(b, false, Answer(AccountKind));
    assert c.core.state == GetAccount && c.core.slots.account == Slot(true, true) && !c.crashed;
    assert c.ledgers.account == Ledger(2, [], 1, 1, 1);
    t := Step(c, false, SocketTimer({}));
    LeadsFurther(s, false, b, Answer(AccountKind), false);
    LeadsFurther(s, false, c, SocketTimer({}), false);
  }

  lemma AskedAgain(s: System) returns (t: System)
    requires !s.crashed && s.core.state == Idle && s.ledgers.account == Ledger(1, [1], 0, 0, 0)
    ensures Leads(s, false, t, false)
    ensures t.core.state == GetAccount && t.core.slots.account == Slot(true, false) && !t.crashed
    ensures t.ledgers.account == Ledger(2, [1], 1, 0, 0)
  {
    var a := Step(s, false, LoginAck);
    assert a.core.state == SubscribeAccount && a.ledgers == s.ledgers && !a.crashed;
    t := Step(a, false, SubscribeAck(AccountChannel));
    LeadsByStep(s, false, LoginAck, false);
    LeadsFurther(s, false, a, SubscribeAck(AccountChannel), false);
  }

  predicate PassedOnStaleAnswer(s: System) {
    s.core.state == SubscribeBalance && s.ledgers.account.latest < s.ledgers.account.asks
      && s.core.slots.account.pending
  }

  /**
    The condition matters: here the socket is lost with the account question on the wire, and after the
    second login the old answer lets the download go on, the second question not even sent.
   */
  lemma StaleAnswerAccepted()
    ensures exists events: seq<Event> :: PassedOnStaleAnswer(Run(false, events))
  {
    var s := FirstLogin(Initial());
    var t := SecondLogin(s);
    LeadsOn(Initial(), false, s, t, false);
    var events: seq<Event> :| RunFrom(Initial(), false, events) == t;
    assert PassedOnStaleAnswer(Run(false, events));
  }
}
