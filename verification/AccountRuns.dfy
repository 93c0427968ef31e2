/** What all runs of the account synchronisation protocol keep. */
module AccountRuns {
  import opened Wrappers
  import opened AccountSync

  // ---------------------------------------------------------------- the effect of a list of queries

  /** The effect on one kind of request, `j`, and on everything that is not a ledger. */
  lemma {:induction false} QueriesPerformed(s: System, c: Core, fired: set<Kind>, known: set<Key>, n: nat, j: Kind)
    requires n <= 6
    ensures var t := PerformAll(s, Queries(c, fired, known, n));
      t.core == s.core && t.journal == s.journal && t.crashed == s.crashed
      && t.orders == s.orders + (if StaleOrdersKind in fired && Turn(StaleOrdersKind) < n then |c.stale * known| else 0)
      && t.ledgers.Get(j) ==
           if j in fired && Turn(j) < n && j != StaleOrdersKind then Sending(s.ledgers.Get(j)) else s.ledgers.Get(j)
  {
    if n > 0 {
      var k := KindAt(n - 1);
      QueriesPerformed(s, c, fired, known, n - 1, j);
      TurnsDiffer(k, j);
      TurnsDiffer(k, StaleOrdersKind);
      PerformEither(s, Queries(c, fired, known, n - 1), k, fired, c, known, j);
    }
  }

  lemma TurnsDiffer(k: Kind, j: Kind)
    ensures Turn(k) == Turn(j) <==> k == j
    ensures Turn(k) < 6
  {
  }

  lemma PerformEither(
    s: System, first: seq<Action>, k: Kind, fired: set<Kind>, c: Core, known: set<Key>, j: Kind)
    ensures var t, u := PerformAll(s, first), PerformAll(s, first + Either(k, fired, QueryFor(c, known, k)));
      u.core == t.core && u.journal == t.journal && u.crashed == t.crashed
      && u.orders == t.orders + (if k in fired && k == StaleOrdersKind then |c.stale * known| else 0)
      && u.ledgers.Get(j) ==
           if k in fired && k == j && j != StaleOrdersKind then Sending(t.ledgers.Get(j)) else t.ledgers.Get(j)
  {
    if k in fired {
      PerformLast(s, first, QueryFor(c, known, k));
    } else {
      assert first + [] == first;
    }
  }

  lemma PerformLast(s: System, first: seq<Action>, a: Action)
    ensures PerformAll(s, first + [a]) == Perform(PerformAll(s, first), a)
  {
    assert (first + [a])[..|first|] == first;
  }

  lemma RestTimerEffect(s: System, lookback: bool, allowed: set<Kind>, known: set<Key>)
    requires !s.crashed
    ensures var t := Step(s, lookback, RestTimer(allowed, known));
      var fired := Fired(s.core.slots, allowed);
      t.core == OnRestTimer(s.core, allowed, known).0
      && t.journal == s.journal && !t.crashed
      && t.orders == s.orders + (if StaleOrdersKind in fired then |s.core.stale * known| else 0)
      && forall k :: t.ledgers.Get(k) ==
           if k in fired && k != StaleOrdersKind then Sending(s.ledgers.Get(k)) else s.ledgers.Get(k)
  {
    var fired := Fired(s.core.slots, allowed);
    var core := OnRestTimer(s.core, allowed, known).0;
    forall j: Kind
      ensures var t := PerformAll(s.(core := core), Queries(s.core, fired, known, 6));
        t.core == core && t.journal == s.journal && t.crashed == s.crashed
        && t.orders == s.orders + (if StaleOrdersKind in fired then |s.core.stale * known| else 0)
        && t.ledgers.Get(j) ==
             if j in fired && j != StaleOrdersKind then Sending(s.ledgers.Get(j)) else s.ledgers.Get(j)
    {
      QueriesPerformed(s.(core := core), s.core, fired, known, 6, j);
      TurnsDiffer(j, j);
    }
    assert Step(s, lookback, RestTimer(allowed, known)) ==
           PerformAll(s.(core := core), Queries(s.core, fired, known, 6));
  }

  /** The kind of request an action of the REST side is about. */
  function KindOf(a: Action): Kind {
    if a.Query? then a.kind else StaleOrdersKind
  }

  lemma {:induction false} QueriesContain(c: Core, fired: set<Kind>, known: set<Key>, n: nat, a: Action)
    requires n <= 6
    ensures a in Queries(c, fired, known, n) <==>
            Turn(KindOf(a)) < n && KindOf(a) in fired && a == QueryFor(c, known, KindOf(a))
  {
    if n > 0 {
      QueriesContain(c, fired, known, n - 1, a);
      TurnsDiffer(KindOf(a), KindAt(n - 1));
    }
  }

  /**
    What the REST side sends on a timer: a query for every snapshot that has been asked for and that the rate
    limiter lets go, and one round of order queries, for the lost orders that it knows.
   */
  lemma QueriesSentIff(c: Core, allowed: set<Kind>, known: set<Key>, a: Action)
    ensures a in OnRestTimer(c, allowed, known).1 <==>
            KindOf(a) in allowed && c.slots.Get(KindOf(a)).pending
            && if a.Query? then a.kind != StaleOrdersKind else a == QueryOrders(c.stale * known)
  {
    QueriesContain(c, Fired(c.slots, allowed), known, 6, a);
    TurnsDiffer(KindOf(a), KindOf(a));
  }

  /** Entering a state emits one message: a subscription, a question or the news that all is done. */
  lemma {:induction false} EnterEmitsOne(c: Core, lookback: bool, s: State)
    requires s != Idle
    ensures var (d, actions) := Enter(c, lookback, s);
      |actions| == 1
      && d.state.Rank() >= s.Rank()
      && (actions[0] == PublishReady <==> d.state == Done)
      && (Awaited(d.state).Some? ==>
            actions[0] == Ask(Awaited(d.state).value) && d.slots == Asked(c.slots, Awaited(d.state).value))
      && (Awaited(d.state).None? ==> d.slots == c.slots)
      && (Subscribed(d.state).Some? ==> actions[0] == Subscribe(Subscribed(d.state).value))
      && (d.state == GetStaleOrders ==> c.stale != {})
      && (d.state == GetTrades ==> lookback)
      && (d.state != s ==>
            (s == GetStaleOrders && c.stale == {} && (d.state == GetTrades || (d.state == Done && !lookback)))
            || (s == GetTrades && !lookback && d.state == Done))
    decreases 11 - s.Rank()
  {
    if Skipped(c, lookback, s) {
      EnterEmitsOne(c, lookback, s.Next());
    }
  }

  // ---------------------------------------------------------------- what the events amount to

  /** Has the snapshot the state waits for been answered? */
  predicate HasAnswer(c: Core) {
    Awaited(c.state).Some? && c.slots.Get(Awaited(c.state).value).response
  }

  /** The system after a state has been entered. */
  function After(s: System, lookback: bool, st: State): System
    requires st != Idle
  {
    PerformAll(s.(core := Enter(s.core, lookback, st).0), Enter(s.core, lookback, st).1)
  }

  lemma AfterPerforms(s: System, lookback: bool, st: State)
    requires st != Idle
    ensures var (core, actions) := Enter(s.core, lookback, st);
      |actions| == 1 && After(s, lookback, st) == Perform(s.(core := core), actions[0])
  {
    EnterEmitsOne(s.core, lookback, st);
    var actions := Enter(s.core, lookback, st).1;
    assert actions[..0] == [];
  }

  lemma AfterCore(s: System, lookback: bool, st: State)
    requires st != Idle
    ensures After(s, lookback, st).core == Enter(s.core, lookback, st).0
  {
    AfterPerforms(s, lookback, st);
  }

  function WithAck(s: System, ch: Channel): System {
    s.(journal := s.journal + [Acked(ch)])
  }

  /** Lost orders join the set when the open orders have been answered. */
  function Found(s: System, lost: set<Key>): System {
    if s.core.state == GetOpenOrders then s.(core := s.core.(stale := s.core.stale + lost)) else s
  }

  /** The state an event of the socket side makes the download enter, and the system it enters it from. */
  function Entering(s: System, e: Event): Option<(System, State)> {
    match e
    case LoginAck => Some((s.(journal := []), SubscribeAccount))
    case SubscribeAck(ch) =>
      if Acknowledged(ch) == Some(s.core.state) then Some((WithAck(s, ch), s.core.state.Next())) else None
    case SocketTimer(lost) =>
      if HasAnswer(s.core) && !(s.core.state == GetStaleOrders && s.core.stale != {}) then
        Some((Found(s, lost), s.core.state.Next()))
      else None
    case _ => None
  }

  predicate OfSocket(e: Event) {
    e.LoginAck? || e.SubscribeAck? || e.SocketTimer?
  }

  /** What it comes to if no state is entered. */
  function Staying(s: System, e: Event): System {
    match e
    case SubscribeAck(ch) => WithAck(s, ch)
    case SocketTimer(_) => if HasAnswer(s.core) then s.(crashed := true) else s
    case _ => s
  }

  lemma SocketStepIs(s: System, lookback: bool, e: Event)
    requires Possible(s, e) && OfSocket(e)
    ensures match Entering(s, e)
            case Some((b, st)) => st != Idle && Step(s, lookback, e) == After(b, lookback, st)
            case None => Step(s, lookback, e) == Staying(s, e)
  {
  }

  lemma EnteringFrom(s: System, e: Event)
    requires Entering(s, e).Some?
    ensures var (b, st) := Entering(s, e).value;
      st != Idle && (st == GetStaleOrders ==> s.core.state != GetStaleOrders)
      && (st.Rank() < 9 ==> s.core.state.Rank() < 9 || st == SubscribeAccount)
      && b.core.slots == s.core.slots && b.core.counter == s.core.counter && b.ledgers == s.ledgers
      && b.crashed == s.crashed
  {
  }

  lemma SocketDownIs(s: System, lookback: bool)
    requires Possible(s, SocketDown)
    ensures Step(s, lookback, SocketDown) == s.(core := s.core.(state := Idle))
  {
  }

  lemma AnswerIs(s: System, lookback: bool, k: Kind)
    requires Possible(s, Answer(k))
    ensures Step(s, lookback, Answer(k)) == s.(
      core := s.core.(slots := Committed(s.core.slots, k)),
      ledgers := s.ledgers.Set(k, Answering(s.ledgers.Get(k))),
      journal := s.journal + [Answered(k)])
  {
  }

  // ---------------------------------------------------------------- the order of states

  /** One state forward, or past the states that have nothing to do. */
  predicate Advances(from: State, c: Core, lookback: bool) {
    c.state.Rank() > from.Rank()
    && (c.state == from.Next()
        || (from == GetOpenOrders && c.stale == {} && (c.state == GetTrades || (c.state == Done && !lookback)))
        || (from == GetStaleOrders && !lookback && c.state == Done))
  }

  lemma EnterAdvances(c: Core, lookback: bool, from: State)
    requires from != Done
    ensures Advances(from, Enter(c, lookback, from.Next()).0, lookback)
  {
    EnterEmitsOne(c, lookback, from.Next());
  }

  /**
    Between a login and the loss of the socket the download only moves forward, one state at a time but
    for the two states that may have nothing to do; the distance to Done measures what is left.
   */
  lemma StatesAdvance(s: System, lookback: bool, e: Event)
    requires Possible(s, e) && e != SocketDown && e != LoginAck
    ensures var t := Step(s, lookback, e);
      t.core.state == s.core.state || Advances(s.core.state, t.core, lookback)
  {
    if OfSocket(e) {
      SocketStepIs(s, lookback, e);
      if Entering(s, e).Some? {
        var (b, st) := Entering(s, e).value;
        AfterCore(b, lookback, st);
        EnterAdvances(b.core, lookback, s.core.state);
      }
    } else {
      StepCore(s, lookback, e);
    }
  }

  lemma {:induction false} PerformKeepsCore(s: System, actions: seq<Action>)
    ensures PerformAll(s, actions).core == s.core
    decreases |actions|
  {
    if actions != [] {
      PerformKeepsCore(s, actions[..|actions| - 1]);
    }
  }

  lemma StepCore(s: System, lookback: bool, e: Event)
    requires Possible(s, e)
    ensures Step(s, lookback, e).core == CoreStep(s.core, lookback, e).0
  {
    var (core, actions) := CoreStep(s.core, lookback, e);
    PerformKeepsCore(Observe(s, e).(core := core), actions);
  }

  // ---------------------------------------------------------------- safety of READY

  /** The entries occur in the journal in this order, other entries in between. */
  predicate Within(entries: seq<Entry>, journal: seq<Entry>)
    decreases |journal|
  {
    if entries == [] then true
    else if journal == [] then false
    else
      var e, j := |entries| - 1, |journal| - 1;
      (entries[e] == journal[j] && Within(entries[..e], journal[..j])) || Within(entries, journal[..j])
  }

  lemma WithinGrows(entries: seq<Entry>, journal: seq<Entry>, x: Entry)
    requires Within(entries, journal)
    ensures Within(entries, journal + [x]) && Within(entries + [x], journal + [x])
  {
    assert (journal + [x])[..|journal|] == journal;
    assert (entries + [x])[..|entries|] == entries;
  }

  /** The order the protocol promises: each snapshot after its subscription, each answer after its question. */
  const PROTOCOL: seq<Entry> := [
    Acked(AccountChannel), AskedFor(AccountKind), Answered(AccountKind),
    Acked(BalanceChannel), AskedFor(BalancesKind), Answered(BalancesKind),
    Acked(PositionsChannel), AskedFor(PositionsKind), Answered(PositionsKind),
    Acked(OrdersChannel), AskedFor(OpenOrdersKind), Answered(OpenOrdersKind) ]

  /** The stale order round, if there was one. */
  function Round(asked: bool): seq<Entry> {
    if asked then [AskedFor(StaleOrdersKind), Answered(StaleOrdersKind)] else []
  }

  /** The trades, if they are wanted. */
  function Trades(lookback: bool): seq<Entry> {
    if lookback then [AskedFor(TradesKind), Answered(TradesKind)] else []
  }

  /** What must have happened in this login by the time a state is entered; `asked` tells of a stale order round. */
  function Milestones(s: State, lookback: bool, asked: bool): seq<Entry> {
    match s
    case Idle => []
    case SubscribeAccount => []
    case GetAccount => PROTOCOL[..2]
    case SubscribeBalance => PROTOCOL[..3]
    case GetBalances => PROTOCOL[..5]
    case SubscribePositions => PROTOCOL[..6]
    case GetPositions => PROTOCOL[..8]
    case SubscribeOrders => PROTOCOL[..9]
    case GetOpenOrders => PROTOCOL[..11]
    case GetStaleOrders => PROTOCOL + [AskedFor(StaleOrdersKind)]
    case GetTrades => PROTOCOL + Round(asked) + [AskedFor(TradesKind)]
    case Done => PROTOCOL + Round(asked) + Trades(lookback)
  }

  predicate StaleAsked(journal: seq<Entry>) {
    AskedFor(StaleOrdersKind) in journal
  }

  function Readies(journal: seq<Entry>): nat {
    if journal == [] then 0
    else Readies(journal[..|journal| - 1]) + (if journal[|journal| - 1] == WentReady then 1 else 0)
  }

  lemma ReadiesAppend(journal: seq<Entry>, x: Entry)
    ensures Readies(journal + [x]) == Readies(journal) + if x == WentReady then 1 else 0
  {
    assert (journal + [x])[..|journal|] == journal;
  }

  /** The journal of a login fits a state, given what the state needs and what READY needs. */
  predicate FitsBy(st: State, answered: bool, journal: seq<Entry>, need: seq<Entry>, all: seq<Entry>)
    requires answered ==> Awaited(st).Some?
  {
    Within(need, journal)
    && (answered ==> Within(need + [Answered(Awaited(st).value)], journal))
    && (0 < st.Rank() < 9 ==> !StaleAsked(journal))
    && (st == GetStaleOrders ==> StaleAsked(journal))
    && Readies(journal) <= 1
    && (Readies(journal) == 1 ==> (st == Done || st == Idle) && Within(all + [WentReady], journal))
    && (st == Done ==> Readies(journal) == 1)
  }

  /** The journal of a login fits the state it has brought the download to. */
  predicate Fits(st: State, answered: bool, journal: seq<Entry>, lookback: bool)
    requires answered ==> Awaited(st).Some?
  {
    var asked := StaleAsked(journal);
    FitsBy(st, answered, journal, Milestones(st, lookback, asked), Milestones(Done, lookback, asked))
  }

  predicate JournalOk(s: System, lookback: bool) {
    Fits(s.core.state, HasAnswer(s.core), s.journal, lookback)
  }

  /** What must have happened when a state is about to be entered. */
  function Arrival(s: State, lookback: bool, asked: bool): seq<Entry> {
    match s
    case GetAccount => PROTOCOL[..1]
    case GetBalances => PROTOCOL[..4]
    case GetPositions => PROTOCOL[..7]
    case GetOpenOrders => PROTOCOL[..10]
    case GetStaleOrders => PROTOCOL
    case GetTrades => PROTOCOL + Round(asked)
    case _ => Milestones(s, lookback, asked)
  }

  lemma ArrivalSteps(s: State, lookback: bool, asked: bool)
    requires s == GetTrades ==> lookback
    requires s == GetStaleOrders ==> asked
    ensures Subscribed(s).Some? ==>
              Arrival(s.Next(), lookback, asked) == Milestones(s, lookback, asked) + [Acked(Subscribed(s).value)]
    ensures Awaited(s).Some? ==>
              Arrival(s.Next(), lookback, asked) == Milestones(s, lookback, asked) + [Answered(Awaited(s).value)]
  {
    if s == GetStaleOrders {
      TwoSteps(PROTOCOL, AskedFor(StaleOrdersKind), Answered(StaleOrdersKind));
    } else if s == GetTrades {
      TwoSteps(PROTOCOL + Round(asked), AskedFor(TradesKind), Answered(TradesKind));
    }
  }

  lemma TwoSteps(a: seq<Entry>, x: Entry, y: Entry)
    ensures a + [x] + [y] == a + [x, y]
  {
  }

  /** Entering adds the question; in the stale order state it is that question which starts the round. */
  lemma ArrivalAsks(s: State, lookback: bool, asked: bool)
    ensures Awaited(s).Some? ==>
              Milestones(s, lookback, asked) == Arrival(s, lookback, asked) + [AskedFor(Awaited(s).value)]
    ensures Awaited(s).None? ==> Milestones(s, lookback, asked) == Arrival(s, lookback, asked)
  {
  }

  /** Passing over a state that has nothing to do. */
  lemma ArrivalSkips(s: State, lookback: bool, asked: bool)
    requires (s == GetStaleOrders && !asked) || (s == GetTrades && !lookback)
    ensures Arrival(s.Next(), lookback, asked) == Arrival(s, lookback, asked)
  {
    assert PROTOCOL + [] == PROTOCOL && PROTOCOL + Round(asked) + [] == PROTOCOL + Round(asked);
  }

  /** What entering a state adds to the journal. */
  function Announced(s: State): seq<Entry> {
    if s == Done then [WentReady] else if Awaited(s).Some? then [AskedFor(Awaited(s).value)] else []
  }

  lemma StaleAskedAppend(journal: seq<Entry>, x: Entry)
    ensures StaleAsked(journal + [x]) <==> StaleAsked(journal) || x == AskedFor(StaleOrdersKind)
  {
  }

  /** A login is about to enter a state, given what that takes. */
  predicate ArrivesBy(st: State, journal: seq<Entry>, need: seq<Entry>) {
    st != Idle && Within(need, journal) && Readies(journal) == 0 && (st.Rank() <= 9 ==> !StaleAsked(journal))
  }

  predicate Arrives(st: State, journal: seq<Entry>, lookback: bool) {
    ArrivesBy(st, journal, Arrival(st, lookback, StaleAsked(journal)))
  }

  lemma EnterReady(journal: seq<Entry>, need: seq<Entry>)
    requires ArrivesBy(Done, journal, need)
    ensures FitsBy(Done, false, journal + [WentReady], need, need)
    ensures StaleAsked(journal + [WentReady]) == StaleAsked(journal)
  {
    WithinGrows(need, journal, WentReady);
    ReadiesAppend(journal, WentReady);
    StaleAskedAppend(journal, WentReady);
  }

  lemma EnterAsking(st: State, k: Kind, journal: seq<Entry>, need: seq<Entry>, all: seq<Entry>)
    requires ArrivesBy(st, journal, need) && Awaited(st) == Some(k)
    ensures FitsBy(st, false, journal + [AskedFor(k)], need + [AskedFor(k)], all)
    ensures StaleAsked(journal + [AskedFor(k)]) <==> StaleAsked(journal) || k == StaleOrdersKind
  {
    WithinGrows(need, journal, AskedFor(k));
    ReadiesAppend(journal, AskedFor(k));
    StaleAskedAppend(journal, AskedFor(k));
  }

  lemma EnterFits(st: State, lookback: bool, journal: seq<Entry>)
    requires Arrives(st, journal, lookback)
    ensures Fits(st, false, journal + Announced(st), lookback)
  {
    var asked := StaleAsked(journal);
    var need := Arrival(st, lookback, asked);
    if st == Done {
      EnterReady(journal, need);
    } else if Awaited(st).Some? {
      var k := Awaited(st).value;
      ArrivalAsks(st, lookback, asked || k == StaleOrdersKind);
      ArrivalOfAsked(st, lookback, asked);
      EnterAsking(st, k, journal, need, Milestones(Done, lookback, asked || k == StaleOrdersKind));
    } else {
      ArrivalAsks(st, lookback, asked);
      assert journal + [] == journal;
    }
  }

  /** Whether there is a stale order round makes no difference before it is over. */
  lemma ArrivalOfAsked(st: State, lookback: bool, asked: bool)
    requires Awaited(st).Some?
    ensures Arrival(st, lookback, asked || Awaited(st) == Some(StaleOrdersKind)) == Arrival(st, lookback, asked)
  {
  }

  lemma EnterOk(s: System, lookback: bool, st: State)
    requires Arrives(st, s.journal, lookback)
    ensures JournalOk(After(s, lookback, st), lookback)
    decreases 11 - st.Rank()
  {
    if Skipped(s.core, lookback, st) {
      ArrivalSkips(st, lookback, StaleAsked(s.journal));
      EnterOk(s, lookback, st.Next());
    } else {
      EnterEmitsOne(s.core, lookback, st);
      EnterFits(st, lookback, s.journal);
      PerformOne(s, lookback, st);
    }
  }

  lemma PerformOne(s: System, lookback: bool, st: State)
    requires st != Idle && !Skipped(s.core, lookback, st)
    ensures var t := After(s, lookback, st);
      t.core.state == st && !HasAnswer(t.core) && t.journal == s.journal + Announced(st)
  {
    AfterPerforms(s, lookback, st);
    EnterEmitsOne(s.core, lookback, st);
    assert s.journal + [] == s.journal;
  }

  lemma FitsAppend(st: State, answered: bool, journal: seq<Entry>, lookback: bool, x: Entry)
    requires answered ==> Awaited(st).Some?
    requires Fits(st, answered, journal, lookback) && (x.Acked? || x.Answered?)
    ensures Fits(st, answered, journal + [x], lookback)
    ensures Awaited(st).Some? && x == Answered(Awaited(st).value) ==> Fits(st, true, journal + [x], lookback)
  {
    var asked := StaleAsked(journal);
    StaleAskedAppend(journal, x);
    WithinGrows(Milestones(st, lookback, asked), journal, x);
    ReadiesAppend(journal, x);
    if Readies(journal) == 1 {
      WithinGrows(Milestones(Done, lookback, asked) + [WentReady], journal, x);
    }
    if answered {
      WithinGrows(Milestones(st, lookback, asked) + [Answered(Awaited(st).value)], journal, x);
    }
  }

  lemma TimerOk(s: System, lookback: bool, lost: set<Key>)
    requires JournalOk(s, lookback) && !s.crashed && (s.core.state == GetTrades ==> lookback)
    ensures JournalOk(Step(s, lookback, SocketTimer(lost)), lookback)
  {
    SocketStepIs(s, lookback, SocketTimer(lost));
    if Entering(s, SocketTimer(lost)).Some? {
      TimerArrives(s.core.state, s.journal, lookback);
      EnterOk(Found(s, lost), lookback, s.core.state.Next());
    }
  }

  lemma TimerArrives(st: State, journal: seq<Entry>, lookback: bool)
    requires Awaited(st).Some? && Fits(st, true, journal, lookback) && (st == GetTrades ==> lookback)
    ensures Arrives(st.Next(), journal, lookback)
  {
    var asked := StaleAsked(journal);
    AnswerArrives(st, journal, Milestones(st, lookback, asked), Milestones(Done, lookback, asked));
    ArrivalSteps(st, lookback, asked);
  }

  lemma AnswerArrives(st: State, journal: seq<Entry>, need: seq<Entry>, all: seq<Entry>)
    requires Awaited(st).Some? && FitsBy(st, true, journal, need, all)
    ensures ArrivesBy(st.Next(), journal, need + [Answered(Awaited(st).value)])
  {
  }

  /** The trades are asked for only if there is a lookback. */
  predicate TradesWanted(s: System, lookback: bool) {
    s.core.state == GetTrades ==> lookback
  }

  lemma SubscribeAckOk(s: System, lookback: bool, ch: Channel)
    requires !s.crashed && JournalOk(s, lookback)
    ensures JournalOk(Step(s, lookback, SubscribeAck(ch)), lookback)
  {
    SocketStepIs(s, lookback, SubscribeAck(ch));
    if Acknowledged(ch) == Some(s.core.state) {
      SubscribeArrives(s.core.state, lookback, s.journal, ch);
      EnterOk(WithAck(s, ch), lookback, s.core.state.Next());
    } else {
      FitsAppend(s.core.state, HasAnswer(s.core), s.journal, lookback, Acked(ch));
    }
  }

  lemma SubscribeArrives(st: State, lookback: bool, journal: seq<Entry>, ch: Channel)
    requires Acknowledged(ch) == Some(st) && Fits(st, false, journal, lookback)
    ensures Arrives(st.Next(), journal + [Acked(ch)], lookback)
  {
    var asked := StaleAsked(journal);
    var need := Milestones(st, lookback, asked);
    AckArrives(st, journal, ch, need, Milestones(Done, lookback, asked));
    ArrivalSteps(st, lookback, asked);
    assert Arrival(st.Next(), lookback, asked) == need + [Acked(ch)];
  }

  lemma AckArrives(st: State, journal: seq<Entry>, ch: Channel, need: seq<Entry>, all: seq<Entry>)
    requires Acknowledged(ch) == Some(st) && FitsBy(st, false, journal, need, all)
    ensures ArrivesBy(st.Next(), journal + [Acked(ch)], need + [Acked(ch)])
    ensures StaleAsked(journal + [Acked(ch)]) == StaleAsked(journal)
  {
    StaleAskedAppend(journal, Acked(ch));
    ReadiesAppend(journal, Acked(ch));
    WithinGrows(need, journal, Acked(ch));
  }

  lemma AnswerOk(s: System, lookback: bool, k: Kind)
    requires Possible(s, Answer(k)) && JournalOk(s, lookback)
    ensures JournalOk(Step(s, lookback, Answer(k)), lookback)
  {
    FitsAppend(s.core.state, HasAnswer(s.core), s.journal, lookback, Answered(k));
    AnswerEffect(s, lookback, k);
  }

  lemma AnswerEffect(s: System, lookback: bool, k: Kind)
    requires Possible(s, Answer(k))
    ensures var t := Step(s, lookback, Answer(k));
      t.journal == s.journal + [Answered(k)] && t.core.state == s.core.state
      && HasAnswer(t.core) == (HasAnswer(s.core) || Awaited(s.core.state) == Some(k))
  {
    AnswerIs(s, lookback, k);
    var t := Step(s, lookback, Answer(k));
    assert forall j :: t.core.slots.Get(j).response == (s.core.slots.Get(j).response || j == k);
  }

  lemma OrderAnswerOk(s: System, lookback: bool)
    requires Possible(s, OrderAnswer) && JournalOk(s, lookback)
    ensures JournalOk(Step(s, lookback, OrderAnswer), lookback)
  {
    if s.core.counter == 1 {
      FitsAppend(s.core.state, HasAnswer(s.core), s.journal, lookback, Answered(StaleOrdersKind));
    }
    OrderAnswerEffect(s, lookback);
  }

  lemma OrderAnswerEffect(s: System, lookback: bool)
    requires Possible(s, OrderAnswer)
    ensures var t := Step(s, lookback, OrderAnswer);
      t.journal == s.journal + (if s.core.counter == 1 then [Answered(StaleOrdersKind)] else [])
      && (s.core.counter != 1 ==> t.journal == s.journal)
      && t.core.state == s.core.state
      && HasAnswer(t.core) == (HasAnswer(s.core) || (s.core.counter == 1 && s.core.state == GetStaleOrders))
  {
    assert s.journal + [] == s.journal;
  }

  lemma SocketDownOk(s: System, lookback: bool)
    requires Possible(s, SocketDown) && JournalOk(s, lookback)
    ensures JournalOk(Step(s, lookback, SocketDown), lookback)
  {
    SocketDownIs(s, lookback);
  }

  lemma RestTimerOk(s: System, lookback: bool, allowed: set<Kind>, known: set<Key>)
    requires !s.crashed && JournalOk(s, lookback)
    ensures JournalOk(Step(s, lookback, RestTimer(allowed, known)), lookback)
  {
    RestTimerEffect(s, lookback, allowed, known);
    RestTimerAnswersNothing(s.core, allowed, known);
  }

  lemma RestTimerAnswersNothing(c: Core, allowed: set<Kind>, known: set<Key>)
    ensures var d := OnRestTimer(c, allowed, known).0;
      d.state == c.state && HasAnswer(d) == HasAnswer(c)
  {
  }

  lemma StepKeepsJournal(s: System, lookback: bool, e: Event)
    requires Possible(s, e) && JournalOk(s, lookback) && TradesWanted(s, lookback)
    ensures JournalOk(Step(s, lookback, e), lookback)
  {
    match e {
      case SocketDown => SocketDownOk(s, lookback);
      case LoginAck =>
        SocketStepIs(s, lookback, e);
        EnterOk(s.(journal := []), lookback, SubscribeAccount);
      case SubscribeAck(ch) => SubscribeAckOk(s, lookback, ch);
      case SocketTimer(lost) => TimerOk(s, lookback, lost);
      case RestTimer(allowed, known) => RestTimerOk(s, lookback, allowed, known);
      case Answer(k) => AnswerOk(s, lookback, k);
      case OrderAnswer => OrderAnswerOk(s, lookback);
    }
  }

  lemma StepKeepsTradesWanted(s: System, lookback: bool, e: Event)
    requires Possible(s, e) && TradesWanted(s, lookback)
    ensures TradesWanted(Step(s, lookback, e), lookback)
  {
    if OfSocket(e) {
      SocketStepIs(s, lookback, e);
      if Entering(s, e).Some? {
        var (b, st) := Entering(s, e).value;
        AfterCore(b, lookback, st);
        EnterEmitsOne(b.core, lookback, st);
      }
    } else {
      StepCore(s, lookback, e);
    }
  }

  lemma {:induction false} RunKeepsJournal(lookback: bool, events: seq<Event>)
    ensures JournalOk(Run(lookback, events), lookback) && TradesWanted(Run(lookback, events), lookback)
    decreases |events|
  {
    if events != [] {
      var before := events[..|events| - 1];
      RunKeepsJournal(lookback, before);
      var e := events[|events| - 1];
      if Possible(Run(lookback, before), e) {
        StepKeepsJournal(Run(lookback, before), lookback, e);
        StepKeepsTradesWanted(Run(lookback, before), lookback, e);
      }
    }
  }

  /**
    READY is published at most once in a login, and by then the journal of that login holds, in this order,
    each channel's acknowledgement, the question for its snapshot and an answer to that kind of question; then,
    if there was a stale order round, its question and its settlement; then, if wanted, the trades.
   */
  lemma ReadyIsEarned(lookback: bool, events: seq<Event>)
    ensures var s := Run(lookback, events);
      Readies(s.journal) <= 1
      && (Readies(s.journal) == 1 ==>
            Within(PROTOCOL + Round(StaleAsked(s.journal)) + Trades(lookback) + [WentReady], s.journal))
      && (s.core.state == Done ==> Readies(s.journal) == 1)
  {
    RunKeepsJournal(lookback, events);
  }
}
