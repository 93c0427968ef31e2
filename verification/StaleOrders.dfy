/**
  The stale order round of the account synchronisation protocol. One side fills a shared set with the
  orders it has lost sight of, the other drains it, sends one query per listed order and counts the
  answers. Proved here: the counter is exact in every run; and, both ways, when the round can crash the
  process, when it can hang for good, and when READY comes before its queries are answered.
 */
module StaleOrders {
  import opened Wrappers
  import opened AccountSync
  import opened AccountRuns
  import opened AccountLedger

  /** The counter of OrderEntry is the number of queries on the wire; nothing else answers a stale round. */
  predicate Counted(s: System) {
    s.core.counter == s.orders && s.ledgers.staleOrders.wire == []
  }

  lemma EnterKeepsCounted(s: System, lookback: bool, st: State)
    requires st != Idle && Counted(s)
    ensures Counted(After(s, lookback, st)) && After(s, lookback, st).crashed == s.crashed
  {
    EnterEmitsOne(s.core, lookback, st);
    AfterPerforms(s, lookback, st);
    EnterTouchesOne(s, lookback, st, StaleOrdersKind);
  }

  /** No event makes the counter wrong, and with a right counter no answer is unexpected. */
  lemma StepKeepsCounted(s: System, lookback: bool, e: Event)
    requires Possible(s, e) && Counted(s)
    ensures Counted(Step(s, lookback, e))
    ensures Step(s, lookback, e).crashed <==>
            e.SocketTimer? && s.core.state == GetStaleOrders && s.core.slots.staleOrders.response && s.core.stale != {}
  {
    match e {
      case SocketDown => SocketDownIs(s, lookback);
      case RestTimer(allowed, known) =>
        RestTimerEffect(s, lookback, allowed, known);
        assert Step(s, lookback, e).ledgers.Get(StaleOrdersKind) == s.ledgers.Get(StaleOrdersKind);
      case Answer(k) =>
        AnswerIs(s, lookback, k);
        assert s.ledgers.Get(StaleOrdersKind).wire == [] && k != StaleOrdersKind;
        SetChangesOne(s.ledgers, k, Answering(s.ledgers.Get(k)), StaleOrdersKind);
      case OrderAnswer =>
      case _ =>
        SocketStepIs(s, lookback, e);
        if Entering(s, e).Some? {
          EnterKeepsCounted(Entering(s, e).value.0, lookback, Entering(s, e).value.1);
        }
    }
  }

  lemma {:induction false} RunKeepsCounted(s: System, lookback: bool, events: seq<Event>)
    requires Counted(s)
    ensures Counted(RunFrom(s, lookback, events))
    decreases |events|
  {
    if events != [] {
      var before := events[..|events| - 1];
      RunKeepsCounted(s, lookback, before);
      if Possible(RunFrom(s, lookback, before), events[|events| - 1]) {
        StepKeepsCounted(RunFrom(s, lookback, before), lookback, events[|events| - 1]);
      }
    }
  }

  // ---------------------------------------------------------------- what an event does to a round

  /** Nothing of the round changes, or a round begins. */
  predicate Moves(c: Core, d: Core) {
    d.counter == c.counter
    && if d.state == GetStaleOrders && c.state != GetStaleOrders then
         d.slots.staleOrders == Slot(true, false) && d.stale != {}
       else
         d.slots.staleOrders == c.slots.staleOrders && (d.state == GetStaleOrders ==> d.stale == c.stale)
  }

  predicate Drains(c: Core, d: Core, fires: bool, known: set<Key>) {
    d.state == c.state
    && d.slots.staleOrders == (if fires then Slot(false, c.slots.staleOrders.response) else c.slots.staleOrders)
    && d.stale == (if fires then {} else c.stale)
    && d.counter == (if fires then c.counter + |c.stale * known| else c.counter)
  }

  lemma EnterMoves(c: Core, b: Core, lookback: bool, st: State)
    requires st != Idle && (st == GetStaleOrders ==> c.state != GetStaleOrders)
    requires st.Rank() < 9 ==> c.state.Rank() < 9 || st == SubscribeAccount
    requires b.slots == c.slots && b.counter == c.counter
    ensures Moves(c, Enter(b, lookback, st).0)
  {
    EnterEmitsOne(b, lookback, st);
  }

  lemma SocketMoves(s: System, lookback: bool, e: Event)
    requires Possible(s, e) && (e.LoginAck? || e.SubscribeAck? || e.SocketTimer?)
    ensures Moves(s.core, Step(s, lookback, e).core)
  {
    SocketStepIs(s, lookback, e);
    if Entering(s, e).Some? {
      var (b, st) := Entering(s, e).value;
      EnteringFrom(s, e);
      AfterCore(b, lookback, st);
      EnterMoves(s.core, b.core, lookback, st);
    }
  }

  lemma RestDrains(s: System, lookback: bool, allowed: set<Kind>, known: set<Key>)
    requires Possible(s, RestTimer(allowed, known))
    ensures Drains(s.core, Step(s, lookback, RestTimer(allowed, known)).core,
                   StaleOrdersKind in allowed && s.core.slots.staleOrders.pending, known)
  {
    StepCore(s, lookback, RestTimer(allowed, known));
    assert Sent(s.core.slots, Fired(s.core.slots, allowed)).staleOrders ==
      Sent(s.core.slots, Fired(s.core.slots, allowed)).Get(StaleOrdersKind);
    assert s.core.slots.staleOrders == s.core.slots.Get(StaleOrdersKind);
  }

  /** No snapshot's answer is an answer to the round. */
  lemma AnswerMoves(s: System, lookback: bool, k: Kind)
    requires Possible(s, Answer(k)) && Counted(s)
    ensures var d := Step(s, lookback, Answer(k)).core;
      d.state == s.core.state && d.slots.staleOrders == s.core.slots.staleOrders && d.stale == s.core.stale
        && d.counter == s.core.counter
  {
    StepCore(s, lookback, Answer(k));
    assert s.ledgers.Get(StaleOrdersKind).wire == [] && k != StaleOrdersKind;
    assert Committed(s.core.slots, k).Get(StaleOrdersKind) == s.core.slots.Get(StaleOrdersKind);
  }

  /** With a right counter, an order's answer is counted, and the last one ends the round. */
  lemma OrderAnswerCounts(s: System, lookback: bool)
    requires Possible(s, OrderAnswer) && Counted(s)
    ensures Step(s, lookback, OrderAnswer) == s.(
      orders := s.orders - 1,
      journal := s.journal + (if s.core.counter == 1 then [Answered(StaleOrdersKind)] else []),
      core := s.core.(counter := s.core.counter - 1,
                      slots := if s.core.counter == 1 then Committed(s.core.slots, StaleOrdersKind) else s.core.slots))
  {
  }

  /**
    In every run an answer to a stale order query finds the counter positive, and the round is answered
    exactly by the answers that bring the number of queries on the wire to zero.
   */
  lemma StaleAccounting(lookback: bool, events: seq<Event>, e: Event)
    requires Possible(Run(lookback, events), e)
    ensures var s := Run(lookback, events);
      var t := Step(s, lookback, e);
      s.core.counter == s.orders
      && (e == OrderAnswer ==> !t.crashed && t.core.counter == s.core.counter - 1)
      && (t.core.slots.staleOrders.response && !s.core.slots.staleOrders.response <==>
            e == OrderAnswer && t.orders == 0 && !s.core.slots.staleOrders.response)
  {
    var s := Run(lookback, events);
    RunKeepsCounted(Initial(), lookback, events);
    StepKeepsCounted(s, lookback, e);
    match e {
      case SocketDown => StepCore(s, lookback, e);
      case RestTimer(allowed, known) => RestDrains(s, lookback, allowed, known);
      case Answer(k) => AnswerMoves(s, lookback, k);
      case OrderAnswer => OrderAnswerCounts(s, lookback);
      case _ => SocketMoves(s, lookback, e);
    }
  }

  // ---------------------------------------------------------------- the round just begun

  predicate Begun(s: System) {
    s.core.state == GetStaleOrders && s.core.slots.staleOrders == Slot(true, false) && s.core.stale != {}
    && Counted(s) && !s.crashed
  }

  /** Every way into the stale order state begins a round. */
  lemma RoundsBegin(s: System, lookback: bool, e: Event)
    requires Possible(s, e) && Counted(s)
    requires s.core.state != GetStaleOrders && Step(s, lookback, e).core.state == GetStaleOrders
    ensures Begun(Step(s, lookback, e))
  {
    StepKeepsCounted(s, lookback, e);
    match e {
      case SocketDown => StepCore(s, lookback, e);
      case RestTimer(allowed, known) => RestDrains(s, lookback, allowed, known);
      case Answer(k) => AnswerMoves(s, lookback, k);
      case OrderAnswer => OrderAnswerCounts(s, lookback);
      case _ => SocketMoves(s, lookback, e);
    }
  }

  // ---------------------------------------------------------------- a round that owes nothing

  predicate Unburdened(c: Core) {
    c.counter == 0 && !c.slots.staleOrders.pending
  }

  /** A round is either not yet drained and unanswered, or drained, and answered only when nothing is outstanding. */
  predicate Tidy(s: System) {
    Counted(s) && !s.crashed
    && if s.core.state == GetStaleOrders then
         (s.core.slots.staleOrders == Slot(true, false) && s.core.counter == 0)
         || (!s.core.slots.staleOrders.pending && s.core.stale == {}
             && (s.core.slots.staleOrders.response ==> s.core.counter == 0))
       else
         Unburdened(s.core)
  }

  lemma StepKeepsTidy(s: System, lookback: bool, e: Event)
    requires Possible(s, e) && Tidy(s)
    requires e == SocketDown || e == LoginAck ==> Unburdened(s.core)
    ensures Tidy(Step(s, lookback, e))
  {
    StepKeepsCounted(s, lookback, e);
    match e {
      case SocketDown => StepCore(s, lookback, e);
      case RestTimer(allowed, known) => RestDrains(s, lookback, allowed, known);
      case Answer(k) => AnswerMoves(s, lookback, k);
      case OrderAnswer => OrderAnswerCounts(s, lookback);
      case LoginAck => SocketMoves(s, lookback, e);
      case SubscribeAck(ch) => SocketMoves(s, lookback, e);
      case SocketTimer(lost) => SocketTimerTidy(s, lookback, lost);
    }
  }

  lemma SocketTimerTidy(s: System, lookback: bool, lost: set<Key>)
    requires Possible(s, SocketTimer(lost)) && Tidy(s)
    ensures var d := Step(s, lookback, SocketTimer(lost)).core;
      Moves(s.core, d) && (s.core.state == GetStaleOrders && d.state != GetStaleOrders ==>
        s.core.slots.staleOrders.response)
  {
    SocketMoves(s, lookback, SocketTimer(lost));
    StepCore(s, lookback, SocketTimer(lost));
  }

  lemma {:induction false} OneLoginKeepsTidy(s: System, lookback: bool, events: seq<Event>)
    requires Tidy(s) && InOneLogin(events)
    ensures Tidy(RunFrom(s, lookback, events))
    decreases |events|
  {
    if events != [] {
      var before := events[..|events| - 1];
      OneLoginKeepsTidy(s, lookback, before);
      if Possible(RunFrom(s, lookback, before), events[|events| - 1]) {
        StepKeepsTidy(RunFrom(s, lookback, before), lookback, events[|events| - 1]);
      }
    }
  }

  // ---------------------------------------------------------------- paths

  /** After `n` of the queries have been answered. */
  function AfterAnswers(s: System, n: nat): System
    requires n <= s.orders && n <= s.core.counter
  {
    var settled := n > 0 && n == s.core.counter;
    s.(orders := s.orders - n,
       journal := s.journal + (if settled then [Answered(StaleOrdersKind)] else []),
       core := s.core.(counter := s.core.counter - n,
                       slots := if settled then Committed(s.core.slots, StaleOrdersKind) else s.core.slots))
  }

  lemma AnsweredOne(s: System, lookback: bool, n: nat)
    requires Counted(s) && !s.crashed && 0 < n <= s.core.counter
    ensures Possible(AfterAnswers(s, n - 1), OrderAnswer)
    ensures Step(AfterAnswers(s, n - 1), lookback, OrderAnswer) == AfterAnswers(s, n)
  {
    assert s.journal + [] == s.journal;
    OrderAnswerCounts(AfterAnswers(s, n - 1), lookback);
  }

  /** One after the other. */
  lemma {:induction false} AnsweredAll(s: System, lookback: bool, n: nat)
    requires Counted(s) && !s.crashed && n <= s.core.counter
    ensures Leads(s, lookback, AfterAnswers(s, n), true)
  {
    if n == 0 {
      assert s.journal + [] == s.journal;
      assert AfterAnswers(s, 0) == s;
      LeadsSelf(s, lookback);
    } else {
      AnsweredAll(s, lookback, n - 1);
      AnsweredOne(s, lookback, n);
      LeadsFurther(s, lookback, AfterAnswers(s, n - 1), OrderAnswer, true);
    }
  }

  // ---------------------------------------------------------------- crashing

  /** Queries of an earlier round answered before the new set is drained: the next timer finds it full. */
  lemma CrashRun(s: System, lookback: bool) returns (t: System)
    requires Begun(s) && s.core.counter > 0
    ensures Leads(s, lookback, t, true) && t.crashed
  {
    var a := AfterAnswers(s, s.core.counter);
    AnsweredAll(s, lookback, s.core.counter);
    LeadsFurther(s, lookback, a, SocketTimer({}), true);
    t := Step(a, lookback, SocketTimer({}));
    StepKeepsCounted(a, lookback, SocketTimer({}));
  }

  /**
    Within the login in which a round begins, the process can be brought down by finding the set full if
    and only if queries of an earlier round were still on the wire when the round began.
   */
  lemma CrashReachableIff(s: System, lookback: bool)
    requires Begun(s)
    ensures (exists events: seq<Event> :: InOneLogin(events) && RunFrom(s, lookback, events).crashed)
        <==> s.core.counter > 0
  {
    if s.core.counter > 0 {
      var t := CrashRun(s, lookback);
    } else {
      forall events: seq<Event> | InOneLogin(events) ensures !RunFrom(s, lookback, events).crashed {
        OneLoginKeepsTidy(s, lookback, events);
      }
    }
  }

  /** The socket is lost, and logins happen, only while no stale order query is due or on the wire. */
  predicate Calm(lookback: bool, events: seq<Event>) {
    forall i :: 0 <= i < |events| && (events[i] == SocketDown || events[i] == LoginAck) ==>
      Unburdened(Run(lookback, events[..i]).core)
  }

  /** The socket is lost, and logins happen, only outside the stale order state. */
  predicate Settling(lookback: bool, events: seq<Event>) {
    forall i :: 0 <= i < |events| && (events[i] == SocketDown || events[i] == LoginAck) ==>
      Run(lookback, events[..i]).core.state != GetStaleOrders
  }

  /** Runs of either kind never bring the process down. */
  lemma {:induction false} CalmRunsNeverCrash(lookback: bool, events: seq<Event>)
    requires Calm(lookback, events)
    ensures Tidy(Run(lookback, events)) && !Run(lookback, events).crashed
    decreases |events|
  {
    if events != [] {
      var n := |events| - 1;
      var before := events[..n];
      forall i | 0 <= i < n && (before[i] == SocketDown || before[i] == LoginAck)
        ensures Unburdened(Run(lookback, before[..i]).core)
      {
        assert before[..i] == events[..i] && before[i] == events[i];
      }
      CalmRunsNeverCrash(lookback, before);
      if Possible(Run(lookback, before), events[n]) {
        StepKeepsTidy(Run(lookback, before), lookback, events[n]);
      }
    }
  }

  /** Outside the stale order state nothing is due or on the wire, as long as no round has been cut short. */
  lemma {:induction false} SettlingRunsNeverCrash(lookback: bool, events: seq<Event>)
    requires Settling(lookback, events)
    ensures Tidy(Run(lookback, events)) && !Run(lookback, events).crashed
    decreases |events|
  {
    if events != [] {
      var n := |events| - 1;
      var before := events[..n];
      forall i | 0 <= i < n && (before[i] == SocketDown || before[i] == LoginAck)
        ensures Run(lookback, before[..i]).core.state != GetStaleOrders
      {
        assert before[..i] == events[..i] && before[i] == events[i];
      }
      SettlingRunsNeverCrash(lookback, before);
      if Possible(Run(lookback, before), events[n]) {
        StepKeepsTidy(Run(lookback, before), lookback, events[n]);
      }
    }
  }

  // ---------------------------------------------------------------- hanging

  predicate Hung(s: System) {
    Counted(s) && s.core.state == GetStaleOrders && s.core.slots.staleOrders == Slot(false, false)
      && s.core.counter == 0
  }

  lemma StepKeepsHung(s: System, lookback: bool, e: Event)
    requires Possible(s, e) && Hung(s) && e != SocketDown && e != LoginAck
    ensures Hung(Step(s, lookback, e))
  {
    StepKeepsCounted(s, lookback, e);
    match e {
      case RestTimer(allowed, known) => RestDrains(s, lookback, allowed, known);
      case Answer(k) => AnswerMoves(s, lookback, k);
      case OrderAnswer => OrderAnswerCounts(s, lookback);
      case _ => HungMoves(s, lookback, e);
    }
  }

  lemma HungMoves(s: System, lookback: bool, e: Event)
    requires Possible(s, e) && Hung(s) && (e.SubscribeAck? || e.SocketTimer?)
    ensures Step(s, lookback, e).core == s.core
  {
    StepCore(s, lookback, e);
  }

  lemma {:induction false} HungStaysHung(s: System, lookback: bool, events: seq<Event>)
    requires Hung(s) && InOneLogin(events)
    ensures Hung(RunFrom(s, lookback, events))
    decreases |events|
  {
    if events != [] {
      var before := events[..|events| - 1];
      HungStaysHung(s, lookback, before);
      if Possible(RunFrom(s, lookback, before), events[|events| - 1]) {
        StepKeepsHung(RunFrom(s, lookback, before), lookback, events[|events| - 1]);
      }
    }
  }

  /** Whatever happens, the download stays in the stale order state until the socket is lost. */
  ghost predicate Stuck(s: System, lookback: bool) {
    forall events: seq<Event> :: InOneLogin(events) ==> RunFrom(s, lookback, events).core.state == GetStaleOrders
  }

  lemma HungIsStuck(s: System, lookback: bool)
    requires Hung(s)
    ensures Stuck(s, lookback)
  {
    forall events: seq<Event> | InOneLogin(events) ensures RunFrom(s, lookback, events).core.state == GetStaleOrders {
      HungStaysHung(s, lookback, events);
    }
  }

  /** An answered and drained round is left at the next timer. */
  lemma LeavesRound(s: System, lookback: bool) returns (t: System)
    requires !s.crashed && s.core.state == GetStaleOrders && s.core.slots.staleOrders.response && s.core.stale == {}
    ensures Leads(s, lookback, t, true)
    ensures !t.crashed && t.core.counter == s.core.counter
    ensures if lookback then t.core.state == GetTrades && JustAsked(s, t, TradesKind) else t.core.state == Done
  {
    LeadsByStep(s, lookback, SocketTimer({}), true);
    t := Step(s, lookback, SocketTimer({}));
  }

  /** A drained round with queries on the wire can be finished. */
  lemma DrainedGoesOn(s: System, lookback: bool) returns (t: System)
    requires Counted(s) && !s.crashed && s.core.state == GetStaleOrders && s.core.stale == {} && s.core.counter > 0
    ensures Leads(s, lookback, t, true) && !t.crashed
    ensures if lookback then t.core.state == GetTrades && JustAsked(s, t, TradesKind) else t.core.state == Done
  {
    var a := AfterAnswers(s, s.core.counter);
    AnsweredAll(s, lookback, s.core.counter);
    assert a.core.slots.Get(StaleOrdersKind).response;
    t := LeavesRound(a, lookback);
    LeadsOn(s, lookback, a, t, true);
  }

  /** In the stale order state the question waits to be sent exactly as long as the set is full. */
  predicate DueWhileFull(s: System) {
    Counted(s) && (s.core.state == GetStaleOrders ==> (s.core.slots.staleOrders.pending <==> s.core.stale != {}))
  }

  lemma StepKeepsDue(s: System, lookback: bool, e: Event)
    requires Possible(s, e) && DueWhileFull(s)
    ensures DueWhileFull(Step(s, lookback, e))
  {
    StepKeepsCounted(s, lookback, e);
    match e {
      case SocketDown => StepCore(s, lookback, e);
      case RestTimer(allowed, known) => RestDrains(s, lookback, allowed, known);
      case Answer(k) => AnswerMoves(s, lookback, k);
      case OrderAnswer => OrderAnswerCounts(s, lookback);
      case _ => SocketMoves(s, lookback, e);
    }
  }

  lemma {:induction false} RunKeepsDue(lookback: bool, events: seq<Event>)
    ensures DueWhileFull(Run(lookback, events))
    decreases |events|
  {
    if events != [] {
      var before := events[..|events| - 1];
      RunKeepsDue(lookback, before);
      if Possible(Run(lookback, before), events[|events| - 1]) {
        StepKeepsDue(Run(lookback, before), lookback, events[|events| - 1]);
      }
    }
  }

  /** Another state is where it is without any event. */
  lemma ElsewhereIsNotStuck(s: System, lookback: bool)
    requires s.core.state != GetStaleOrders
    ensures !Stuck(s, lookback)
  {
    assert RunFrom(s, lookback, []) == s && InOneLogin([]);
  }

  lemma WayOutIsNotStuck(s: System, lookback: bool, t: System)
    requires Leads(s, lookback, t, true) && t.core.state != GetStaleOrders
    ensures !Stuck(s, lookback)
  {
    var events: seq<Event> :| InOneLogin(events) && RunFrom(s, lookback, events) == t;
  }

  /** A full set can be drained, with all its orders listed. */
  lemma FullSetDrains(s: System, lookback: bool) returns (t: System)
    requires DueWhileFull(s) && !s.crashed && s.core.state == GetStaleOrders && s.core.slots.staleOrders.pending
    ensures Leads(s, lookback, t, true) && Counted(t) && !t.crashed
    ensures t.core.state == GetStaleOrders && t.core.stale == {} && t.core.counter > 0
    ensures Kept(s, t, TradesKind)
  {
    var e := RestTimer({StaleOrdersKind}, s.core.stale);
    LeadsByStep(s, lookback, e, true);
    t := Step(s, lookback, e);
    RestDrains(s, lookback, {StaleOrdersKind}, s.core.stale);
    RestTimerEffect(s, lookback, {StaleOrdersKind}, s.core.stale);
    StepKeepsCounted(s, lookback, e);
    assert s.core.stale * s.core.stale == s.core.stale;
  }

  lemma StuckMeansHung(s: System, lookback: bool)
    requires DueWhileFull(s) && !s.crashed
    ensures Stuck(s, lookback) <==> Hung(s)
  {
    if Hung(s) {
      HungIsStuck(s, lookback);
    } else if s.core.state != GetStaleOrders {
      ElsewhereIsNotStuck(s, lookback);
    } else if s.core.slots.staleOrders.pending {
      var t := FullSetDrains(s, lookback);
      var u := DrainedGoesOn(t, lookback);
      LeadsOn(s, lookback, t, u, true);
      WayOutIsNotStuck(s, lookback, u);
    } else if s.core.slots.staleOrders.response {
      var t := LeavesRound(s, lookback);
      WayOutIsNotStuck(s, lookback, t);
    } else {
      var t := DrainedGoesOn(s, lookback);
      WayOutIsNotStuck(s, lookback, t);
    }
  }

  /**
    In every run: the download is stuck if and only if it waits for a round that has been drained and not
    settled, with no query on the wire.
   */
  lemma StuckIff(lookback: bool, events: seq<Event>)
    requires !Run(lookback, events).crashed
    ensures var s := Run(lookback, events);
      Stuck(s, lookback) <==>
      s.core.state == GetStaleOrders && s.core.slots.staleOrders == Slot(false, false) && s.core.counter == 0
  {
    RunKeepsDue(lookback, events);
    StuckMeansHung(Run(lookback, events), lookback);
  }

  /**
    The drain decides: it sticks if and only if no order of the set is listed any more, no query is on the
    wire, and the round has not been settled before by answers to an earlier one.
   */
  lemma DrainHangsIff(lookback: bool, events: seq<Event>, allowed: set<Kind>, known: set<Key>)
    requires var s := Run(lookback, events);
      !s.crashed && s.core.state == GetStaleOrders && s.core.slots.staleOrders.pending && StaleOrdersKind in allowed
    ensures var s := Run(lookback, events);
      Stuck(Step(s, lookback, RestTimer(allowed, known)), lookback) <==>
      s.core.counter == 0 && s.core.stale * known == {} && !s.core.slots.staleOrders.response
  {
    var s := Run(lookback, events);
    RunKeepsDue(lookback, events);
    RestDrains(s, lookback, allowed, known);
    StepKeepsDue(s, lookback, RestTimer(allowed, known));
    StepKeepsCounted(s, lookback, RestTimer(allowed, known));
    StuckMeansHung(Step(s, lookback, RestTimer(allowed, known)), lookback);
  }

  // ---------------------------------------------------------------- READY too soon

  /** The web socket side has gone on although queries about stale orders are still on the wire. */
  predicate WentOnTooSoon(s: System) {
    s.core.state.Rank() > 9 && s.core.counter > 0
  }

  /** The question a state waits for is sent and answered; the round and any other kind are left alone. */
  lemma AwaitedAnswered(s: System, lookback: bool, k: Kind, other: Kind) returns (t: System)
    requires !s.crashed && Awaited(s.core.state) == Some(k) && k != StaleOrdersKind && s.core.slots.Get(k).pending
    ensures Leads(s, lookback, t, true)
    ensures !t.crashed && t.core.state == s.core.state && t.core.slots.Get(k).response
    ensures t.core.stale == s.core.stale && t.core.counter == s.core.counter
    ensures t.core.slots.staleOrders == s.core.slots.staleOrders
    ensures other != k ==> Kept(s, t, other)
  {
    var a := QuestionSent(s, lookback, k, other);
    LeadsFurther(s, lookback, a, Answer(k), true);
    t := Step(a, lookback, Answer(k));
    assert t.core == a.core.(slots := Committed(a.core.slots, k));
    assert t.core.slots.Get(StaleOrdersKind) == a.core.slots.Get(StaleOrdersKind);
    SetChangesOne(a.ledgers, k, Answering(a.ledgers.Get(k)), other);
    SetChangesOne(a.core.slots, k, Slot(a.core.slots.Get(k).pending, true), other);
  }

  lemma QuestionSent(s: System, lookback: bool, k: Kind, other: Kind) returns (t: System)
    requires !s.crashed && k != StaleOrdersKind && s.core.slots.Get(k).pending
    ensures Leads(s, lookback, t, true)
    ensures !t.crashed && t.core.state == s.core.state && t.ledgers.Get(k).wire != []
    ensures t.core.stale == s.core.stale && t.core.counter == s.core.counter
    ensures t.core.slots.staleOrders == s.core.slots.staleOrders
    ensures other != k ==> Kept(s, t, other)
  {
    LeadsByStep(s, lookback, RestTimer({k}, {}), true);
    t := Step(s, lookback, RestTimer({k}, {}));
    RestTimerEffect(s, lookback, {k}, {});
    RestDrains(s, lookback, {k}, {});
    assert k in Fired(s.core.slots, {k});
  }

  /**
    Answers to the queries of an earlier round settle the new one before it is drained; the drain leaves the
    settlement in place, and READY is published with every query of the round still unanswered.
   */
  lemma TooSoonRun(s: System, lookback: bool) returns (t: System)
    requires Begun(s) && s.core.counter > 0
    ensures Leads(s, lookback, t, true)
    ensures !t.crashed && t.core.state == Done && t.core.counter == |s.core.stale| > 0
  {
    var b := SettledEarly(s, lookback);
    t := LeavesRound(b, lookback);
    LeadsOn(s, lookback, b, t, true);
    if lookback {
      var c := AwaitedAnswered(t, lookback, TradesKind, StaleOrdersKind);
      LeadsOn(s, lookback, t, c, true);
      t := TradesPass(c, lookback);
      LeadsOn(s, lookback, c, t, true);
    }
  }

  lemma TradesPass(s: System, lookback: bool) returns (t: System)
    requires !s.crashed && s.core.state == GetTrades && s.core.slots.Get(TradesKind).response
    ensures Leads(s, lookback, t, true)
    ensures !t.crashed && t.core.state == Done && t.core.counter == s.core.counter
  {
    LeadsByStep(s, lookback, SocketTimer({}), true);
    t := Step(s, lookback, SocketTimer({}));
  }

  lemma SettledEarly(s: System, lookback: bool) returns (t: System)
    requires Begun(s) && s.core.counter > 0
    ensures Leads(s, lookback, t, true)
    ensures !t.crashed && t.core.state == GetStaleOrders && t.core.slots.staleOrders.response && t.core.stale == {}
    ensures t.core.counter == |s.core.stale|
  {
    var a := AfterAnswers(s, s.core.counter);
    AnsweredAll(s, lookback, s.core.counter);
    assert a.core.slots.Get(StaleOrdersKind) == Slot(true, true);
    LeadsFurther(s, lookback, a, RestTimer({StaleOrdersKind}, s.core.stale), true);
    t := Step(a, lookback, RestTimer({StaleOrdersKind}, s.core.stale));
    RestDrains(a, lookback, {StaleOrdersKind}, s.core.stale);
    StepKeepsCounted(a, lookback, RestTimer({StaleOrdersKind}, s.core.stale));
    assert s.core.stale * s.core.stale == s.core.stale;
  }

  /** Some run of this login leaves the round, or even ends it with READY, while queries are unanswered. */
  ghost predicate CanGoOnTooSoon(s: System, lookback: bool, ready: bool) {
    exists events: seq<Event> ::
      InOneLogin(events) && WentOnTooSoon(RunFrom(s, lookback, events))
      && (ready ==> RunFrom(s, lookback, events).core.state == Done)
  }

  /**
    Within the login in which a round begins, the download can leave it, and even publish READY, with queries
    still unanswered if and only if queries of an earlier round were on the wire when the round began.
   */
  lemma ReadyTooSoonIff(s: System, lookback: bool)
    requires Begun(s)
    ensures CanGoOnTooSoon(s, lookback, false) <==> s.core.counter > 0
    ensures CanGoOnTooSoon(s, lookback, true) <==> s.core.counter > 0
  {
    if s.core.counter > 0 {
      var t := TooSoonRun(s, lookback);
      GoesOnTooSoon(s, lookback, t);
    } else {
      TidyNeverTooSoon(s, lookback);
    }
  }

  lemma GoesOnTooSoon(s: System, lookback: bool, t: System)
    requires Leads(s, lookback, t, true) && WentOnTooSoon(t) && t.core.state == Done
    ensures CanGoOnTooSoon(s, lookback, false) && CanGoOnTooSoon(s, lookback, true)
  {
    var events: seq<Event> :| InOneLogin(events) && RunFrom(s, lookback, events) == t;
  }

  lemma TidyNeverTooSoon(s: System, lookback: bool)
    requires Tidy(s)
    ensures !CanGoOnTooSoon(s, lookback, false) && !CanGoOnTooSoon(s, lookback, true)
  {
    forall events: seq<Event> | InOneLogin(events) ensures !WentOnTooSoon(RunFrom(s, lookback, events)) {
      OneLoginKeepsTidy(s, lookback, events);
    }
  }

  // ---------------------------------------------------------------- from the beginning

  /** Where the download goes when the open orders have been answered. */
  function AfterOpenOrders(stale: set<Key>, lookback: bool): State {
    if stale != {} then GetStaleOrders else if lookback then GetTrades else Done
  }

  /** A state entered asks for what it waits for and leaves any other kind alone. */
  predicate Entered(s: System, t: System, k: Kind) {
    !t.crashed && t.core.counter == s.core.counter
    && if Awaited(t.core.state) == Some(k) then JustAsked(s, t, k) else Kept(s, t, k)
  }

  /** One channel acknowledged, its snapshot asked for, answered and taken note of. */
  lemma SnapshotPhase(s: System, lookback: bool, lost: set<Key>, other: Kind) returns (t: System)
    requires !s.crashed && Subscribed(s.core.state).Some? && Awaited(s.core.state.Next()) != Some(other)
    ensures Leads(s, lookback, t, true) && Entered(s, t, other)
    ensures s.core.state != SubscribeOrders ==>
        t.core.state == s.core.state.Next().Next() && t.core.stale == s.core.stale
    ensures s.core.state == SubscribeOrders ==>
              t.core.stale == s.core.stale + lost && t.core.state == AfterOpenOrders(t.core.stale, lookback)
              && (t.core.stale != {} ==> t.core.slots.staleOrders == Slot(true, false))
  {
    var a, k := SnapshotAsked(s, lookback, other);
    var b := AwaitedAnswered(a, lookback, k, other);
    t := TimerPasses(b, lookback, lost, k, other);
    LeadsOn(s, lookback, a, b, true);
    LeadsOn(s, lookback, b, t, true);
  }

  lemma SnapshotAsked(s: System, lookback: bool, other: Kind) returns (t: System, k: Kind)
    requires !s.crashed && Subscribed(s.core.state).Some?
    ensures Leads(s, lookback, t, true) && Entered(s, t, other)
    ensures t.core.state == s.core.state.Next() && Awaited(t.core.state) == Some(k) && k != StaleOrdersKind
    ensures t.core.slots.Get(k).pending && t.core.stale == s.core.stale
    ensures t.core.state.Rank() < 9 && (t.core.state == GetOpenOrders <==> s.core.state == SubscribeOrders)
  {
    var e := SubscribeAck(Subscribed(s.core.state).value);
    LeadsByStep(s, lookback, e, true);
    t := Step(s, lookback, e);
    k := Awaited(s.core.state.Next()).value;
    NextOfChannel(s.core.state);
    EnteringEntered(s, lookback, e, k);
    EnteringEntered(s, lookback, e, other);
  }

  lemma NextOfChannel(s: State)
    requires Subscribed(s).Some?
    ensures Acknowledged(Subscribed(s).value) == Some(s)
    ensures Awaited(s.Next()).Some? && Awaited(s.Next()) != Some(StaleOrdersKind)
    ensures s.Next() != GetTrades && s.Next().Rank() < 9 && (s.Next() == GetOpenOrders <==> s == SubscribeOrders)
  {
  }

  lemma EnteringEntered(s: System, lookback: bool, e: Event, k: Kind)
    requires Possible(s, e) && OfSocket(e) && Entering(s, e).Some?
    ensures var t, b, st := Step(s, lookback, e), Entering(s, e).value.0, Entering(s, e).value.1;
      st != Idle && Entered(s, t, k) && t.core.stale == b.core.stale && t.core == Enter(b.core, lookback, st).0
      && (!Skipped(b.core, lookback, st) ==> t.core.state == st)
  {
    SocketStepIs(s, lookback, e);
    EnteringFrom(s, e);
    EntersFrom(Entering(s, e).value.0, lookback, Entering(s, e).value.1, k);
  }

  lemma EntersFrom(s: System, lookback: bool, st: State, k: Kind)
    requires !s.crashed && st != Idle
    ensures var t := After(s, lookback, st);
      Entered(s, t, k) && t.core.stale == s.core.stale && t.core == Enter(s.core, lookback, st).0
      && (!Skipped(s.core, lookback, st) ==> t.core.state == st)
  {
    EnterTouchesOne(s, lookback, st, k);
    EnterEmitsOne(s.core, lookback, st);
    AfterPerforms(s, lookback, st);
  }

  lemma TimerPasses(s: System, lookback: bool, lost: set<Key>, k: Kind, other: Kind) returns (t: System)
    requires !s.crashed && Awaited(s.core.state) == Some(k) && s.core.slots.Get(k).response
    requires s.core.state.Rank() < 9
    ensures Leads(s, lookback, t, true) && Entered(s, t, other)
    ensures s.core.state != GetOpenOrders ==> t.core.state == s.core.state.Next() && t.core.stale == s.core.stale
    ensures s.core.state == GetOpenOrders ==>
              t.core.stale == s.core.stale + lost && t.core.state == AfterOpenOrders(t.core.stale, lookback)
              && (t.core.stale != {} ==> t.core.slots.staleOrders == Slot(true, false))
  {
    LeadsByStep(s, lookback, SocketTimer(lost), true);
    t := Step(s, lookback, SocketTimer(lost));
    EnteringEntered(s, lookback, SocketTimer(lost), other);
    if s.core.state == GetOpenOrders {
      EntersAfterOpenOrders(Found(s, lost), lookback);
    }
  }

  lemma EntersAfterOpenOrders(s: System, lookback: bool)
    ensures var d := Enter(s.core, lookback, GetStaleOrders).0;
      d.state == AfterOpenOrders(s.core.stale, lookback)
      && (s.core.stale != {} ==> d.slots.staleOrders == Slot(true, false))
  {
  }

  lemma LoginPasses(s: System, lookback: bool) returns (t: System)
    requires !s.crashed
    ensures Leads(s, lookback, t, false)
    ensures !t.crashed && t.core == s.core.(state := SubscribeAccount)
  {
    LeadsByStep(s, lookback, LoginAck, false);
    t := Step(s, lookback, LoginAck);
  }

  /** A login, four phases, and orders that have been lost sight of: a round begins. */
  lemma LoginToRound(s: System, lookback: bool, lost: set<Key>) returns (t: System)
    requires Counted(s) && !s.crashed && lost != {}
    ensures Leads(s, lookback, t, false)
    ensures Begun(t) && t.core.counter == s.core.counter && t.core.stale == s.core.stale + lost
  {
    var z := LoginPasses(s, lookback);
    t := PhasesToRound(z, lookback, lost);
    LeadsAnyway(z, lookback, t);
    LeadsOn(s, lookback, z, t, false);
    LeadsKeepsCounted(s, lookback, t);
  }

  lemma {:induction false} PhasesToRound(s: System, lookback: bool, lost: set<Key>) returns (t: System)
    requires !s.crashed && Subscribed(s.core.state).Some? && lost != {}
    ensures Leads(s, lookback, t, true)
    ensures !t.crashed && t.core.counter == s.core.counter && t.core.state == GetStaleOrders
    ensures t.core.slots.staleOrders == Slot(true, false) && t.core.stale == s.core.stale + lost
    decreases 11 - s.core.state.Rank()
  {
    NoChannelAwaits(s.core.state);
    t := SnapshotPhase(s, lookback, lost, StaleOrdersKind);
    if s.core.state != SubscribeOrders {
      AfterChannel(s.core.state);
      var a := t;
      t := PhasesToRound(a, lookback, lost);
      LeadsOn(s, lookback, a, t, true);
    }
  }

  lemma NoChannelAwaits(s: State)
    requires Subscribed(s).Some?
    ensures Awaited(s.Next()) != Some(StaleOrdersKind) && Awaited(s.Next()) != Some(TradesKind)
  {
  }

  lemma AfterChannel(s: State)
    requires Subscribed(s).Some? && s != SubscribeOrders
    ensures Subscribed(s.Next().Next()).Some? && s.Rank() < s.Next().Next().Rank()
    ensures Awaited(s.Next().Next()) == None
  {
  }

  lemma LeadsKeepsCounted(s: System, lookback: bool, t: System)
    requires Counted(s) && Leads(s, lookback, t, false)
    ensures Counted(t)
  {
    var events: seq<Event> :| RunFrom(s, lookback, events) == t;
    RunKeepsCounted(s, lookback, events);
  }

  const LOST: set<Key> := {(0, 0)}

  /** A round drained, the socket lost with its query on the wire, and the next login's round begun. */
  lemma RoundWithBacklog(lookback: bool) returns (t: System)
    ensures Leads(Initial(), lookback, t, false)
    ensures Begun(t) && t.core.counter > 0
  {
    var a := LoginToRound(Initial(), lookback, LOST);
    var b := Step(a, lookback, RestTimer({StaleOrdersKind}, LOST));
    RestDrains(a, lookback, {StaleOrdersKind}, LOST);
    StepKeepsCounted(a, lookback, RestTimer({StaleOrdersKind}, LOST));
    assert a.core.stale * LOST == LOST;
    LeadsFurther(Initial(), lookback, a, RestTimer({StaleOrdersKind}, LOST), false);
    var c := Step(b, lookback, SocketDown);
    StepCore(b, lookback, SocketDown);
    StepKeepsCounted(b, lookback, SocketDown);
    LeadsFurther(Initial(), lookback, b, SocketDown, false);
    t := LoginToRound(c, lookback, LOST);
    LeadsOn(Initial(), lookback, c, t, false);
  }

  /** From the start of the process: a run that ends in the fatal error. */
  lemma CrashHappens(lookback: bool)
    ensures exists events: seq<Event> :: Run(lookback, events).crashed
  {
    var s := RoundWithBacklog(lookback);
    var t := CrashRun(s, lookback);
    LeadsAnyway(s, lookback, t);
    LeadsOn(Initial(), lookback, s, t, false);
    var events: seq<Event> :| RunFrom(Initial(), lookback, events) == t;
    assert Run(lookback, events).crashed;
  }

  /** From the start of the process: a run after which the download is stuck until the socket is lost. */
  lemma HangHappens(lookback: bool)
    ensures exists events: seq<Event> :: !Run(lookback, events).crashed && Stuck(Run(lookback, events), lookback)
  {
    var s := LoginToRound(Initial(), lookback, LOST);
    LeadsFurther(Initial(), lookback, s, RestTimer({StaleOrdersKind}, {}), false);
    var t := Step(s, lookback, RestTimer({StaleOrdersKind}, {}));
    StepKeepsCounted(s, lookback, RestTimer({StaleOrdersKind}, {}));
    RestDrains(s, lookback, {StaleOrdersKind}, {});
    assert s.core.stale * {} == {};
    HungIsStuck(t, lookback);
    var events: seq<Event> :| RunFrom(Initial(), lookback, events) == t;
    assert Stuck(Run(lookback, events), lookback);
  }

  /** A drain that finds no order listed and no query on the wire, and yet does not stick. */
  predicate DrainsInVain(s: System) {
    !s.crashed && s.core.state == GetStaleOrders && s.core.slots.staleOrders == Slot(true, true) && s.core.counter == 0
  }

  /** From the start of the process: answers to an earlier round have settled the one that is drained in vain. */
  lemma VainDrainPasses(lookback: bool)
    ensures exists events: seq<Event> ::
      DrainsInVain(Run(lookback, events))
      && !Stuck(Step(Run(lookback, events), lookback, RestTimer({StaleOrdersKind}, {})), lookback)
  {
    var s := RoundWithBacklog(lookback);
    var t := AfterAnswers(s, s.core.counter);
    AnsweredAll(s, lookback, s.core.counter);
    assert t.core.slots.Get(StaleOrdersKind) == Slot(true, true);
    LeadsAnyway(s, lookback, t);
    LeadsOn(Initial(), lookback, s, t, false);
    var events: seq<Event> :| RunFrom(Initial(), lookback, events) == t;
    assert DrainsInVain(Run(lookback, events));
    DrainHangsIff(lookback, events, {StaleOrdersKind}, {});
  }

  predicate ReadyTooSoon(s: System) {
    WentOnTooSoon(s) && s.core.state == Done && Readies(s.journal) == 1
  }

  /** From the start of the process: a run that publishes READY with queries about stale orders unanswered. */
  lemma ReadyTooSoonHappens(lookback: bool)
    ensures exists events: seq<Event> :: ReadyTooSoon(Run(lookback, events))
  {
    var t := TooSoonFromStart(lookback);
    DoneIsReady(lookback, t);
    ReadyTooSoonRun(lookback, t);
  }

  lemma TooSoonFromStart(lookback: bool) returns (t: System)
    ensures Leads(Initial(), lookback, t, false)
    ensures WentOnTooSoon(t) && t.core.state == Done
  {
    var s := RoundWithBacklog(lookback);
    t := TooSoonRun(s, lookback);
    LeadsAnyway(s, lookback, t);
    LeadsOn(Initial(), lookback, s, t, false);
  }

  lemma DoneIsReady(lookback: bool, t: System)
    requires Leads(Initial(), lookback, t, false) && t.core.state == Done
    ensures Readies(t.journal) == 1
  {
    var events: seq<Event> :| RunFrom(Initial(), lookback, events) == t;
    ReadyIsEarned(lookback, events);
  }

  lemma ReadyTooSoonRun(lookback: bool, t: System)
    requires Leads(Initial(), lookback, t, false) && ReadyTooSoon(t)
    ensures exists events: seq<Event> :: ReadyTooSoon(Run(lookback, events))
  {
    var events: seq<Event> :| RunFrom(Initial(), lookback, events) == t;
    assert ReadyTooSoon(Run(lookback, events));
  }
}
