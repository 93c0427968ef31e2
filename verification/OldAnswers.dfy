/**
  When a login of the account synchronisation protocol may take an answer to an old question for the answer to
  its own: what can be told at the login, both ways.
 */
module OldAnswers {
  import opened Wrappers
  import opened AccountSync
  import opened AccountLedger
  import opened StaleOrders

  /** A snapshot is about to be accepted although the latest answer is to an earlier question. */
  predicate OldAnswer(s: System, k: Kind) {
    !s.crashed && k != StaleOrdersKind && Awaited(s.core.state) == Some(k) && s.core.slots.Get(k).response
    && s.ledgers.Get(k).latest != s.ledgers.Get(k).asks
  }

  /** Some run of the login gets there. */
  ghost predicate AcceptsOld(s: System, lookback: bool) {
    exists events: seq<Event>, k: Kind :: InOneLogin(events) && OldAnswer(RunFrom(s, lookback, events), k)
  }

  lemma LoginKeeps(s: System, lookback: bool, k: Kind)
    requires !s.crashed
    ensures var t := Step(s, lookback, LoginAck);
      !t.crashed && t.core.state == SubscribeAccount && t.core.stale == s.core.stale && Kept(s, t, k)
  {
    EnterTouchesOne(s.(journal := []), lookback, SubscribeAccount, k);
  }

  /** An old question that waits to be sent, can be. */
  lemma OldQuestionOnWire(s: System, lookback: bool, k: Kind) returns (t: System)
    requires !s.crashed && k != StaleOrdersKind && !Settled(s, k)
    ensures Leads(s, lookback, t, true)
    ensures !t.crashed && t.core.state == s.core.state && t.ledgers.Get(k).wire != []
  {
    if s.ledgers.Get(k).wire != [] {
      LeadsSelf(s, lookback);
      t := s;
    } else {
      t := QuestionSent(s, lookback, k, StaleOrdersKind);
    }
  }

  /** From channel to channel to the state that waits for `k`. */
  lemma {:induction false} WalkHome(s: System, lookback: bool, k: Kind) returns (t: System)
    requires !s.crashed && Subscribed(s.core.state).Some? && s.core.state.Rank() < Home(k).Rank() <= 8
    ensures Leads(s, lookback, t, true)
    ensures !t.crashed && t.core.state == Home(k) && JustAsked(s, t, k)
    decreases 11 - s.core.state.Rank()
  {
    if Awaited(s.core.state.Next()) == Some(k) {
      var asked;
      t, asked := SnapshotAsked(s, lookback, k);
      HomeAwaits(t.core.state, k);
    } else {
      var a := SnapshotPhase(s, lookback, {}, k);
      BeforeHome(s.core.state, k);
      t := WalkHome(a, lookback, k);
      LeadsOn(s, lookback, a, t, true);
    }
  }

  lemma BeforeHome(s: State, k: Kind)
    requires Subscribed(s).Some? && s.Rank() < Home(k).Rank() <= 8 && Awaited(s.Next()) != Some(k)
    ensures s != SubscribeOrders && Subscribed(s.Next().Next()).Some?
    ensures s.Rank() < s.Next().Next().Rank() < Home(k).Rank() && Awaited(s.Next().Next()) != Some(k)
  {
  }

  /** From channel to channel, through a stale order round if there is one, to the trades. */
  lemma {:induction false} WalkToTrades(s: System, lookback: bool) returns (t: System)
    requires !s.crashed && Subscribed(s.core.state).Some? && lookback && Counted(s)
    ensures Leads(s, lookback, t, true)
    ensures !t.crashed && t.core.state == GetTrades && JustAsked(s, t, TradesKind)
    decreases 11 - s.core.state.Rank()
  {
    NoChannelAwaits(s.core.state);
    var a := SnapshotPhase(s, lookback, {}, TradesKind);
    LeadsAnyway(s, lookback, a);
    LeadsKeepsCounted(s, lookback, a);
    if s.core.state == SubscribeOrders {
      t := ThroughRound(s, a, lookback);
    } else {
      AfterChannel(s.core.state);
      t := WalkToTrades(a, lookback);
    }
    LeadsOn(s, lookback, a, t, true);
  }

  lemma ThroughRound(s: System, a: System, lookback: bool) returns (t: System)
    requires lookback && Entered(s, a, TradesKind) && Counted(a)
    requires a.core.state == AfterOpenOrders(a.core.stale, lookback)
    requires a.core.stale != {} ==> a.core.slots.staleOrders == Slot(true, false)
    ensures Leads(a, lookback, t, true)
    ensures !t.crashed && t.core.state == GetTrades && JustAsked(s, t, TradesKind)
  {
    if a.core.stale == {} {
      LeadsSelf(a, lookback);
      t := a;
    } else {
      var b := FullSetDrains(a, lookback);
      t := DrainedGoesOn(b, lookback);
      LeadsOn(a, lookback, b, t, true);
    }
  }

  lemma LeadsKeepsLedgers(s: System, lookback: bool, t: System)
    requires LedgersOk(s) && Leads(s, lookback, t, true)
    ensures LedgersOk(t)
  {
    var events: seq<Event> :| RunFrom(s, lookback, events) == t;
    RunFromKeepsLedgers(s, lookback, events);
  }

  lemma {:induction false} RunFromKeepsLedgers(s: System, lookback: bool, events: seq<Event>)
    requires LedgersOk(s)
    ensures LedgersOk(RunFrom(s, lookback, events))
    decreases |events|
  {
    if events != [] {
      var before := events[..|events| - 1];
      RunFromKeepsLedgers(s, lookback, before);
      if Possible(RunFrom(s, lookback, before), events[|events| - 1]) {
        StepKeepsLedgers(RunFrom(s, lookback, before), lookback, events[|events| - 1]);
      }
    }
  }

  /** The old question, first in line, is answered before the new one is even sent. */
  lemma OldAnswerComes(s: System, lookback: bool, k: Kind) returns (t: System)
    requires !s.crashed && k != StaleOrdersKind && Awaited(s.core.state) == Some(k) && LedgersOk(s)
    requires var l := s.ledgers.Get(k); l.wire != [] && l.backlog == |l.wire| && l.answers == 0
    ensures Leads(s, lookback, t, true) && OldAnswer(t, k)
  {
    assert LedgerOk(s.ledgers.Get(k), s.core.slots.Get(k));
    LeadsByStep(s, lookback, Answer(k), true);
    t := Step(s, lookback, Answer(k));
    assert t.core == s.core.(slots := Committed(s.core.slots, k));
  }

  lemma UnsettledAcceptsOld(s: System, lookback: bool, k: Kind)
    requires !s.crashed && Counted(s) && LedgersOk(s)
    requires InPlay(k, lookback) && !Settled(s, k)
    ensures AcceptsOld(Step(s, lookback, LoginAck), lookback)
  {
    var z := Step(s, lookback, LoginAck);
    LoginKeeps(s, lookback, k);
    StepKeepsCounted(s, lookback, LoginAck);
    StepKeepsLedgers(s, lookback, LoginAck);
    var a := OldQuestionOnWire(z, lookback, k);
    LeadsAnyway(z, lookback, a);
    LeadsKeepsCounted(z, lookback, a);
    var b := GoHome(a, lookback, k);
    LeadsOn(z, lookback, a, b, true);
    LeadsKeepsLedgers(z, lookback, b);
    var t := OldAnswerComes(b, lookback, k);
    LeadsOn(z, lookback, b, t, true);
    var events: seq<Event> :| InOneLogin(events) && RunFrom(z, lookback, events) == t;
    assert OldAnswer(RunFrom(z, lookback, events), k);
  }

  lemma GoHome(s: System, lookback: bool, k: Kind) returns (t: System)
    requires !s.crashed && s.core.state == SubscribeAccount && InPlay(k, lookback) && Counted(s)
    ensures Leads(s, lookback, t, true)
    ensures Awaited(t.core.state) == Some(k) && !t.crashed && JustAsked(s, t, k)
  {
    if k == TradesKind {
      t := WalkToTrades(s, lookback);
    } else {
      t := WalkHome(s, lookback, k);
      HomeAwaits(t.core.state, k);
    }
  }

  lemma SettledNeverOld(lookback: bool, history: seq<Event>)
    requires var s := Run(lookback, history);
      !s.crashed && forall k: Kind :: InPlay(k, lookback) ==> Settled(s, k)
    ensures !AcceptsOld(Step(Run(lookback, history), lookback, LoginAck), lookback)
  {
    forall events: seq<Event>, k: Kind | InOneLogin(events)
      ensures !OldAnswer(RunFrom(Step(Run(lookback, history), lookback, LoginAck), lookback, events), k)
    {
      if k != StaleOrdersKind {
        SettledLoginIsFresh(lookback, history, events, k);
      }
    }
  }

  /**
    After any run: in the login that begins now an old answer can be accepted for some snapshot if and only
    if some kind of request the login may wait for has a question unsent or on the wire.
   */
  lemma OldAnswerIff(lookback: bool, history: seq<Event>)
    requires !Run(lookback, history).crashed
    ensures AcceptsOld(Step(Run(lookback, history), lookback, LoginAck), lookback) <==>
            exists k: Kind :: InPlay(k, lookback) && !Settled(Run(lookback, history), k)
  {
    var s := Run(lookback, history);
    if k: Kind :| InPlay(k, lookback) && !Settled(s, k) {
      RunKeepsLedgers(lookback, history);
      RunKeepsCounted(Initial(), lookback, history);
      UnsettledAcceptsOld(s, lookback, k);
    } else {
      SettledNeverOld(lookback, history);
    }
  }
}
