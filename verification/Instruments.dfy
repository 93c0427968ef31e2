/**
  The instruments download of Rest: one question sends three requests, and the download is over when all
  three have been answered. `Step` is one event; the reference definition reads the history backwards.
 */
module Instruments {
  datatype Type = Spot | Swap | Futures

  /** A reply that arrives and parses opens the gate for its type, whatever code it carries. */
  datatype Reply = Parsed(code: int) | Failed

  datatype Event =
    | Asked                        // the venue has acknowledged the last instruments subscription
    | Timer(allowed: bool)
    | Replied(kind: Type, reply: Reply)
    | Down

  datatype State = State(pending: bool, response: bool, spot: bool, swap: bool, futures: bool) {
    predicate Downloading() { spot || swap || futures }

    predicate Waiting(t: Type) {
      match t
      case Spot => spot
      case Swap => swap
      case Futures => futures
    }

    function Arrived(t: Type): State {
      match t
      case Spot => this.(spot := false)
      case Swap => this.(swap := false)
      case Futures => this.(futures := false)
    }
  }

  /** The new state, the requests sent, and whether the download was declared over. */
  function Step(s: State, e: Event): (State, seq<Type>, bool) {
    match e
    case Asked => (s.(pending := true, response := false), [], false)
    case Timer(allowed) =>
      if allowed && s.pending then
        (s.(pending := false, spot := true, swap := true, futures := true), [Spot, Swap, Futures], false)
      else (s, [], false)
    case Replied(t, reply) =>
      var n := if reply.Parsed? then s.Arrived(t) else s;
      if n.Downloading() then (n, [], false) else (n.(response := true), [], true)
    case Down => (s.(spot := false, swap := false, futures := false), [], false)
  }

  class Rest {
    var pending: bool
    var response: bool
    var spot: bool
    var swap: bool
    var futures: bool

    constructor ()
      ensures View() == State(false, false, false, false, false)
    {
      pending, response, spot, swap, futures := false, false, false, false, false;
    }

    ghost function View(): State
      reads this
    {
      State(pending, response, spot, swap, futures)
    }

    method RequestInstruments()
      modifies this
      ensures View() == Step(old(View()), Asked).0
    {
      pending := true;
      response := false;
    }

    method CheckRequestQueue(allowed: bool) returns (sent: seq<Type>)
      modifies this
      ensures (View(), sent, false) == Step(old(View()), Timer(allowed))
    {
      sent := [];
      if allowed && pending {
        pending := false;
        sent := sent + [Spot];
        spot := true;
        sent := sent + [Swap];
        swap := true;
        sent := sent + [Futures];
        futures := true;
        assert sent == [Spot, Swap, Futures];
      }
    }

    method GetInstrumentsAck(t: Type, reply: Reply) returns (committed: bool)
      modifies this
      ensures (View(), [], committed) == Step(old(View()), Replied(t, reply))
    {
      committed := false;
      if reply.Parsed? {
        match t {
          case Spot => spot := false;
          case Swap => swap := false;
          case Futures => futures := false;
        }
      }
      if !(spot || swap || futures) {
        response := true;
        committed := true;
      }
    }

    method Disconnected()
      modifies this
      ensures View() == Step(old(View()), Down).0
    {
      spot, swap, futures := false, false, false;
    }
  }

  // ---------------------------------------------------------------- histories

  function Run(h: seq<Event>): State {
    if h == [] then State(false, false, false, false, false) else Step(Run(h[..|h| - 1]), h[|h| - 1]).0
  }

  /** Does an event end the download, given what went before? */
  predicate Commits(h: seq<Event>, e: Event) {
    Step(Run(h), e).2
  }

  predicate Pending(h: seq<Event>) {
    h != [] &&
    match h[|h| - 1]
    case Asked => true
    case Timer(allowed) => !allowed && Pending(h[..|h| - 1])
    case _ => Pending(h[..|h| - 1])
  }

  /** The requests go out with a timer that is allowed to and has something to send. */
  predicate SendsAt(h: seq<Event>, i: nat)
    requires i < |h|
  {
    h[i] == Timer(true) && Pending(h[..i])
  }

  /** Reading backwards: the latest of sending, losing the connection and a parsed reply was sending. */
  predicate Outstanding(h: seq<Event>, t: Type) {
    h != [] &&
    var n := |h| - 1;
    if SendsAt(h, n) then true
    else if h[n] == Down || (h[n].Replied? && h[n].kind == t && h[n].reply.Parsed?) then false
    else Outstanding(h[..n], t)
  }

  lemma {:induction false} FlagsFollowHistory(h: seq<Event>)
    ensures Run(h).pending == Pending(h)
    ensures forall t :: Run(h).Waiting(t) == Outstanding(h, t)
  {
    if h != [] {
      FlagsFollowHistory(h[..|h| - 1]);
    }
  }

  /** Reading backwards: an end of the download came after the latest question. */
  predicate Ended(h: seq<Event>) {
    h != [] &&
    var front, e := h[..|h| - 1], h[|h| - 1];
    Commits(front, e) || (e != Asked && Ended(front))
  }

  /** The response that others wait for is there exactly when a download has ended since the latest question. */
  lemma {:induction false} ResponseFollowsHistory(h: seq<Event>)
    ensures Run(h).response == Ended(h)
  {
    if h != [] {
      ResponseFollowsHistory(h[..|h| - 1]);
    }
  }

  /** Of one event: which types are requested, and that exactly their flags go up. */
  lemma RequestRaisesFlag(s: State, e: Event, t: Type)
    ensures var (n, sent, _) := Step(s, e);
      (t in sent <==> e == Timer(true) && s.pending)
      && (t in sent ==> n.Waiting(t))
      && (n.Waiting(t) && !s.Waiting(t) ==> t in sent)
      && multiset(sent)[t] <= 1
  {
  }

  /** In every run: the three types, each once, exactly when a question goes out. */
  lemma RequestsFollowFlags(h: seq<Event>, e: Event, t: Type)
    ensures var (s, sent, _) := Step(Run(h), e);
      (t in sent <==> SendsAt(h + [e], |h|))
      && (t in sent ==> s.Waiting(t))
      && (s.Waiting(t) && !Run(h).Waiting(t) ==> t in sent)
      && multiset(sent)[t] <= 1
  {
    FlagsFollowHistory(h);
    RequestRaisesFlag(Run(h), e, t);
    assert (h + [e])[..|h|] == h && (h + [e])[|h|] == e;
  }

  /** In every run an event ends the download if and only if it is a reply that leaves no type outstanding. */
  lemma CommitsIff(h: seq<Event>, e: Event)
    ensures Commits(h, e) <==> e.Replied? && NothingOutstanding(h + [e])
  {
    FlagsFollowHistory(h + [e]);
    assert (h + [e])[..|h|] == h;
    OutstandingByType(h + [e]);
    var s := Run(h + [e]);
    assert s == Step(Run(h), e).0;
    assert s.Waiting(Spot) == s.spot && s.Waiting(Swap) == s.swap && s.Waiting(Futures) == s.futures;
  }

  predicate NothingOutstanding(h: seq<Event>) {
    forall t :: !Outstanding(h, t)
  }

  lemma OutstandingByType(h: seq<Event>)
    ensures NothingOutstanding(h) <==> !Outstanding(h, Spot) && !Outstanding(h, Swap) && !Outstanding(h, Futures)
  {
    forall t ensures Outstanding(h, t) ==> Outstanding(h, Spot) || Outstanding(h, Swap) || Outstanding(h, Futures) {
      match t
      case Spot =>
      case Swap =>
      case Futures =>
    }
  }

  predicate Seen(es: seq<Event>, t: Type) {
    exists i :: 0 <= i < |es| && ParsedReply(es[i], t)
  }

  predicate Lost(es: seq<Event>) {
    exists i :: 0 <= i < |es| && es[i] == Down
  }

  /** Nothing is sent after the first `n` events. */
  predicate NothingSentFrom(h: seq<Event>, n: nat) {
    forall i :: n <= i < |h| ==> !SendsAt(h, i)
  }

  lemma NothingSentFront(h: seq<Event>, n: nat)
    requires n < |h| && NothingSentFrom(h, n)
    ensures NothingSentFrom(h[..|h| - 1], n) && !SendsAt(h, |h| - 1)
  {
    var g := h[..|h| - 1];
    forall i | n <= i < |g| ensures !SendsAt(g, i) {
      assert g[..i] == h[..i] && g[i] == h[i];
      assert !SendsAt(h, i);
    }
  }

  predicate ParsedReply(e: Event, t: Type) {
    e.Replied? && e.kind == t && e.reply.Parsed?
  }

  lemma SeenAppend(es: seq<Event>, e: Event, t: Type)
    ensures Seen(es + [e], t) <==> Seen(es, t) || ParsedReply(e, t)
    ensures Lost(es + [e]) <==> Lost(es) || e == Down
  {
    var all := es + [e];
    assert all[|es|] == e;
    assert forall i :: 0 <= i < |es| ==> all[i] == es[i];
    if Seen(es, t) {
      var i :| 0 <= i < |es| && ParsedReply(es[i], t);
      assert ParsedReply(all[i], t);
    }
    if Lost(es) {
      var i :| 0 <= i < |es| && es[i] == Down;
      assert all[i] == Down;
    }
  }

  lemma OutstandingAppend(h: seq<Event>, e: Event, t: Type)
    requires !SendsAt(h + [e], |h|)
    ensures Outstanding(h + [e], t) <==> Outstanding(h, t) && e != Down && !ParsedReply(e, t)
  {
    assert (h + [e])[..|h|] == h;
  }

  /** After a sending at the end of `h`, until the next: outstanding means neither answered nor lost. */
  lemma {:induction false} OutstandingIsUnseen(h: seq<Event>, es: seq<Event>, t: Type)
    requires h != [] && SendsAt(h, |h| - 1) && NothingSentFrom(h + es, |h|)
    ensures Outstanding(h + es, t) <==> !Seen(es, t) && !Lost(es)
    decreases |es|
  {
    if es == [] {
      assert h + es == h;
    } else {
      var front, e := es[..|es| - 1], es[|es| - 1];
      assert es == front + [e] && h + es == (h + front) + [e];
      assert (h + es)[..|h + es| - 1] == h + front;
      NothingSentFront(h + es, |h|);
      OutstandingIsUnseen(h, front, t);
      OutstandingAppend(h + front, e, t);
      SeenAppend(front, e, t);
    }
  }

  /**
    Until the next sending, a reply ends the download if and only if the connection has been lost since, or
    by then each of the three types has had a reply that parsed.
   */
  lemma RoundCommitsIff(h: seq<Event>, es: seq<Event>, e: Event)
    requires h != [] && SendsAt(h, |h| - 1) && NothingSentFrom(h + es, |h|) && e.Replied?
    ensures Commits(h + es, e) <==> Lost(es) || forall t :: Seen(es + [e], t)
  {
    CommitsIff(h + es, e);
    ReplySendsNothing(h + es, e, |h|);
    assert h + es + [e] == h + (es + [e]);
    SeenAppend(es, e, Spot);
    forall t ensures Outstanding(h + es + [e], t) <==> !Seen(es + [e], t) && !Lost(es) {
      OutstandingIsUnseen(h, es + [e], t);
    }
    if !Lost(es) && !NothingOutstanding(h + es + [e]) {
      var t :| Outstanding(h + es + [e], t);
      assert !Seen(es + [e], t);
    }
    if !Lost(es) && NothingOutstanding(h + es + [e]) {
      forall t ensures Seen(es + [e], t) {
        assert !Outstanding(h + es + [e], t);
      }
    }
  }

  lemma ReplySendsNothing(h: seq<Event>, e: Event, n: nat)
    requires n <= |h| && NothingSentFrom(h, n) && e.Replied?
    ensures NothingSentFrom(h + [e], n)
  {
    forall i | n <= i < |h + [e]| ensures !SendsAt(h + [e], i) {
      if i < |h| {
        assert (h + [e])[..i] == h[..i] && (h + [e])[i] == h[i];
        assert !SendsAt(h, i);
      }
    }
  }

  // ---------------------------------------------------------------- replies with an error code

  /** The venue has sent the instruments of a type. */
  predicate Fetched(es: seq<Event>, t: Type) {
    exists i :: 0 <= i < |es| && es[i].Replied? && es[i].kind == t && es[i].reply == Parsed(0)
  }

  predicate NoErrorCodes(es: seq<Event>) {
    forall i :: 0 <= i < |es| && es[i].Replied? && es[i].reply.Parsed? ==> es[i].reply.code == 0
  }

  /** One request, at most one reply that parses. */
  predicate OncePerType(es: seq<Event>) {
    forall i, j ::
      0 <= i < j < |es| && es[i].Replied? && es[i].reply.Parsed? && es[j].Replied? && es[j].reply.Parsed? ==>
        es[i].kind != es[j].kind
  }

  /**
    When a round without a disconnect, and with one reply for each request, is declared over, all three types
    have been fetched if and only if none of the replies that parsed carried an error code.
   */
  lemma RoundFetchesAllIff(h: seq<Event>, es: seq<Event>, e: Event)
    requires h != [] && SendsAt(h, |h| - 1) && NothingSentFrom(h + es, |h|) && !Lost(es) && OncePerType(es + [e])
    requires e.Replied? && Commits(h + es, e)
    ensures (forall t :: Fetched(es + [e], t)) <==> NoErrorCodes(es + [e])
  {
    var all := es + [e];
    RoundCommitsIff(h, es, e);
    if NoErrorCodes(all) {
      forall t ensures Fetched(all, t) {
        assert Seen(all, t);
        var i :| 0 <= i < |all| && ParsedReply(all[i], t);
        assert all[i].reply == Parsed(0);
      }
    } else {
      var i :| 0 <= i < |all| && all[i].Replied? && all[i].reply.Parsed? && all[i].reply.code != 0;
      assert !Fetched(all, all[i].kind);
    }
  }

  const ROUND: seq<Event> := [Asked, Timer(true)]

  lemma RoundSends()
    ensures SendsAt(ROUND, 1) && Run(ROUND) == State(false, false, true, true, true)
  {
    assert ROUND[..1] == [Asked] && ROUND[..1][..0] == [];
    assert Run([Asked]) == State(true, false, false, false, false);
  }

  /** A round declared over with the spot instruments refused by the venue. */
  lemma RefusedRoundCommits(code: int)
    ensures var es := [Replied(Spot, Parsed(code)), Replied(Swap, Parsed(0))];
      Commits(ROUND + es, Replied(Futures, Parsed(0)))
      && (code != 0 ==> !Fetched(es + [Replied(Futures, Parsed(0))], Spot))
  {
    RoundSends();
    var a, b := ROUND + [Replied(Spot, Parsed(code))], ROUND + [Replied(Spot, Parsed(code)), Replied(Swap, Parsed(0))];
    assert a[..2] == ROUND && b[..3] == a;
    assert Run(a) == State(false, false, false, true, true);
    assert Run(b) == State(false, false, false, false, true);
  }

  lemma {:induction false} NothingStaysOutstanding(h: seq<Event>, es: seq<Event>)
    requires NothingOutstanding(h) && NothingSentFrom(h + es, |h|)
    ensures NothingOutstanding(h + es)
    decreases |es|
  {
    if es == [] {
      assert h + es == h;
    } else {
      var front, e := es[..|es| - 1], es[|es| - 1];
      assert h + es == (h + front) + [e] && (h + es)[..|h + es| - 1] == h + front;
      NothingSentFront(h + es, |h|);
      NothingStaysOutstanding(h, front);
      forall t ensures !Outstanding(h + es, t) {
        OutstandingAppend(h + front, e, t);
      }
    }
  }

  /** From the loss of the connection to the next sending any reply declares the download over, even a failed one. */
  lemma LostRoundCommits(h: seq<Event>, es: seq<Event>, t: Type, reply: Reply)
    requires h != [] && h[|h| - 1] == Down && NothingSentFrom(h + es, |h|)
    ensures Commits(h + es, Replied(t, reply))
  {
    var e := Replied(t, reply);
    NothingStaysOutstanding(h, es);
    CommitsIff(h + es, e);
    forall u ensures !Outstanding(h + es + [e], u) {
      OutstandingAppend(h + es, e, u);
    }
  }

  /** So a round can end with nothing received at all. */
  lemma NothingReceivedCommits(t: Type)
    ensures Commits(ROUND + [Down], Replied(t, Failed)) && forall u :: !Seen([Down] + [Replied(t, Failed)], u)
  {
    LostRoundCommits(ROUND + [Down], [], t, Failed);
    assert ROUND + [Down] + [] == ROUND + [Down];
  }
}
