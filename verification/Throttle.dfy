/**
  The rate limit interceptor (src/roq/okx/tools/throttle.cpp): until when requests are suspended, as a
  function of the whole history of responses. Times are nanoseconds; the value of a Retry-After header is
  taken for milliseconds since the epoch, as the code does.
 */
module Throttle {
  const DEFAULT_BACKOFF := 5_000_000_000
  const BLOCKED_BACKOFF := 600_000_000_000
  const MILLISECOND := 1_000_000
  const SECOND := 1_000_000_000

  function LowerChar(c: char): char {
    if 'A' <= c <= 'Z' then (c as int - 'A' as int + 'a' as int) as char else c
  }

  function Lower(text: string): (r: string)
    ensures |r| == |text| && forall k :: 0 <= k < |r| ==> r[k] == LowerChar(text[k])
  {
    seq(|text|, k requires 0 <= k < |text| => LowerChar(text[k]))
  }

  predicate IsRetryAfter(name: string) {
    Lower(name) == "retry-after"
  }

  datatype HttpStatus = Forbidden | TooManyRequests | OtherStatus

  /** A header, with what its value parses to, or the end of a message; and the two clocks at that moment. */
  datatype Event =
    | Header(name: string, value: int, now: int, nowUtc: int)
    | End(status: HttpStatus, now: int)

  datatype State = State(retryAfter: int, suspendUntil: int)

  function Max(a: int, b: int): int { if a < b then b else a }

  function RetryTarget(value: int, now: int, nowUtc: int): int {
    if nowUtc < value * MILLISECOND then now + (value * MILLISECOND - nowUtc) else now + DEFAULT_BACKOFF
  }

  function Step(enabled: bool, s: State, e: Event): State {
    match e
    case Header(name, value, now, nowUtc) =>
      if !IsRetryAfter(name) || value == s.retryAfter then s
      else State(value, if enabled then Max(s.suspendUntil, RetryTarget(value, now, nowUtc)) else s.suspendUntil)
    case End(status, now) =>
      if !enabled then s
      else
        match status
        case Forbidden => s.(suspendUntil := Max(s.suspendUntil, now + BLOCKED_BACKOFF))
        case TooManyRequests => if s.suspendUntil == 0 then s.(suspendUntil := now + DEFAULT_BACKOFF) else s
        case OtherStatus => s
  }

  class Interceptor {
    const enabled: bool
    var retryAfter: int
    var suspendUntil: int

    constructor (enabled: bool)
      ensures this.enabled == enabled && View() == State(0, 0)
    {
      this.enabled := enabled;
      retryAfter, suspendUntil := 0, 0;
    }

    ghost function View(): State
      reads this
    {
      State(retryAfter, suspendUntil)
    }

    method MessageHeader(name: string, value: int, now: int, nowUtc: int)
      modifies this
      ensures View() == Step(enabled, old(View()), Header(name, value, now, nowUtc))
    {
      if IsRetryAfter(name) {
        var changed := retryAfter != value;
        retryAfter := value;
        if changed && enabled {
          var timestamp := retryAfter * MILLISECOND;
          if nowUtc < timestamp {
            var period := timestamp - nowUtc;
            suspendUntil := Max(suspendUntil, now + period);
          } else {
            suspendUntil := Max(suspendUntil, now + DEFAULT_BACKOFF);
          }
        }
      }
    }

    method MessageEnd(status: HttpStatus, now: int)
      modifies this
      ensures View() == Step(enabled, old(View()), End(status, now))
    {
      if !enabled {
        return;
      }
      match status {
        case Forbidden => suspendUntil := Max(suspendUntil, now + BLOCKED_BACKOFF);
        case TooManyRequests =>
          if suspendUntil == 0 {
            suspendUntil := now + DEFAULT_BACKOFF;
          }
        case OtherStatus =>
      }
    }
  }

  // ---------------------------------------------------------------- histories

  function Run(enabled: bool, h: seq<Event>): State {
    if h == [] then State(0, 0) else Step(enabled, Run(enabled, h[..|h| - 1]), h[|h| - 1])
  }

  /** The value of the latest Retry-After header, zero before the first. */
  function LatestRetryAfter(h: seq<Event>): int {
    if h == [] then 0
    else
      var e := h[|h| - 1];
      if e.Header? && IsRetryAfter(e.name) then e.value else LatestRetryAfter(h[..|h| - 1])
  }

  /** An event that asks for a suspension: a 403, a 429, or a Retry-After with a new value. */
  predicate Triggers(h: seq<Event>, i: nat)
    requires i < |h|
  {
    match h[i]
    case Header(name, value, _, _) => IsRetryAfter(name) && value != LatestRetryAfter(h[..i])
    case End(status, _) => status != OtherStatus
  }

  predicate FirstTrigger(h: seq<Event>, i: nat)
    requires i < |h|
  {
    Triggers(h, i) && forall j :: 0 <= j < i ==> !Triggers(h, j)
  }

  /** A 429 counts only as the first trigger of the whole history. */
  predicate Counts(h: seq<Event>, i: nat)
    requires i < |h|
  {
    if h[i].End? && h[i].status == TooManyRequests then FirstTrigger(h, i) else Triggers(h, i)
  }

  function Target(e: Event): int {
    match e
    case Header(_, value, now, nowUtc) => RetryTarget(value, now, nowUtc)
    case End(Forbidden, now) => now + BLOCKED_BACKOFF
    case End(_, now) => now + DEFAULT_BACKOFF
  }

  predicate PositiveClocks(h: seq<Event>) {
    forall i :: 0 <= i < |h| ==> h[i].now > 0
  }

  lemma TriggersAppend(h: seq<Event>, e: Event, i: nat)
    requires i < |h|
    ensures Triggers(h + [e], i) == Triggers(h, i)
  {
    assert (h + [e])[..i] == h[..i];
  }

  lemma CountsAppend(h: seq<Event>, e: Event, i: nat)
    requires i < |h|
    ensures Counts(h + [e], i) == Counts(h, i)
  {
    TriggersAppend(h, e, i);
    forall j | 0 <= j < i ensures Triggers(h + [e], j) == Triggers(h, j) {
      TriggersAppend(h, e, j);
    }
  }

  lemma {:induction false} RunTracksHeader(enabled: bool, h: seq<Event>)
    ensures Run(enabled, h).retryAfter == LatestRetryAfter(h)
  {
    if h != [] {
      RunTracksHeader(enabled, h[..|h| - 1]);
    }
  }

  predicate NothingTriggers(h: seq<Event>) {
    forall i :: 0 <= i < |h| ==> !Triggers(h, i)
  }

  /** No counted target is later, and there is one, or else nothing has triggered. */
  predicate IsLatestTarget(h: seq<Event>, until: int) {
    until >= 0
    && (forall i :: 0 <= i < |h| && Counts(h, i) ==> Target(h[i]) <= until)
    && (until == 0 <==> NothingTriggers(h))
    && (until != 0 ==> exists i :: 0 <= i < |h| && Counts(h, i) && Target(h[i]) == until)
  }

  /** What the last event adds to the latest target. */
  lemma LastEvent(h: seq<Event>, e: Event)
    requires e.now > 0 && Run(true, h).suspendUntil >= 0
    requires Run(true, h).suspendUntil == 0 <==> NothingTriggers(h)
    ensures var n, before, after := |h|, Run(true, h).suspendUntil, Run(true, h + [e]).suspendUntil;
      after == if Counts(h + [e], n) then Max(before, Target(e)) else before
  {
    assert (h + [e])[..|h|] == h;
    assert Run(true, h + [e]) == Step(true, Run(true, h), e);
    RunTracksHeader(true, h);
    FirstOfAll(h, e);
    assert Triggers(h + [e], |h|) <==>
           if e.Header? then IsRetryAfter(e.name) && e.value != LatestRetryAfter(h) else e.status != OtherStatus;
  }

  lemma FirstOfAll(h: seq<Event>, e: Event)
    ensures FirstTrigger(h + [e], |h|) <==> Triggers(h + [e], |h|) && NothingTriggers(h)
  {
    forall j | 0 <= j < |h| ensures Triggers(h + [e], j) == Triggers(h, j) {
      TriggersAppend(h, e, j);
    }
  }

  lemma NothingTriggersAppend(h: seq<Event>, e: Event)
    ensures NothingTriggers(h + [e]) <==> NothingTriggers(h) && !Triggers(h + [e], |h|)
  {
    forall j | 0 <= j < |h| ensures Triggers(h + [e], j) == Triggers(h, j) {
      TriggersAppend(h, e, j);
    }
  }

  lemma LatestTargetExtends(h: seq<Event>, e: Event)
    requires e.now > 0 && IsLatestTarget(h, Run(true, h).suspendUntil)
    ensures IsLatestTarget(h + [e], Run(true, h + [e]).suspendUntil)
  {
    var g, n, before, after := h + [e], |h|, Run(true, h).suspendUntil, Run(true, h + [e]).suspendUntil;
    LastEvent(h, e);
    NothingTriggersAppend(h, e);
    assert Target(e) > 0;
    forall i | 0 <= i < |g| && Counts(g, i) ensures Target(g[i]) <= after {
      if i < n { CountsAppend(h, e, i); }
    }
    if after != 0 {
      if after == before {
        var i :| 0 <= i < n && Counts(h, i) && Target(h[i]) == before;
        CountsAppend(h, e, i);
        assert Counts(g, i) && Target(g[i]) == after;
      } else {
        assert Counts(g, n) && Target(g[n]) == after;
      }
    }
  }

  /**
    The closed form, for any history with positive clocks: while enabled, the suspension ends at the
    latest of the targets of all events that count, and there is none before the first of them.
   */
  lemma {:induction false} SuspensionIsLatestTarget(h: seq<Event>)
    requires PositiveClocks(h)
    ensures IsLatestTarget(h, Run(true, h).suspendUntil)
  {
    if h != [] {
      var n := |h| - 1;
      SuspensionIsLatestTarget(h[..n]);
      assert h == h[..n] + [h[n]];
      LatestTargetExtends(h[..n], h[n]);
    }
  }

  lemma StepNeverShrinks(s: State, e: Event)
    requires s.suspendUntil >= 0 && e.now > 0
    ensures s.suspendUntil <= Step(true, s, e).suspendUntil
  {
  }

  /** The suspension is never cut short; a 403 suspends for at least ten minutes from its moment. */
  lemma {:induction false} SuspensionNeverShrinks(h: seq<Event>, more: seq<Event>)
    requires PositiveClocks(h + more)
    ensures Run(true, h).suspendUntil <= Run(true, h + more).suspendUntil
    ensures h != [] && h[|h| - 1].End? && h[|h| - 1].status == Forbidden ==>
              h[|h| - 1].now + 600 * SECOND <= Run(true, h + more).suspendUntil
    decreases |more|
  {
    assert forall i :: 0 <= i < |h| ==> h[i] == (h + more)[i];
    if more == [] {
      assert h + more == h;
    } else {
      var front := h + more[..|more| - 1];
      assert (h + more)[..|h + more| - 1] == front;
      assert forall i :: 0 <= i < |front| ==> front[i] == (h + more)[i];
      SuspensionNeverShrinks(h, more[..|more| - 1]);
      SuspensionIsLatestTarget(front);
      StepNeverShrinks(Run(true, front), (h + more)[|h + more| - 1]);
    }
  }

  /** A disabled interceptor never suspends anything. */
  lemma {:induction false} DisabledNeverSuspends(h: seq<Event>)
    ensures Run(false, h).suspendUntil == 0
  {
    if h != [] {
      DisabledNeverSuspends(h[..|h| - 1]);
    }
  }

  // ---------------------------------------------------------------- what was asked for

  /** An event that counted has a target at least that late. */
  predicate SomeTargetReaches(h: seq<Event>, until: int) {
    exists i :: 0 <= i < |h| && Counts(h, i) && until <= Target(h[i])
  }

  lemma LatestTargetReaches(h: seq<Event>, suspended: int, until: int)
    requires until > 0 && IsLatestTarget(h, suspended)
    ensures until <= suspended <==> SomeTargetReaches(h, until)
  {
    if until <= suspended {
      var i :| 0 <= i < |h| && Counts(h, i) && Target(h[i]) == suspended;
    }
  }

  lemma LastEventReaches(h: seq<Event>, e: Event, until: int)
    requires PositiveClocks(h) && e.now > 0 && until > 0
    ensures until <= Run(true, h + [e]).suspendUntil <==>
            (Counts(h + [e], |h|) && until <= Target(e)) || SomeTargetReaches(h, until)
  {
    SuspensionIsLatestTarget(h);
    LatestTargetReaches(h, Run(true, h).suspendUntil, until);
    LastEvent(h, e);
  }

  /**
    A Retry-After header asks for a delay in seconds (section 10.2.3 of RFC 9110). After any history requests
    are held back for that long if and only if the value is new and no more than the five seconds that are
    granted to any value in the past, or an event that counted has a target at least that late.
   */
  lemma RetryAfterHonouredIff(h: seq<Event>, name: string, value: int, now: int, nowUtc: int)
    requires PositiveClocks(h) && now > 0 && nowUtc > 0 && value >= 0 && IsRetryAfter(name)
    ensures now + value * SECOND <= Run(true, h + [Header(name, value, now, nowUtc)]).suspendUntil <==>
            (value != LatestRetryAfter(h) && value <= 5 && nowUtc >= value * 1_000_000)
            || SomeTargetReaches(h, now + value * SECOND)
  {
    LastEventReaches(h, Header(name, value, now, nowUtc), now + value * SECOND);
    HeaderTriggers(h, Header(name, value, now, nowUtc));
    TargetReaches(value, now, nowUtc);
  }

  lemma HeaderTriggers(h: seq<Event>, e: Event)
    requires e.Header? && IsRetryAfter(e.name)
    ensures Counts(h + [e], |h|) <==> e.value != LatestRetryAfter(h)
  {
    assert (h + [e])[..|h|] == h;
  }

  lemma TargetReaches(value: int, now: int, nowUtc: int)
    requires value >= 0 && nowUtc > 0
    ensures now + value * SECOND <= RetryTarget(value, now, nowUtc) <==> value <= 5 && nowUtc >= value * MILLISECOND
  {
  }

  /** A moment in the future, by the code's own reading, is waited for to the nanosecond, whatever came before. */
  lemma FutureMomentIsWaitedFor(h: seq<Event>, name: string, value: int, now: int, nowUtc: int)
    requires PositiveClocks(h) && now > 0 && 0 < nowUtc < value * 1_000_000
    requires IsRetryAfter(name) && value != LatestRetryAfter(h)
    ensures var until := Run(true, h + [Header(name, value, now, nowUtc)]).suspendUntil;
      nowUtc + (until - now) >= value * 1_000_000
      && (NothingTriggers(h) ==> nowUtc + (until - now) == value * 1_000_000)
  {
    var e := Header(name, value, now, nowUtc);
    SuspensionIsLatestTarget(h);
    LastEvent(h, e);
    HeaderTriggers(h, e);
  }

  /** A moment in the past, or now, is taken for five seconds. */
  lemma PastMomentIsFiveSeconds(h: seq<Event>, name: string, value: int, now: int, nowUtc: int)
    requires PositiveClocks(h) && now > 0 && nowUtc >= value * 1_000_000
    requires IsRetryAfter(name) && value != LatestRetryAfter(h)
    ensures var until := Run(true, h + [Header(name, value, now, nowUtc)]).suspendUntil;
      until >= now + 5 * SECOND && (NothingTriggers(h) ==> until == now + 5 * SECOND)
  {
    var e := Header(name, value, now, nowUtc);
    SuspensionIsLatestTarget(h);
    LastEvent(h, e);
    HeaderTriggers(h, e);
  }

  /** The name is compared letter by letter, small or capital. */
  lemma HeaderNameIff(name: string)
    ensures IsRetryAfter(name) <==>
            |name| == 11 && forall k :: 0 <= k < 11 ==> name[k] == "retry-after"[k] || name[k] == "RETRY-AFTER"[k]
  {
    var small, capital := "retry-after", "RETRY-AFTER";
    assert |small| == 11 && |capital| == 11;
    if |name| == 11 {
      forall k | 0 <= k < 11
        ensures LowerChar(name[k]) == small[k] <==> name[k] == small[k] || name[k] == capital[k]
      {
        LetterOrSign(small[k], capital[k], name[k]);
      }
      assert IsRetryAfter(name) <==> forall k :: 0 <= k < 11 ==> Lower(name)[k] == small[k];
    }
  }

  lemma LetterOrSign(small: char, capital: char, c: char)
    requires ('a' <= small <= 'z' && capital as int == small as int - 32) || (small == '-' && capital == '-')
    ensures LowerChar(c) == small <==> c == small || c == capital
  {
  }

  /** Half a minute asked for, in November 2023, before anything else: five seconds granted. */
  lemma HalfMinuteIsFiveSeconds(now: int)
    requires now > 0
    ensures Run(true, [Header("Retry-After", 30, now, 1_700_000_000 * SECOND)]).suspendUntil == now + 5 * SECOND
  {
    var h := [Header("Retry-After", 30, now, 1_700_000_000 * SECOND)];
    assert h[..0] == [];
    assert Lower("Retry-After") == "retry-after";
  }

  /** Five seconds asked for again a minute later: nothing granted. */
  lemma RepeatedHeaderIsIgnored(now: int)
    requires now > 0
    ensures var first := Header("Retry-After", 5, now, 1_700_000_000 * SECOND);
      var again := Header("Retry-After", 5, now + 60 * SECOND, 1_700_000_060 * SECOND);
      Run(true, [first, again]).suspendUntil < again.now
  {
    var first := Header("Retry-After", 5, now, 1_700_000_000 * SECOND);
    var again := Header("Retry-After", 5, now + 60 * SECOND, 1_700_000_060 * SECOND);
    assert Lower("Retry-After") == "retry-after";
    assert [first, again][..1] == [first] && [first][..0] == [];
    assert Run(true, [first]) == State(5, now + DEFAULT_BACKOFF);
  }

  /**
    After a 429 requests are held back for the five seconds meant for it if and only if nothing triggered
    before, or an event that counted has a target at least that late.
   */
  lemma TooManyHonouredIff(h: seq<Event>, now: int)
    requires PositiveClocks(h) && now > 0
    ensures now + 5 * SECOND <= Run(true, h + [End(TooManyRequests, now)]).suspendUntil <==>
            NothingTriggers(h) || SomeTargetReaches(h, now + 5 * SECOND)
  {
    LastEventReaches(h, End(TooManyRequests, now), now + DEFAULT_BACKOFF);
    FirstOfAll(h, End(TooManyRequests, now));
  }

  /** A second 429, ten seconds after the first, holds nothing back. */
  lemma SecondTooManyIsIgnored(now: int)
    requires now > 0
    ensures var later := now + 10 * SECOND;
      Run(true, [End(TooManyRequests, now), End(TooManyRequests, later)]).suspendUntil < later
  {
    var h := [End(TooManyRequests, now), End(TooManyRequests, now + 10 * SECOND)];
    assert h[..1] == [End(TooManyRequests, now)] && h[..1][..0] == [];
    assert Run(true, h[..1]) == State(0, now + DEFAULT_BACKOFF);
  }
}
