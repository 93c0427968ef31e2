/**
  The order book sequence filter of MarketData. The handler keeps the last accepted sequence number of
  every instrument, drops what is not newer and, as written, everything after it in the same message. The
  table outlives reconnects.
 */
module Books {
  datatype Level = Level(price: string, size: string, orders: nat)

  datatype Item = Item(seqId: int, prevSeqId: int, ts: int, bids: seq<Level>, asks: seq<Level>)

  datatype MbpUpdate = MbpUpdate(price: string, quantity: string, numberOfOrders: nat)

  datatype Update = Update(
    symbol: string, bids: seq<MbpUpdate>, asks: seq<MbpUpdate>, snapshot: bool, time: int, sequence: int)

  datatype Message = Message(instId: string, snapshot: bool, items: seq<Item>)

  const MAX_ORDERS: nat := 65535

  // ---------------------------------------------------------------- levels

  function Clamped(l: Level): (u: MbpUpdate)
    ensures u.price == l.price && u.quantity == l.size
    ensures u.numberOfOrders <= 65535 && (l.orders <= 65535 ==> u.numberOfOrders == l.orders)
  {
    MbpUpdate(l.price, l.size, if l.orders < MAX_ORDERS then l.orders else MAX_ORDERS)
  }

  function Depth(levels: seq<Level>): (us: seq<MbpUpdate>)
    ensures |us| == |levels| && forall k :: 0 <= k < |us| ==> us[k] == Clamped(levels[k])
  {
    seq(|levels|, k requires 0 <= k < |levels| => Clamped(levels[k]))
  }

  // ---------------------------------------------------------------- the filter

  /** What a message passes on: its items up to the first that is not newer than the one before. */
  function Filter(last: int, items: seq<Item>): seq<Item>
    decreases |items|
  {
    if items == [] || items[0].seqId <= last then [] else [items[0]] + Filter(items[0].seqId, items[1..])
  }

  /** What it was meant to pass on: every item newer than all before it. */
  function Newer(last: int, items: seq<Item>): seq<Item>
    decreases |items|
  {
    if items == [] then []
    else if items[0].seqId <= last then Newer(last, items[1..])
    else [items[0]] + Newer(items[0].seqId, items[1..])
  }

  function LastOf(last: int, accepted: seq<Item>): int {
    if accepted == [] then last else accepted[|accepted| - 1].seqId
  }

  /** The items of a message that are passed on. */
  function Accepted(table: map<string, int>, m: Message): seq<Item> {
    Filter(Stored(table, m.instId), m.items)
  }

  function Stored(table: map<string, int>, instId: string): int {
    if instId in table then table[instId] else 0
  }

  function Published(m: Message, i: Item): Update {
    Update(m.instId, Depth(i.bids), Depth(i.asks), m.snapshot, i.ts, i.seqId)
  }

  function AllPublished(m: Message, items: seq<Item>): (us: seq<Update>)
    ensures |us| == |items| && forall k :: 0 <= k < |us| ==> us[k] == Published(m, items[k])
  {
    seq(|items|, k requires 0 <= k < |items| => Published(m, items[k]))
  }

  /** Level by level, with the number of orders cut to 16 bits. */
  predicate SameDepth(us: seq<MbpUpdate>, levels: seq<Level>) {
    |us| == |levels|
    && forall j :: 0 <= j < |us| ==>
         us[j].price == levels[j].price && us[j].quantity == levels[j].size
         && us[j].numberOfOrders == if levels[j].orders < 65535 then levels[j].orders else 65535
  }

  /** What an update has to say about an item: each side where it belongs. */
  predicate Carries(u: Update, m: Message, item: Item) {
    u.symbol == m.instId && u.snapshot == m.snapshot && u.time == item.ts && u.sequence == item.seqId
    && SameDepth(u.bids, item.bids) && SameDepth(u.asks, item.asks)
  }

  /** The sequence number before the k-th item of a message. */
  function Before(stored: int, items: seq<Item>, k: nat): int
    requires k <= |items|
  {
    if k == 0 then stored else items[k - 1].seqId
  }

  /** The updates tell of the items in order, up to the first that is not newer than the one before it. */
  predicate TellsOf(updates: seq<Update>, stored: int, m: Message) {
    var n := |updates|;
    n <= |m.items|
    && (forall k :: 0 <= k < n ==> Carries(updates[k], m, m.items[k]) && Before(stored, m.items, k) < m.items[k].seqId)
    && (n < |m.items| ==> m.items[n].seqId <= Before(stored, m.items, n))
  }

  lemma PublishedCarries(m: Message, item: Item)
    ensures Carries(Published(m, item), m, item)
  {
  }

  lemma {:induction false} FilterIsPrefix(last: int, items: seq<Item>)
    ensures var n := |Filter(last, items)|;
      n <= |items| && Filter(last, items) == items[..n]
      && (forall k :: 0 <= k < n ==> Before(last, items, k) < items[k].seqId)
      && (n < |items| ==> items[n].seqId <= Before(last, items, n))
    decreases |items|
  {
    if items != [] && last < items[0].seqId {
      var rest := items[1..];
      FilterIsPrefix(items[0].seqId, rest);
      assert forall k :: 0 <= k <= |rest| ==> Before(items[0].seqId, rest, k) == Before(last, items, k + 1);
      assert forall k :: 0 <= k < |rest| ==> rest[k] == items[k + 1];
      var n := |Filter(last, items)|;
      assert items[..n] == [items[0]] + rest[..n - 1];
      forall k | 0 <= k < n ensures Before(last, items, k) < items[k].seqId {
        if k > 0 { assert Before(items[0].seqId, rest, k - 1) < rest[k - 1].seqId; }
      }
    }
  }

  lemma AcceptedTellsOf(stored: int, m: Message)
    ensures TellsOf(AllPublished(m, Filter(stored, m.items)), stored, m)
  {
    FilterIsPrefix(stored, m.items);
    forall k | 0 <= k < |Filter(stored, m.items)|
      ensures Carries(AllPublished(m, Filter(stored, m.items))[k], m, m.items[k])
    {
      PublishedCarries(m, m.items[k]);
    }
  }

  class BookFilter {
    var sequence: map<string, int>

    constructor ()
      ensures sequence == map[]
    {
      sequence := map[];
    }

    method EmplaceAll(levels: seq<Level>) returns (result: seq<MbpUpdate>)
      ensures result == Depth(levels)
    {
      result := [];
      for k := 0 to |levels|
        invariant result == Depth(levels)[..k]
      {
        var orders := if levels[k].orders < MAX_ORDERS then levels[k].orders else MAX_ORDERS;
        result := result + [MbpUpdate(levels[k].price, levels[k].size, orders)];
      }
    }

    /** Reading the table creates the entry; an item that is not newer than it is refused. */
    method Accept(instId: string, seqId: int) returns (ok: bool)
      modifies this
      ensures ok <==> Stored(old(sequence), instId) < seqId
      ensures sequence == old(sequence)[instId := if ok then seqId else Stored(old(sequence), instId)]
    {
      if instId !in sequence {
        sequence := sequence[instId := 0];
      }
      if seqId <= sequence[instId] {
        return false;
      }
      sequence := sequence[instId := seqId];
      ok := true;
    }

    method Convert(m: Message, item: Item) returns (update: Update)
      ensures update == Published(m, item)
    {
      var bids := EmplaceAll(item.bids);
      var asks := EmplaceAll(item.asks);
      update := Update(m.instId, bids, asks, m.snapshot, item.ts, item.seqId);
    }

    /** A message of order books: what it has published, and the table it leaves. */
    method OnBooks(m: Message) returns (updates: seq<Update>)
      modifies this
      ensures TellsOf(updates, Stored(old(sequence), m.instId), m)
      ensures updates == AllPublished(m, Accepted(old(sequence), m))
      ensures sequence == Handle(State(old(sequence), []), m).table
    {
      AcceptedTellsOf(Stored(sequence, m.instId), m);
      updates := PublishItems(m);
    }

    method PublishItems(m: Message) returns (updates: seq<Update>)
      modifies this
      ensures updates == AllPublished(m, Accepted(old(sequence), m))
      ensures sequence == Handle(State(old(sequence), []), m).table
    {
      updates := [];
      ghost var table, before := sequence, Stored(sequence, m.instId);
      ghost var done: seq<Item> := [];
      for k := 0 to |m.items|
        invariant done + Filter(LastOf(before, done), m.items[k..]) == Filter(before, m.items)
        invariant updates == AllPublished(m, done)
        invariant k == 0 ==> done == []
        invariant sequence == Entered(table, m.instId, k, LastOf(before, done))
        invariant Stored(sequence, m.instId) == LastOf(before, done)
      {
        var item := m.items[k];
        FilterStep(before, done, m.items, k);
        EnteredNext(table, m.instId, k, LastOf(before, done), item.seqId);
        var ok := Accept(m.instId, item.seqId);
        if !ok {
          return;
        }
        var update := Convert(m, item);
        PublishedAppend(m, before, done, item);
        updates := updates + [update];
        done := done + [item];
      }
      assert done + [] == done;
    }
  }

  /** The table after `k` items of a message. */
  function Entered(table: map<string, int>, instId: string, k: nat, last: int): map<string, int> {
    if k == 0 then table else table[instId := last]
  }

  lemma EnteredNext(table: map<string, int>, instId: string, k: nat, last: int, next: int)
    requires k == 0 ==> last == Stored(table, instId)
    ensures Entered(table, instId, k, last)[instId := next] == Entered(table, instId, k + 1, next)
    ensures Entered(table, instId, k, last)[instId := last] == Entered(table, instId, k + 1, last)
  {
  }

  lemma PublishedAppend(m: Message, before: int, done: seq<Item>, item: Item)
    ensures AllPublished(m, done + [item]) == AllPublished(m, done) + [Published(m, item)]
    ensures LastOf(before, done + [item]) == item.seqId
  {
  }

  /** One round of the loop over a message. */
  lemma FilterStep(before: int, done: seq<Item>, items: seq<Item>, k: nat)
    requires k < |items|
    ensures var last := LastOf(before, done);
      done + Filter(last, items[k..]) ==
      if items[k].seqId <= last then done else (done + [items[k]]) + Filter(items[k].seqId, items[k + 1..])
  {
    assert items[k..][0] == items[k] && items[k..][1..] == items[k + 1..];
  }

  /** The early return loses something exactly when an item after the first stale one is newer again. */
  lemma {:induction false} EarlyReturnIsHarmlessIff(last: int, items: seq<Item>)
    ensures Filter(last, items) == Newer(last, items) <==>
            var n := |Filter(last, items)|;
            n <= |items| && forall j :: n <= j < |items| ==> items[j].seqId <= LastOf(last, Filter(last, items))
    decreases |items|
  {
    if items != [] {
      var rest := items[1..];
      if items[0].seqId <= last {
        NothingNewerIff(last, items);
      } else {
        EarlyReturnIsHarmlessIff(items[0].seqId, rest);
        var f := Filter(items[0].seqId, rest);
        assert LastOf(last, [items[0]] + f) == LastOf(items[0].seqId, f);
        assert forall j :: 0 <= j < |rest| ==> rest[j] == items[j + 1];
        assert ([items[0]] + f)[1..] == f
          && ([items[0]] + Newer(items[0].seqId, rest))[1..] == Newer(items[0].seqId, rest);
        if forall j :: |f| + 1 <= j < |items| ==> items[j].seqId <= LastOf(items[0].seqId, f) {
          assert forall j :: |f| <= j < |rest| ==> rest[j].seqId <= LastOf(items[0].seqId, f);
        }
        if forall j :: |f| <= j < |rest| ==> rest[j].seqId <= LastOf(items[0].seqId, f) {
          assert forall j :: |f| + 1 <= j < |items| ==> items[j] == rest[j - 1];
        }
      }
    }
  }

  lemma {:induction false} NothingNewerIff(last: int, items: seq<Item>)
    ensures Newer(last, items) == [] <==> forall j :: 0 <= j < |items| ==> items[j].seqId <= last
  {
    if items != [] {
      NothingNewerIff(last, items[1..]);
      assert forall j :: 1 <= j < |items| ==> items[j] == items[1..][j - 1];
    }
  }

  // ---------------------------------------------------------------- whole runs

  /** The table and the published items, by instrument. */
  datatype State = State(table: map<string, int>, log: seq<(string, Item)>)

  function Tagged(instId: string, items: seq<Item>): (r: seq<(string, Item)>)
    ensures |r| == |items| && forall k :: 0 <= k < |r| ==> r[k] == (instId, items[k])
  {
    seq(|items|, k requires 0 <= k < |items| => (instId, items[k]))
  }

  function Handle(s: State, m: Message): State {
    var accepted := Accepted(s.table, m);
    State(
      if m.items == [] then s.table else s.table[m.instId := LastOf(Stored(s.table, m.instId), accepted)],
      s.log + Tagged(m.instId, accepted))
  }

  datatype Event = Received(message: Message) | Disconnected

  /** The handler of a lost connection leaves the table alone. */
  function Step(s: State, e: Event): State {
    match e
    case Received(m) => Handle(s, m)
    case Disconnected => s
  }

  function Run(es: seq<Event>): State {
    if es == [] then State(map[], []) else Step(Run(es[..|es| - 1]), es[|es| - 1])
  }

  /** The published items of one instrument. */
  function Of(log: seq<(string, Item)>, instId: string): seq<Item> {
    if log == [] then []
    else
      var x := log[|log| - 1];
      Of(log[..|log| - 1], instId) + (if x.0 == instId then [x.1] else [])
  }

  lemma {:induction false} OfConcat(a: seq<(string, Item)>, b: seq<(string, Item)>, instId: string)
    ensures Of(a + b, instId) == Of(a, instId) + Of(b, instId)
  {
    if b == [] {
      assert a + b == a;
    } else {
      OfConcat(a, b[..|b| - 1], instId);
      assert (a + b)[..|a + b| - 1] == a + b[..|b| - 1];
    }
  }

  lemma {:induction false} OfTagged(inst: string, items: seq<Item>, instId: string)
    ensures Of(Tagged(inst, items), instId) == if inst == instId then items else []
  {
    if items != [] {
      OfTagged(inst, items[..|items| - 1], instId);
      assert Tagged(inst, items)[..|items| - 1] == Tagged(inst, items[..|items| - 1]);
    }
  }

  predicate Increasing(last: int, items: seq<Item>) {
    (forall i :: 0 <= i < |items| ==> last < items[i].seqId)
    && (forall i, j :: 0 <= i < j < |items| ==> items[i].seqId < items[j].seqId)
  }

  lemma {:induction false} FilterIncreases(last: int, items: seq<Item>)
    ensures Increasing(last, Filter(last, items))
    ensures Filter(last, items) <= items
    decreases |items|
  {
    if items != [] && items[0].seqId > last {
      FilterIncreases(items[0].seqId, items[1..]);
    }
  }

  lemma IncreasingConcat(last: int, a: seq<Item>, b: seq<Item>)
    requires Increasing(last, a) && Increasing(LastOf(last, a), b)
    ensures Increasing(last, a + b)
    ensures LastOf(last, a + b) == LastOf(LastOf(last, a), b)
  {
    if b == [] {
      assert a + b == a;
    }
  }

  /**
    In every run, across any number of reconnects, the sequence numbers published for an instrument are
    positive and strictly increasing, and the table holds the last of them.
   */
  lemma {:induction false} PublishedIncreases(es: seq<Event>, instId: string)
    ensures Increasing(0, Of(Run(es).log, instId))
    ensures Stored(Run(es).table, instId) == LastOf(0, Of(Run(es).log, instId))
  {
    if es != [] {
      var s := Run(es[..|es| - 1]);
      PublishedIncreases(es[..|es| - 1], instId);
      match es[|es| - 1] {
        case Disconnected =>
        case Received(m) =>
          if m.instId == instId {
            OwnMessage(s, m);
            FilterIncreases(Stored(s.table, instId), m.items);
            IncreasingConcat(0, Of(s.log, instId), Accepted(s.table, m));
          } else {
            OtherInstrumentsUntouched(s, m, instId);
          }
      }
    }
  }

  lemma OwnMessage(s: State, m: Message)
    ensures Of(Handle(s, m).log, m.instId) == Of(s.log, m.instId) + Accepted(s.table, m)
    ensures Stored(Handle(s, m).table, m.instId) == LastOf(Stored(s.table, m.instId), Accepted(s.table, m))
  {
    OfConcat(s.log, Tagged(m.instId, Accepted(s.table, m)), m.instId);
    OfTagged(m.instId, Accepted(s.table, m), m.instId);
  }

  /** A message touches its own instrument only. */
  lemma OtherInstrumentsUntouched(s: State, m: Message, instId: string)
    requires instId != m.instId
    ensures Stored(Handle(s, m).table, instId) == Stored(s.table, instId)
    ensures Of(Handle(s, m).log, instId) == Of(s.log, instId)
  {
    var accepted := Accepted(s.table, m);
    OfConcat(s.log, Tagged(m.instId, accepted), instId);
    OfTagged(m.instId, accepted, instId);
    assert Of(s.log, instId) + [] == Of(s.log, instId);
  }

  // ---------------------------------------------------------------- one item a message

  /** Messages about this instrument carry one item each. */
  predicate SingleItems(es: seq<Event>, instId: string) {
    forall k :: 0 <= k < |es| && es[k].Received? && es[k].message.instId == instId ==> |es[k].message.items| == 1
  }

  /** The items one event delivers for one instrument. */
  function DeliveredBy(e: Event, instId: string): seq<Item> {
    if e.Received? && e.message.instId == instId then e.message.items else []
  }

  /** The items delivered for one instrument. */
  function Delivered(es: seq<Event>, instId: string): seq<Item> {
    if es == [] then [] else Delivered(es[..|es| - 1], instId) + DeliveredBy(es[|es| - 1], instId)
  }

  function Highest(items: seq<Item>): int {
    if items == [] then 0
    else
      var h, x := Highest(items[..|items| - 1]), items[|items| - 1].seqId;
      if h < x then x else h
  }

  /** The strict left-to-right maxima, counting from zero. */
  function Records(items: seq<Item>): seq<Item> {
    if items == [] then []
    else
      var front, x := items[..|items| - 1], items[|items| - 1];
      Records(front) + (if Highest(front) < x.seqId then [x] else [])
  }

  lemma {:induction false} HighestIsHighest(items: seq<Item>)
    ensures Highest(items) >= 0 && forall k :: 0 <= k < |items| ==> items[k].seqId <= Highest(items)
    ensures Highest(items) == LastOf(0, Records(items))
  {
    if items != [] {
      HighestIsHighest(items[..|items| - 1]);
    }
  }

  /** When its messages carry one item, exactly the strict left-to-right maxima of what is delivered are published. */
  lemma {:induction false} RecordsArePublished(es: seq<Event>, instId: string)
    requires SingleItems(es, instId)
    ensures Of(Run(es).log, instId) == Records(Delivered(es, instId))
  {
    if es != [] {
      var front, e := es[..|es| - 1], es[|es| - 1];
      var s := Run(front);
      RecordsArePublished(front, instId);
      PublishedIncreases(front, instId);
      SingleStep(s, e, instId);
      HighestIsHighest(Delivered(front, instId));
      RecordsStep(Delivered(front, instId), DeliveredBy(e, instId));
    }
  }

  lemma SingleStep(s: State, e: Event, instId: string)
    requires e.Received? && e.message.instId == instId ==> |e.message.items| == 1
    ensures var items := DeliveredBy(e, instId);
      Of(Step(s, e).log, instId) ==
      Of(s.log, instId) + if items != [] && Stored(s.table, instId) < items[0].seqId then items else []
  {
    assert Of(s.log, instId) + [] == Of(s.log, instId);
    match e {
      case Disconnected =>
      case Received(m) =>
        if m.instId == instId {
          OwnMessage(s, m);
          FilterSingle(Stored(s.table, instId), m.items);
        } else {
          OtherInstrumentsUntouched(s, m, instId);
        }
    }
  }

  lemma FilterSingle(last: int, items: seq<Item>)
    requires |items| == 1
    ensures Filter(last, items) == if last < items[0].seqId then items else []
  {
    assert items == [items[0]] && items[1..] == [];
    assert Filter(items[0].seqId, []) == [];
  }

  lemma RecordsStep(d: seq<Item>, items: seq<Item>)
    requires |items| <= 1
    ensures Records(d + items) == Records(d) + if items != [] && Highest(d) < items[0].seqId then items else []
  {
    if items == [] {
      assert d + items == d;
    } else {
      assert items == [items[0]];
      assert (d + items)[..|d|] == d;
    }
  }

  /** `delivered` is the feed in order, with items seen before inserted anywhere. */
  predicate ReplayOf(feed: seq<Item>, delivered: seq<Item>)
    decreases |delivered|
  {
    if delivered == [] then feed == []
    else
      var n, x := |delivered| - 1, delivered[|delivered| - 1];
      (feed != [] && x == feed[|feed| - 1] && ReplayOf(feed[..|feed| - 1], delivered[..n]))
      || (x in delivered[..n] && ReplayOf(feed, delivered[..n]))
  }

  lemma {:induction false} ReplayRecords(feed: seq<Item>, delivered: seq<Item>)
    requires Increasing(0, feed) && ReplayOf(feed, delivered)
    ensures Records(delivered) == feed && Highest(delivered) == LastOf(0, feed)
    decreases |delivered|
  {
    if delivered != [] {
      var n, x := |delivered| - 1, delivered[|delivered| - 1];
      if x in delivered[..n] && ReplayOf(feed, delivered[..n]) {
        ReplayRecords(feed, delivered[..n]);
        HighestIsHighest(delivered[..n]);
        assert Records(delivered[..n]) + [] == Records(delivered[..n]);
      } else {
        var early := feed[..|feed| - 1];
        ReplayRecords(early, delivered[..n]);
        assert feed == early + [x];
        assert LastOf(0, early) < x.seqId;
      }
    }
  }

  /** Old items delivered again, however often, do not change what is published of a proper feed. */
  lemma ReplayImmunity(es: seq<Event>, instId: string, feed: seq<Item>)
    requires SingleItems(es, instId) && Increasing(0, feed) && ReplayOf(feed, Delivered(es, instId))
    ensures Of(Run(es).log, instId) == feed
  {
    RecordsArePublished(es, instId);
    ReplayRecords(feed, Delivered(es, instId));
  }
}
