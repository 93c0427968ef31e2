/**
  The trade batching loop of MarketData: consecutive trades of one instrument become one summary. It is
  proved against the maximal runs of equal instrument identifiers, which are defined twice: by recursion
  and by the properties that single them out.
 */
module Trades {
  datatype Item = Item(instId: string, side: string, px: string, sz: string, tradeId: string, ts: int, seqId: nat)

  datatype Trade = Trade(side: string, price: string, quantity: string, tradeId: string)

  datatype Summary = Summary(symbol: string, trades: seq<Trade>, time: int, sequence: nat, last: bool)

  type Group = seq<Item>

  function TradeOf(i: Item): Trade {
    Trade(i.side, i.px, i.sz, i.tradeId)
  }

  function TradesOf(items: seq<Item>): (ts: seq<Trade>)
    ensures |ts| == |items| && forall k :: 0 <= k < |ts| ==> ts[k] == TradeOf(items[k])
  {
    seq(|items|, k requires 0 <= k < |items| => TradeOf(items[k]))
  }

  // ---------------------------------------------------------------- maximal runs

  function Flatten(gs: seq<Group>): seq<Item> {
    if gs == [] then [] else Flatten(gs[..|gs| - 1]) + gs[|gs| - 1]
  }

  predicate Uniform(g: Group) {
    g != [] && forall k :: 0 <= k < |g| ==> g[k].instId == g[0].instId
  }

  /** Non-empty runs of one instrument each, neighbours of different instruments. */
  predicate MaximalRuns(gs: seq<Group>) {
    (forall k :: 0 <= k < |gs| ==> Uniform(gs[k]))
    && (forall k :: 0 <= k < |gs| - 1 ==> gs[k][0].instId != gs[k + 1][0].instId)
  }

  function Extend(gs: seq<Group>, x: Item): seq<Group> {
    var n := |gs|;
    if n > 0 && gs[n - 1] != [] && gs[n - 1][0].instId == x.instId then gs[..n - 1] + [gs[n - 1] + [x]]
    else gs + [[x]]
  }

  function Groups(items: seq<Item>): seq<Group> {
    if items == [] then [] else Extend(Groups(items[..|items| - 1]), items[|items| - 1])
  }

  lemma {:induction false} GroupsAreMaximalRuns(items: seq<Item>)
    ensures MaximalRuns(Groups(items)) && Flatten(Groups(items)) == items
  {
    if items != [] {
      var front, x := items[..|items| - 1], items[|items| - 1];
      GroupsAreMaximalRuns(front);
      ExtendKeepsMaximal(Groups(front), x);
      ExtendFlattens(Groups(front), x);
      assert front + [x] == items;
    }
  }

  lemma ExtendKeepsMaximal(gs: seq<Group>, x: Item)
    requires MaximalRuns(gs)
    ensures MaximalRuns(Extend(gs, x))
  {
  }

  lemma ExtendFlattens(gs: seq<Group>, x: Item)
    ensures Flatten(Extend(gs, x)) == Flatten(gs) + [x]
  {
    var es, n := Extend(gs, x), |Extend(gs, x)|;
    if n == |gs| {
      assert es[..n - 1] == gs[..n - 1];
    } else {
      assert es[..n - 1] == gs;
    }
  }

  /** The groups without the last item of the last of them. */
  function Shortened(gs: seq<Group>): seq<Group>
    requires gs != [] && gs[|gs| - 1] != []
  {
    var n, g := |gs| - 1, gs[|gs| - 1];
    if |g| == 1 then gs[..n] else gs[..n] + [g[..|g| - 1]]
  }

  lemma ShortenedExtends(gs: seq<Group>)
    requires gs != [] && MaximalRuns(gs)
    ensures MaximalRuns(Shortened(gs)) && gs == Extend(Shortened(gs), gs[|gs| - 1][|gs[|gs| - 1]| - 1])
  {
    var n, g := |gs| - 1, gs[|gs| - 1];
    if |g| == 1 {
      assert g == [g[0]] && gs == gs[..n] + [g];
      assert n > 0 ==> gs[n - 1][0].instId != gs[n][0].instId;
    } else {
      assert Shortened(gs)[..n] == gs[..n];
      assert g == g[..|g| - 1] + [g[|g| - 1]] && gs == gs[..n] + [g];
    }
  }

  /** The properties single the grouping out. */
  lemma {:induction false} MaximalRunsAreGroups(gs: seq<Group>)
    requires MaximalRuns(gs)
    ensures gs == Groups(Flatten(gs))
    decreases |Flatten(gs)|
  {
    if gs != [] {
      var cut, x := Shortened(gs), gs[|gs| - 1][|gs[|gs| - 1]| - 1];
      ShortenedExtends(gs);
      ExtendFlattens(cut, x);
      assert Flatten(gs)[..|Flatten(cut)|] == Flatten(cut);
      MaximalRunsAreGroups(cut);
    }
  }

  // ---------------------------------------------------------------- summaries

  /** The running maximum starts from zero. */
  function MaxTime(g: seq<Item>): int {
    if g == [] then 0
    else
      var m, t := MaxTime(g[..|g| - 1]), g[|g| - 1].ts;
      if m < t then t else m
  }

  function MaxSequence(g: seq<Item>): nat {
    if g == [] then 0
    else
      var m, q := MaxSequence(g[..|g| - 1]), g[|g| - 1].seqId;
      if m < q then q else m
  }

  lemma {:induction false} MaximaAreMaxima(g: seq<Item>)
    ensures forall k :: 0 <= k < |g| ==> g[k].ts <= MaxTime(g) && g[k].seqId <= MaxSequence(g)
    ensures MaxTime(g) == 0 || exists k :: 0 <= k < |g| && g[k].ts == MaxTime(g)
    ensures MaxSequence(g) == 0 || exists k :: 0 <= k < |g| && g[k].seqId == MaxSequence(g)
  {
    if g != [] {
      var front := g[..|g| - 1];
      MaximaAreMaxima(front);
      if MaxTime(g) == MaxTime(front) && MaxTime(g) != 0 {
        var k :| 0 <= k < |front| && front[k].ts == MaxTime(front);
        assert g[k].ts == MaxTime(g);
      } else if MaxTime(g) != 0 {
        assert g[|g| - 1].ts == MaxTime(g);
      }
      if MaxSequence(g) == MaxSequence(front) && MaxSequence(g) != 0 {
        var k :| 0 <= k < |front| && front[k].seqId == MaxSequence(front);
        assert g[k].seqId == MaxSequence(g);
      } else if MaxSequence(g) != 0 {
        assert g[|g| - 1].seqId == MaxSequence(g);
      }
    }
  }

  /** The label as written: the loop has already moved on to the next instrument when it flushes a group. */
  function WrittenLabel(gs: seq<Group>, k: nat): string
    requires k < |gs| && MaximalRuns(gs)
  {
    if k + 1 < |gs| then gs[k + 1][0].instId else gs[k][0].instId
  }

  function SummaryOf(gs: seq<Group>, k: nat): Summary
    requires k < |gs| && MaximalRuns(gs)
  {
    Summary(WrittenLabel(gs, k), TradesOf(gs[k]), MaxTime(gs[k]), MaxSequence(gs[k]), k == |gs| - 1)
  }

  /** The loop's variables describe the last group, which is still open. */
  predicate Open(gs: seq<Group>, symbol: string, trades: seq<Trade>, time: int, sequence: nat) {
    if gs == [] then symbol == "" && trades == [] && time == 0 && sequence == 0
    else
      var g := gs[|gs| - 1];
      g != [] && symbol == g[0].instId && trades == TradesOf(g) && time == MaxTime(g) && sequence == MaxSequence(g)
  }

  /** All groups before the last have been published. */
  predicate Flushed(gs: seq<Group>, summaries: seq<Summary>)
    requires MaximalRuns(gs)
  {
    |summaries| == (if gs == [] then 0 else |gs| - 1)
    && forall k :: 0 <= k < |summaries| ==> summaries[k] == SummaryOf(gs, k)
  }

  method BatchTrades(data: seq<Item>) returns (summaries: seq<Summary>)
    ensures MaximalRuns(Groups(data))
    ensures |summaries| == |Groups(data)|
    ensures forall k :: 0 <= k < |summaries| ==> summaries[k] == SummaryOf(Groups(data), k)
  {
    summaries := [];
    var trades: seq<Trade> := [];
    var exchangeSequence: nat := 0;
    var symbol := "";
    var exchangeTime := 0;
    ghost var gs: seq<Group> := [];
    for i := 0 to |data|
      invariant gs == Groups(data[..i]) && MaximalRuns(gs)
      invariant Open(gs, symbol, trades, exchangeTime, exchangeSequence) && Flushed(gs, summaries)
    {
      var item := data[i];
      ghost var es := Extend(gs, item);
      OneMore(data, i, gs);
      RoundOk(gs, item, symbol, trades, exchangeTime, exchangeSequence, summaries);
      var changed := symbol != item.instId;
      symbol := item.instId;
      if changed && trades != [] {
        summaries := summaries + [Summary(symbol, trades, exchangeTime, exchangeSequence, false)];
        trades := [];
        exchangeTime := 0;
        exchangeSequence := 0;
      }
      exchangeTime := Later(exchangeTime, item.ts);
      trades := trades + [TradeOf(item)];
      exchangeSequence := Later(exchangeSequence, item.seqId);
      gs := es;
    }
    assert data[..|data|] == data;
    FlushLast(gs, symbol, trades, exchangeTime, exchangeSequence, summaries);
    if trades != [] {
      summaries := summaries + [Summary(symbol, trades, exchangeTime, exchangeSequence, true)];
    }
  }

  lemma OneMore(data: seq<Item>, i: nat, gs: seq<Group>)
    requires i < |data| && gs == Groups(data[..i])
    ensures Groups(data[..i + 1]) == Extend(gs, data[i]) && MaximalRuns(Extend(gs, data[i]))
  {
    GroupsAreMaximalRuns(data[..i + 1]);
    assert data[..i + 1][..i] == data[..i];
  }

  lemma FlushLast(
    gs: seq<Group>, symbol: string, trades: seq<Trade>, time: int, sequence: nat, summaries: seq<Summary>)
    requires MaximalRuns(gs) && Open(gs, symbol, trades, time, sequence) && Flushed(gs, summaries)
    ensures var all := if trades != [] then summaries + [Summary(symbol, trades, time, sequence, true)] else summaries;
      |all| == |gs| && forall k :: 0 <= k < |all| ==> all[k] == SummaryOf(gs, k)
  {
    if gs != [] {
      assert TradesOf(gs[|gs| - 1]) != [];
    }
  }

  function Later(a: int, b: int): int { if a < b then b else a }

  /** One round of the loop. */
  lemma RoundOk(
    gs: seq<Group>, x: Item, symbol: string, trades: seq<Trade>, time: int, sequence: nat, summaries: seq<Summary>)
    requires MaximalRuns(gs) && MaximalRuns(Extend(gs, x))
    requires Open(gs, symbol, trades, time, sequence) && Flushed(gs, summaries)
    ensures
      if symbol != x.instId && trades != [] then
        Open(Extend(gs, x), x.instId, [] + [TradeOf(x)], Later(0, x.ts), Later(0, x.seqId))
        && Flushed(Extend(gs, x), summaries + [Summary(x.instId, trades, time, sequence, false)])
      else
        Open(Extend(gs, x), x.instId, trades + [TradeOf(x)], Later(time, x.ts), Later(sequence, x.seqId))
        && Flushed(Extend(gs, x), summaries)
  {
    LastGroup(gs, x);
    LastGroupTrades(gs, x);
    if gs == [] {
      assert trades + [TradeOf(x)] == [TradeOf(x)];
    }
  }

  /** Publishing the group that was open, under the name of the one that opens. */
  lemma LastGroupTrades(gs: seq<Group>, x: Item)
    requires MaximalRuns(gs) && MaximalRuns(Extend(gs, x))
    ensures var es := Extend(gs, x);
      (gs != [] && gs[|gs| - 1][0].instId == x.instId ==>
         TradesOf(es[|es| - 1]) == TradesOf(gs[|gs| - 1]) + [TradeOf(x)]
         && forall k :: 0 <= k < |gs| - 1 ==> SummaryOf(es, k) == SummaryOf(gs, k))
      && (gs != [] && gs[|gs| - 1][0].instId != x.instId ==>
            TradesOf(es[|es| - 1]) == [TradeOf(x)]
            && (forall k :: 0 <= k < |gs| - 1 ==> SummaryOf(es, k) == SummaryOf(gs, k))
            && SummaryOf(es, |gs| - 1) ==
               Summary(x.instId, TradesOf(gs[|gs| - 1]), MaxTime(gs[|gs| - 1]), MaxSequence(gs[|gs| - 1]), false))
      && (gs == [] ==> TradesOf(es[0]) == [TradeOf(x)])
  {
  }

  /** What one more trade does to the last group and to the maxima. */
  lemma LastGroup(gs: seq<Group>, x: Item)
    requires MaximalRuns(gs)
    ensures var es := Extend(gs, x);
      var g := es[|es| - 1];
      if gs != [] && gs[|gs| - 1][0].instId == x.instId then
        |es| == |gs| && g == gs[|gs| - 1] + [x] && es[..|es| - 1] == gs[..|gs| - 1]
        && MaxTime(g) == (if MaxTime(gs[|gs| - 1]) < x.ts then x.ts else MaxTime(gs[|gs| - 1]))
        && MaxSequence(g) == (if MaxSequence(gs[|gs| - 1]) < x.seqId then x.seqId else MaxSequence(gs[|gs| - 1]))
      else
        |es| == |gs| + 1 && g == [x] && es[..|es| - 1] == gs
        && MaxTime(g) == (if 0 < x.ts then x.ts else 0) && MaxSequence(g) == x.seqId
  {
    if gs != [] && gs[|gs| - 1][0].instId == x.instId {
      assert (gs[|gs| - 1] + [x])[..|gs[|gs| - 1]|] == gs[|gs| - 1];
    } else {
      assert [x][..0] == [];
    }
  }

  // ---------------------------------------------------------------- what the summaries add up to

  function AllTrades(summaries: seq<Summary>): seq<Trade> {
    if summaries == [] then [] else AllTrades(summaries[..|summaries| - 1]) + summaries[|summaries| - 1].trades
  }

  /** No trade is lost, invented or moved; only the last summary says that it is the last. */
  lemma {:induction false} NothingIsLost(gs: seq<Group>, summaries: seq<Summary>)
    requires |summaries| == |gs|
    requires forall k :: 0 <= k < |gs| ==> summaries[k].trades == TradesOf(gs[k])
    ensures AllTrades(summaries) == TradesOf(Flatten(gs))
  {
    if gs != [] {
      NothingIsLost(gs[..|gs| - 1], summaries[..|gs| - 1]);
    }
  }

  /** A published trade says what its item says. */
  predicate SameTrade(t: Trade, i: Item) {
    t.side == i.side && t.price == i.px && t.quantity == i.sz && t.tradeId == i.tradeId
  }

  /** A number that none of some numbers exceeds, and that is one of them unless it is zero. */
  predicate Tops(most: int, values: seq<int>) {
    (forall j :: 0 <= j < |values| ==> values[j] <= most) && (most == 0 || most in values)
  }

  function Times(g: Group): (r: seq<int>)
    ensures |r| == |g| && forall j :: 0 <= j < |g| ==> r[j] == g[j].ts
  {
    seq(|g|, j requires 0 <= j < |g| => g[j].ts)
  }

  function Sequences(g: Group): (r: seq<int>)
    ensures |r| == |g| && forall j :: 0 <= j < |g| ==> r[j] == g[j].seqId
  {
    seq(|g|, j requires 0 <= j < |g| => g[j].seqId)
  }

  /** Each summary is about its own run: its trades field by field, its own maxima, and the label of the next run. */
  lemma SummaryTells(data: seq<Item>, summaries: seq<Summary>, k: nat)
    requires MaximalRuns(Groups(data)) && |summaries| == |Groups(data)|
    requires forall j :: 0 <= j < |summaries| ==> summaries[j] == SummaryOf(Groups(data), j)
    requires k < |summaries|
    ensures var g, s := Groups(data)[k], summaries[k];
      |s.trades| == |g| && (forall j :: 0 <= j < |g| ==> SameTrade(s.trades[j], g[j]))
      && Tops(s.time, Times(g)) && Tops(s.sequence, Sequences(g))
      && s.symbol == (if k + 1 < |summaries| then Groups(data)[k + 1][0].instId else g[0].instId)
      && (s.last <==> k + 1 == |summaries|)
  {
    var g, s := Groups(data)[k], summaries[k];
    MaximaAreMaxima(g);
    forall j | 0 <= j < |g| ensures SameTrade(s.trades[j], g[j]) {
      assert s.trades[j] == TradeOf(g[j]);
    }
    if s.time != 0 {
      var j :| 0 <= j < |g| && g[j].ts == s.time;
      assert Times(g)[j] == s.time;
    }
    if s.sequence != 0 {
      var j :| 0 <= j < |g| && g[j].seqId == s.sequence;
      assert Sequences(g)[j] == s.sequence;
    }
  }

  lemma TradesAreConserved(data: seq<Item>, summaries: seq<Summary>)
    requires MaximalRuns(Groups(data)) && |summaries| == |Groups(data)|
    requires forall k :: 0 <= k < |summaries| ==> summaries[k] == SummaryOf(Groups(data), k)
    ensures |AllTrades(summaries)| == |data|
    ensures forall k :: 0 <= k < |data| ==> SameTrade(AllTrades(summaries)[k], data[k])
    ensures forall k :: 0 <= k < |summaries| ==>
        summaries[k].trades != [] && (summaries[k].last <==> k == |summaries| - 1)
  {
    GroupsAreMaximalRuns(data);
    NothingIsLost(Groups(data), summaries);
    forall k | 0 <= k < |data| ensures SameTrade(AllTrades(summaries)[k], data[k]) {
      assert AllTrades(summaries)[k] == TradeOf(data[k]);
    }
  }

  /** Every summary carries the name of its own trades if and only if all trades are of one instrument. */
  lemma LabelsAreRightIff(data: seq<Item>)
    ensures MaximalRuns(Groups(data))
    ensures (forall k :: 0 <= k < |Groups(data)| ==> SummaryOf(Groups(data), k).symbol == Groups(data)[k][0].instId)
            <==> forall k :: 0 <= k < |data| ==> data[k].instId == data[0].instId
  {
    GroupsAreMaximalRuns(data);
    var gs := Groups(data);
    if |gs| >= 2 {
      assert SummaryOf(gs, 0).symbol != gs[0][0].instId;
      FlattenAt(gs, 0, 0);
      FlattenAt(gs, 1, 0);
      var a :| 0 <= a < |data| && data[a] == gs[0][0];
      var b :| 0 <= b < |data| && data[b] == gs[1][0];
      assert data[a].instId != data[b].instId;
    } else if |gs| == 1 {
      assert gs[..0] == [] && Flatten(gs) == [] + gs[0];
      assert data == gs[0];
    }
  }

  lemma {:induction false} FlattenAt(gs: seq<Group>, k: nat, j: nat)
    requires k < |gs| && j < |gs[k]|
    ensures exists a :: 0 <= a < |Flatten(gs)| && Flatten(gs)[a] == gs[k][j]
  {
    var n := |gs| - 1;
    if k == n {
      assert Flatten(gs)[|Flatten(gs[..n])| + j] == gs[k][j];
    } else {
      FlattenAt(gs[..n], k, j);
      var a :| 0 <= a < |Flatten(gs[..n])| && Flatten(gs[..n])[a] == gs[..n][k][j];
      assert Flatten(gs)[a] == gs[k][j];
    }
  }
}
