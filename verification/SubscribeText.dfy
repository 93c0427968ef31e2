/**
  The subscription messages (src/roq/okx/gateway/market_data.cpp, business.cpp). The text for a list of
  instruments is made with one prefix and a separator that closes one object and opens the next.
 */
module SubscribeText {
  import opened Wrappers
  import opened Json

  /** The formatting library's join. */
  function Join(values: seq<string>, separator: string): string {
    if values == [] then ""
    else if |values| == 1 then values[0]
    else values[0] + separator + Join(values[1..], separator)
  }

  function Prefix(channel: string, selector: string): string {
    "{" + "\"channel\":\"" + channel + "\",\"" + selector + "\":\""
  }

  function Separator(channel: string, selector: string): string {
    "\"}," + Prefix(channel, selector)
  }

  function ListText(channel: string, selector: string, values: seq<string>): string {
    "{\"op\":\"subscribe\",\"args\":["
    + (Prefix(channel, selector) + Join(values, Separator(channel, selector)) + "\"}")
    + "]}"
  }

  function ScalarText(channel: string, selector: string, value: string): string {
    "{\"op\":\"subscribe\",\"args\":["
    + ("{" + "\"channel\":\"" + channel + "\",\"" + selector + "\":\"" + value + "\"}")
    + "]}"
  }

  // ---------------------------------------------------------------- the intended trees

  function Item(channel: string, selector: string, value: string): Value {
    Obj([Member("channel", Str(channel)), Member(selector, Str(value))])
  }

  function Items(channel: string, selector: string, values: seq<string>): (items: seq<Value>)
    ensures |items| == |values|
    ensures forall i :: 0 <= i < |items| ==> items[i] == Item(channel, selector, values[i])
  {
    if values == [] then [] else [Item(channel, selector, values[0])] + Items(channel, selector, values[1..])
  }

  function Tree(channel: string, selector: string, values: seq<string>): Value {
    Obj([Member("op", Str("subscribe")), Member("args", Arr(Items(channel, selector, values)))])
  }

  // ---------------------------------------------------------------- texts and trees agree

  lemma QuotedMember(key: string, value: string)
    ensures RenderMember(Member(key, Str(value))) == "\"" + key + "\":\"" + value + "\""
  {
    assert Render(Str(value)) == "\"" + value + "\"";
    assert "\"" + key + "\":" + ("\"" + value + "\"") == "\"" + key + "\":\"" + value + "\"";
  }

  lemma PairRenders(a: Member, b: Member)
    ensures RenderMembers([a, b]) == RenderMember(a) + "," + RenderMember(b)
  {
    RenderMembersAppend([a], b);
    assert [a] + [b] == [a, b];
  }

  lemma PrefixSplits(channel: string, selector: string)
    ensures Prefix(channel, selector) == "{" + ("\"channel\":\"" + channel + "\"") + "," + ("\"" + selector + "\":\"")
  {
    assert "\",\"" == "\"" + "," + "\"";
  }

  lemma Tie(a: string, b: string, v: string)
    ensures "{" + a + "," + b + v + "\"}" == "{" + (a + "," + (b + v + "\"")) + "}"
  {
    assert "\"}" == "\"" + "}";
  }

  lemma ItemRenders(channel: string, selector: string, value: string)
    ensures Render(Item(channel, selector, value)) == Prefix(channel, selector) + value + "\"}"
  {
    QuotedMember("channel", channel);
    QuotedMember(selector, value);
    PairRenders(Member("channel", Str(channel)), Member(selector, Str(value)));
    PrefixSplits(channel, selector);
    assert "\"" + "channel" + "\":\"" == "\"channel\":\"";
    Tie("\"channel\":\"" + channel + "\"", "\"" + selector + "\":\"", value);
  }

  /** Each separator closes one object and opens the next. */
  lemma {:induction false} JoinRenders(channel: string, selector: string, values: seq<string>)
    requires values != []
    ensures Prefix(channel, selector) + Join(values, Separator(channel, selector)) + "\"}" ==
            RenderItems(Items(channel, selector, values))
  {
    ItemRenders(channel, selector, values[0]);
    var items := Items(channel, selector, values);
    if |values| > 1 {
      JoinRenders(channel, selector, values[1..]);
      assert items[1..] == Items(channel, selector, values[1..]);
      var p, rest := Prefix(channel, selector), Join(values[1..], Separator(channel, selector));
      SeparatorSplits(channel, selector);
      Interleave(p, values[0], rest);
    }
  }

  lemma SeparatorSplits(channel: string, selector: string)
    ensures Separator(channel, selector) == "\"}" + "," + Prefix(channel, selector)
  {
    assert "\"}," == "\"}" + ",";
  }

  lemma Interleave(p: string, v: string, rest: string)
    ensures p + (v + ("\"}" + "," + p) + rest) + "\"}" == (p + v + "\"}") + "," + (p + rest + "\"}")
  {
  }

  lemma TreeRenders(channel: string, selector: string, values: seq<string>)
    ensures Render(Tree(channel, selector, values)) ==
            "{\"op\":\"subscribe\",\"args\":[" + RenderItems(Items(channel, selector, values)) + "]}"
  {
    var args := Items(channel, selector, values);
    QuotedMember("op", "subscribe");
    PairRenders(Member("op", Str("subscribe")), Member("args", Arr(args)));
    assert Render(Arr(args)) == "[" + RenderItems(args) + "]";
    assert RenderMember(Member("args", Arr(args))) == "\"" + "args" + "\":" + ("[" + RenderItems(args) + "]");
    TieAround(RenderItems(args));
  }

  lemma TieAround(items: string)
    ensures "{" + ("\"" + "op" + "\":\"" + "subscribe" + "\"" + "," + ("\"" + "args" + "\":" + ("[" + items + "]")))
        + "}"
         == "{\"op\":\"subscribe\",\"args\":[" + items + "]}"
  {
    OpeningText();
    var op, args := "\"" + "op" + "\":\"" + "subscribe" + "\"", "\"" + "args" + "\":";
    Flatten("{", op, ",", args, "[", items, "]", "}");
    assert "]" + "}" == "]}";
  }

  lemma OpeningText()
    ensures "{" + ("\"" + "op" + "\":\"" + "subscribe" + "\"") + "," + ("\"" + "args" + "\":") + "["
         == "{\"op\":\"subscribe\",\"args\":["
  {
  }

  lemma Flatten(a: string, b: string, c: string, d: string, e: string, f: string, g: string, h: string)
    ensures a + (b + c + (d + (e + f + g))) + h == a + b + c + d + e + f + (g + h)
  {
  }

  /** The prefix and separator text is the plain rendering of one object per instrument, in order. */
  lemma ListTextIsRendering(channel: string, selector: string, values: seq<string>)
    requires values != []
    ensures ListText(channel, selector, values) == Render(Tree(channel, selector, values))
  {
    JoinRenders(channel, selector, values);
    TreeRenders(channel, selector, values);
  }

  /** For one instrument the list overload and the scalar overload produce one text. */
  lemma ScalarIsSingleton(channel: string, selector: string, value: string)
    ensures ScalarText(channel, selector, value) == ListText(channel, selector, [value])
  {
  }

  // ---------------------------------------------------------------- what the venue reads

  /** The (channel, instrument) pairs a message subscribes, by the venue's reading of it. */
  function Subscriptions(text: string): Option<seq<(string, string)>> {
    match Read(text)
    case Some(Obj(ms)) =>
      if Lookup(ms, "op") != Some(Str("subscribe")) then None
      else (match Lookup(ms, "args") case Some(Arr(items)) => DecodeItems(items) case _ => None)
    case _ => None
  }

  function DecodeItem(v: Value): Option<(string, string)> {
    if !v.Obj? then None
    else
      match (Lookup(v.members, "channel"), Lookup(v.members, "instId"))
      case (Some(Str(channel)), Some(Str(instId))) => Some((channel, instId))
      case _ => None
  }

  function DecodeItems(items: seq<Value>): Option<seq<(string, string)>> {
    if items == [] then Some([])
    else
      match (DecodeItem(items[0]), DecodeItems(items[1..]))
      case (Some(pair), Some(pairs)) => Some([pair] + pairs)
      case _ => None
  }

  function Pairs(channel: string, values: seq<string>): (r: seq<(string, string)>)
    ensures |r| == |values| && forall i :: 0 <= i < |r| ==> r[i] == (channel, values[i])
  {
    seq(|values|, i requires 0 <= i < |values| => (channel, values[i]))
  }

  lemma DecodeEncodedItem(channel: string, value: string)
    ensures DecodeItem(Item(channel, "instId", value)) == Some((channel, value))
  {
    var ms := Item(channel, "instId", value).members;
    LookupFirst(ms, "channel", 0);
    LookupFirst(ms, "instId", 1);
  }

  lemma {:induction false} DecodeEncodedItems(channel: string, values: seq<string>)
    ensures DecodeItems(Items(channel, "instId", values)) == Some(Pairs(channel, values))
  {
    if values == [] {
      assert Pairs(channel, values) == [];
    } else {
      DecodeEncodedItem(channel, values[0]);
      DecodeEncodedItems(channel, values[1..]);
      DecodeCons(Items(channel, "instId", values), (channel, values[0]), Pairs(channel, values[1..]));
      assert Pairs(channel, values) == [(channel, values[0])] + Pairs(channel, values[1..]);
    }
  }

  lemma DecodeCons(items: seq<Value>, first: (string, string), rest: seq<(string, string)>)
    requires items != [] && DecodeItem(items[0]) == Some(first) && DecodeItems(items[1..]) == Some(rest)
    ensures DecodeItems(items) == Some([first] + rest)
  {
  }

  predicate PlainTexts(values: seq<string>) {
    forall i :: 0 <= i < |values| ==> PlainText(values[i])
  }

  lemma ItemsArePlain(channel: string, values: seq<string>)
    requires PlainText(channel) && PlainTexts(values)
    ensures PlainItems(Items(channel, "instId", values))
  {
    var items := Items(channel, "instId", values);
    PlainItemsAt(items);
    forall i | 0 <= i < |items| ensures Plain(items[i]) {
      PlainMembersAt(items[i].members);
    }
  }

  lemma TreeIsPlain(channel: string, values: seq<string>)
    requires PlainText(channel) && PlainTexts(values)
    ensures Plain(Tree(channel, "instId", values))
  {
    ItemsArePlain(channel, values);
    var ms := Tree(channel, "instId", values).members;
    assert ms[0] == Member("op", Str("subscribe")) && ms[1] == Member("args", Arr(Items(channel, "instId", values)));
    PlainMembersAt(ms);
  }

  /** The venue reads back the channel and the instruments, in order and nothing else. */
  lemma ListReadsBack(channel: string, values: seq<string>)
    requires PlainText(channel) && PlainTexts(values) && values != []
    ensures Subscriptions(ListText(channel, "instId", values)) == Some(Pairs(channel, values))
  {
    var tree := Tree(channel, "instId", values);
    ListTextIsRendering(channel, "instId", values);
    TreeIsPlain(channel, values);
    ReadIffRendered(Render(tree), tree);
    LookupFirst(tree.members, "op", 0);
    LookupFirst(tree.members, "args", 1);
    DecodeEncodedItems(channel, values);
  }
}
