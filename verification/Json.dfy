/**
  The compact JSON texts exchanged with the venue (RFC 8259, sections 4 to 7): trees, a renderer
  without insignificant white space, and a reader written against the grammar.

  The gateway never escapes the texts it splices into a message. A text survives the trip only if it
  is plain, that is, free of quotation marks, reverse solidi and control characters (section 7).
  The two theorems at the end make the reader and the renderer exact inverses of each other.
 */
module Json {
  import opened Wrappers

  datatype Value =
    | Str(text: string)
    | Num(number: int)
    | Bool(flag: bool)
    | Arr(items: seq<Value>)
    | Obj(members: seq<Member>)

  datatype Member = Member(name: string, value: Value)

  predicate PlainChar(c: char) {
    c != '"' && c != '\\' && ' ' <= c
  }

  predicate PlainText(s: string) {
    forall i :: 0 <= i < |s| ==> PlainChar(s[i])
  }

  predicate Plain(v: Value)
    decreases v
  {
    match v
    case Str(text) => PlainText(text)
    case Num(_) => true
    case Bool(_) => true
    case Arr(items) => PlainItems(items)
    case Obj(members) => PlainMembers(members)
  }

  predicate PlainItems(items: seq<Value>)
    decreases items
  {
    items == [] || (Plain(items[0]) && PlainItems(items[1..]))
  }

  predicate PlainMember(m: Member)
    decreases m
  {
    PlainText(m.name) && Plain(m.value)
  }

  predicate PlainMembers(members: seq<Member>)
    decreases members
  {
    members == [] || (PlainMember(members[0]) && PlainMembers(members[1..]))
  }

  // ---------------------------------------------------------------- rendering

  const DIGITS := "0123456789"

  function RenderNat(n: nat): string {
    if n < 10 then [DIGITS[n]] else RenderNat(n / 10) + [DIGITS[n % 10]]
  }

  function RenderInt(n: int): string {
    if n < 0 then "-" + RenderNat(-n) else RenderNat(n)
  }

  function Render(v: Value): string
    decreases v, 0
  {
    match v
    case Str(text) => "\"" + text + "\""
    case Num(n) => RenderInt(n)
    case Bool(b) => if b then "true" else "false"
    case Arr(items) => "[" + RenderItems(items) + "]"
    case Obj(members) => "{" + RenderMembers(members) + "}"
  }

  function RenderItems(items: seq<Value>): string
    decreases items, 1
  {
    if items == [] then ""
    else if |items| == 1 then Render(items[0])
    else Render(items[0]) + "," + RenderItems(items[1..])
  }

  function RenderMember(m: Member): string
    decreases m, 1
  {
    "\"" + m.name + "\":" + Render(m.value)
  }

  function RenderMembers(members: seq<Member>): string
    decreases members, 2
  {
    if members == [] then ""
    else if |members| == 1 then RenderMember(members[0])
    else RenderMember(members[0]) + "," + RenderMembers(members[1..])
  }

  // ---------------------------------------------------------------- reading

  predicate IsDigit(c: char) {
    '0' <= c <= '9'
  }

  /** The length of the longest run of digits at the front. */
  function DigitCount(s: string): (k: nat)
    ensures k <= |s|
    ensures forall i :: 0 <= i < k ==> IsDigit(s[i])
    ensures k < |s| ==> !IsDigit(s[k])
  {
    if s != [] && IsDigit(s[0]) then 1 + DigitCount(s[1..]) else 0
  }

  /** The length of the longest run of plain characters at the front. */
  function PlainCount(s: string): (k: nat)
    ensures k <= |s|
    ensures PlainText(s[..k])
    ensures k < |s| ==> !PlainChar(s[k])
  {
    if s != [] && PlainChar(s[0]) then 1 + PlainCount(s[1..]) else 0
  }

  function DigitValue(c: char): (d: nat)
    requires IsDigit(c)
    ensures d < 10
  {
    c as int - '0' as int
  }

  function NatValue(s: string): nat
    requires forall i :: 0 <= i < |s| ==> IsDigit(s[i])
  {
    if s == [] then 0 else 10 * NatValue(s[..|s| - 1]) + DigitValue(s[|s| - 1])
  }

  /** Section 6: no leading zeros. */
  function ReadNat(s: string): (r: Option<(nat, string)>)
    ensures r.Some? ==> |r.value.1| < |s|
  {
    var k := DigitCount(s);
    if k == 0 || (k > 1 && s[0] == '0') then None else Some((NatValue(s[..k]), s[k..]))
  }

  /** Section 7: a quotation mark, unescaped characters, a quotation mark. */
  function ReadText(s: string): (r: Option<(string, string)>)
    ensures r.Some? ==> |r.value.1| < |s|
  {
    if s == [] || s[0] != '"' then None
    else
      var k := PlainCount(s[1..]);
      if k + 1 < |s| && s[k + 1] == '"' then Some((s[1..k + 1], s[k + 2..])) else None
  }

  predicate StartsWith(s: string, t: string) {
    |t| <= |s| && s[..|t|] == t
  }

  /** Reads one value at the front of a text and returns it with what follows. */
  function ReadValue(s: string): (r: Option<(Value, string)>)
    ensures r.Some? ==> |r.value.1| < |s|
    decreases |s|, 0
  {
    if s == [] then None
    else if s[0] == '"' then
      match ReadText(s) { case None => None case Some((t, rest)) => Some((Str(t), rest)) }
    else if s[0] == '[' then
      if |s| > 1 && s[1] == ']' then Some((Arr([]), s[2..]))
      else match ReadItems(s[1..]) { case None => None case Some((items, rest)) => Some((Arr(items), rest)) }
    else if s[0] == '{' then
      if |s| > 1 && s[1] == '}' then Some((Obj([]), s[2..]))
      else match ReadMembers(s[1..]) { case None => None case Some((members, rest)) => Some((Obj(members), rest)) }
    else if s[0] == 't' then if StartsWith(s, "true") then Some((Bool(true), s[4..])) else None
    else if s[0] == 'f' then if StartsWith(s, "false") then Some((Bool(false), s[5..])) else None
    else if s[0] == '-' then
      match ReadNat(s[1..]) {
        case None => None
        case Some((n, rest)) => if n == 0 then None else Some((Num(0 - n as int), rest))
      }
    else
      match ReadNat(s) { case None => None case Some((n, rest)) => Some((Num(n), rest)) }
  }

  /** Reads a non-empty list of values up to and including its closing bracket. */
  function ReadItems(s: string): (r: Option<(seq<Value>, string)>)
    ensures r.Some? ==> |r.value.1| < |s| && r.value.0 != []
    decreases |s|, 1
  {
    match ReadValue(s)
    case None => None
    case Some((v, rest)) =>
      if rest == [] then None
      else if rest[0] == ']' then Some(([v], rest[1..]))
      else if rest[0] != ',' then None
      else
        match ReadItems(rest[1..]) { case None => None case Some((vs, after)) => Some(([v] + vs, after)) }
  }

  function ReadMember(s: string): (r: Option<(Member, string)>)
    ensures r.Some? ==> |r.value.1| < |s|
    decreases |s|, 1
  {
    match ReadText(s)
    case None => None
    case Some((name, rest)) =>
      if rest == [] || rest[0] != ':' then None
      else
        match ReadValue(rest[1..]) { case None => None case Some((v, after)) => Some((Member(name, v), after)) }
  }

  /** Reads a non-empty list of members up to and including the closing brace. */
  function ReadMembers(s: string): (r: Option<(seq<Member>, string)>)
    ensures r.Some? ==> |r.value.1| < |s| && r.value.0 != []
    decreases |s|, 2
  {
    match ReadMember(s)
    case None => None
    case Some((m, rest)) =>
      if rest == [] then None
      else if rest[0] == '}' then Some(([m], rest[1..]))
      else if rest[0] != ',' then None
      else
        match ReadMembers(rest[1..]) { case None => None case Some((ms, after)) => Some(([m] + ms, after)) }
  }

  /** A whole text: one value and nothing after it. */
  function Read(s: string): Option<Value> {
    match ReadValue(s) { case None => None case Some((v, rest)) => if rest == [] then Some(v) else None }
  }

  // ---------------------------------------------------------------- numbers

  lemma {:induction false} RenderNatDigits(n: nat)
    ensures var s := RenderNat(n);
      && |s| > 0
      && (forall i :: 0 <= i < |s| ==> IsDigit(s[i]))
      && NatValue(s) == n
      && (|s| > 1 ==> s[0] != '0')
      && (n > 0 ==> s[0] != '0')
  {
    if n >= 10 {
      RenderNatDigits(n / 10);
      var s := RenderNat(n);
      assert s[..|s| - 1] == RenderNat(n / 10);
      assert s[|s| - 1] == DIGITS[n % 10];
      DigitRenders(n % 10);
    } else {
      DigitRenders(n);
    }
  }

  lemma DigitRenders(d: nat)
    requires d < 10
    ensures IsDigit(DIGITS[d]) && DigitValue(DIGITS[d]) == d && (d > 0 ==> DIGITS[d] != '0')
  {
  }

  lemma {:induction false} NatValueRenders(s: string)
    requires s != [] && forall i :: 0 <= i < |s| ==> IsDigit(s[i])
    requires |s| > 1 ==> s[0] != '0'
    ensures RenderNat(NatValue(s)) == s
    ensures s[0] != '0' ==> NatValue(s) > 0
  {
    var front, d := s[..|s| - 1], DigitValue(s[|s| - 1]);
    assert DIGITS[d] == s[|s| - 1];
    if front == [] {
      assert NatValue(front) == 0;
    } else {
      NatValueRenders(front);
      assert front[0] == s[0];
      assert NatValue(s) / 10 == NatValue(front) && NatValue(s) % 10 == d;
      assert s == front + [s[|s| - 1]];
    }
  }

  /** A text may follow a value if it cannot be taken for more digits. */
  predicate Delimited(rest: string) {
    rest == [] || !IsDigit(rest[0])
  }

  lemma {:induction false} CountDigits(s: string, rest: string)
    requires forall i :: 0 <= i < |s| ==> IsDigit(s[i])
    requires Delimited(rest)
    ensures DigitCount(s + rest) == |s|
  {
    if s == [] {
      assert s + rest == rest;
    } else {
      CountDigits(s[1..], rest);
      assert (s + rest)[1..] == s[1..] + rest;
    }
  }

  lemma {:induction false} CountPlain(t: string, rest: string)
    requires PlainText(t)
    ensures PlainCount(t + ("\"" + rest)) == |t|
  {
    if t == [] {
      assert t + ("\"" + rest) == "\"" + rest;
    } else {
      CountPlain(t[1..], rest);
      assert (t + ("\"" + rest))[1..] == t[1..] + ("\"" + rest);
    }
  }

  lemma ReadRenderedNat(n: nat, rest: string)
    requires Delimited(rest)
    ensures ReadNat(RenderNat(n) + rest) == Some((n, rest))
  {
    RenderNatDigits(n);
    var s := RenderNat(n);
    CountDigits(s, rest);
    assert (s + rest)[..|s|] == s && (s + rest)[|s|..] == rest;
  }

  lemma ReadRenderedText(t: string, rest: string)
    requires PlainText(t)
    ensures ReadText("\"" + t + "\"" + rest) == Some((t, rest))
  {
    var s := "\"" + t + "\"" + rest;
    assert s[1..] == t + ("\"" + rest);
    CountPlain(t, rest);
    assert s[1..|t| + 1] == t && s[|t| + 2..] == rest;
  }

  // ---------------------------------------------------------------- rendering, then reading

  lemma RenderHead(v: Value)
    requires Plain(v)
    ensures var s := Render(v); s != [] && s[0] != ']' && s[0] != '}'
  {
    match v
    case Num(n) => RenderNatDigits(if n < 0 then -n else n);
    case _ =>
  }

  lemma ReadNegative(text: string, n: nat, rest: string)
    requires n > 0 && ReadNat(text) == Some((n, rest))
    ensures ReadValue("-" + text) == Some((Num(0 - n as int), rest))
  {
    assert ("-" + text)[1..] == text;
  }

  lemma ReadNonNegative(text: string, n: nat, rest: string)
    requires text != [] && IsDigit(text[0]) && ReadNat(text) == Some((n, rest))
    ensures ReadValue(text) == Some((Num(n), rest))
  {
  }

  lemma ReadRenderedNum(n: int, rest: string)
    requires Delimited(rest)
    ensures ReadValue(RenderInt(n) + rest) == Some((Num(n), rest))
  {
    if n < 0 {
      ReadRenderedNegative(-n, rest);
    } else {
      ReadRenderedNat(n, rest);
      StartsWithDigit(n, rest);
      ReadNonNegative(RenderNat(n) + rest, n, rest);
    }
  }

  lemma ReadRenderedNegative(n: nat, rest: string)
    requires n > 0 && Delimited(rest)
    ensures ReadValue(RenderInt(0 - n as int) + rest) == Some((Num(0 - n as int), rest))
  {
    ReadRenderedNat(n, rest);
    ReadNegative(RenderNat(n) + rest, n, rest);
    SignInFront(n, rest);
  }

  lemma SignInFront(n: nat, rest: string)
    requires n > 0
    ensures RenderInt(0 - n as int) + rest == "-" + (RenderNat(n) + rest)
  {
    Associate("-", RenderNat(n), rest);
  }

  lemma StartsWithDigit(n: nat, rest: string)
    ensures RenderNat(n) + rest != [] && IsDigit((RenderNat(n) + rest)[0])
  {
    RenderNatDigits(n);
  }

  lemma ReadRenderedStr(t: string, rest: string)
    requires PlainText(t)
    ensures ReadValue(Render(Str(t)) + rest) == Some((Str(t), rest))
  {
    ReadRenderedText(t, rest);
  }

  lemma ReadRenderedBool(b: bool, rest: string)
    ensures ReadValue(Render(Bool(b)) + rest) == Some((Bool(b), rest))
  {
    var w := Render(Bool(b));
    assert (w + rest)[..|w|] == w && (w + rest)[|w|..] == rest;
  }

  /** One step of the reader over a bracket: what is left is a list of values. */
  lemma ReadBracketed(items: seq<Value>, text: string, rest: string)
    requires text != [] && text[0] != ']'
    requires ReadItems(text) == Some((items, rest))
    ensures ReadValue("[" + text) == Some((Arr(items), rest))
  {
    assert ("[" + text)[1..] == text;
  }

  /** One step of the reader over a brace: what is left is a list of members. */
  lemma ReadBraced(members: seq<Member>, text: string, rest: string)
    requires text != [] && text[0] != '}'
    requires ReadMembers(text) == Some((members, rest))
    ensures ReadValue("{" + text) == Some((Obj(members), rest))
  {
    assert ("{" + text)[1..] == text;
  }

  lemma ReadEmpty(rest: string)
    ensures ReadValue("[]" + rest) == Some((Arr([]), rest))
    ensures ReadValue("{}" + rest) == Some((Obj([]), rest))
  {
    assert ("[]" + rest)[2..] == rest;
    assert ("{}" + rest)[2..] == rest;
  }

  lemma {:induction false} ReadRendered(v: Value, rest: string)
    requires Plain(v) && Delimited(rest)
    ensures ReadValue(Render(v) + rest) == Some((v, rest))
    decreases v, 0
  {
    match v {
      case Str(t) => ReadRenderedStr(t, rest);
      case Num(n) => ReadRenderedNum(n, rest);
      case Bool(b) => ReadRenderedBool(b, rest);
      case Arr(items) =>
        if items == [] {
          ReadEmpty(rest);
        } else {
          ReadRenderedArr(items, rest);
        }
      case Obj(members) =>
        if members == [] {
          ReadEmpty(rest);
        } else {
          ReadRenderedObj(members, rest);
        }
    }
  }

  lemma {:induction false} ReadRenderedArr(items: seq<Value>, rest: string)
    requires items != [] && PlainItems(items)
    ensures ReadValue(Render(Arr(items)) + rest) == Some((Arr(items), rest))
    decreases items, 2
  {
    RenderHead(items[0]);
    ReadRenderedItems(items, rest);
    var text := RenderItems(items) + "]" + rest;
    assert text[0] == Render(items[0])[0];
    ReadBracketed(items, text, rest);
    assert "[" + text == Render(Arr(items)) + rest;
  }

  lemma {:induction false} ReadRenderedObj(members: seq<Member>, rest: string)
    requires members != [] && PlainMembers(members)
    ensures ReadValue(Render(Obj(members)) + rest) == Some((Obj(members), rest))
    decreases members, 3
  {
    ReadRenderedMembers(members, rest);
    var text := RenderMembers(members) + "}" + rest;
    assert text[0] == RenderMember(members[0])[0] == '"';
    ReadBraced(members, text, rest);
    assert "{" + text == Render(Obj(members)) + rest;
  }

  lemma {:induction false} ReadRenderedItems(items: seq<Value>, rest: string)
    requires items != [] && PlainItems(items)
    ensures ReadItems(RenderItems(items) + "]" + rest) == Some((items, rest))
    decreases items, 1
  {
    if |items| == 1 {
      ReadRendered(items[0], "]" + rest);
      ReadOneItems(items, rest);
    } else {
      ReadRendered(items[0], "," + (RenderItems(items[1..]) + "]" + rest));
      ReadRenderedItems(items[1..], rest);
      ReadMoreItems(items, rest);
    }
  }

  lemma ReadOneItems(items: seq<Value>, rest: string)
    requires |items| == 1
    requires ReadValue(Render(items[0]) + ("]" + rest)) == Some((items[0], "]" + rest))
    ensures ReadItems(RenderItems(items) + "]" + rest) == Some((items, rest))
  {
    ReadLastItem(items[0], Render(items[0]), rest);
    assert items == [items[0]];
    ItemsHead(items, rest);
  }

  lemma ReadMoreItems(items: seq<Value>, rest: string)
    requires |items| > 1
    requires var tail := RenderItems(items[1..]) + "]" + rest;
      ReadValue(Render(items[0]) + ("," + tail)) == Some((items[0], "," + tail))
        && ReadItems(tail) == Some((items[1..], rest))
    ensures ReadItems(RenderItems(items) + "]" + rest) == Some((items, rest))
  {
    ReadNextItem(items[0], Render(items[0]), items[1..], RenderItems(items[1..]) + "]" + rest, rest);
    assert items == [items[0]] + items[1..];
    ItemsHead(items, rest);
  }

  lemma ItemsHead(items: seq<Value>, rest: string)
    requires items != []
    ensures RenderItems(items) + "]" + rest ==
            if |items| == 1 then Render(items[0]) + ("]" + rest)
            else Render(items[0]) + ("," + (RenderItems(items[1..]) + "]" + rest))
  {
    if |items| == 1 {
      Associate(Render(items[0]), "]", rest);
    } else {
      Reassociate(Render(items[0]), RenderItems(items[1..]), "]", rest);
    }
  }

  lemma Associate(a: string, b: string, c: string)
    ensures a + b + c == a + (b + c)
  {
  }

  lemma ReadLastItem(v: Value, text: string, rest: string)
    requires ReadValue(text + ("]" + rest)) == Some((v, "]" + rest))
    ensures ReadItems(text + ("]" + rest)) == Some(([v], rest))
  {
    assert ("]" + rest)[1..] == rest;
  }

  lemma ReadNextItem(v: Value, text: string, vs: seq<Value>, tail: string, rest: string)
    requires ReadValue(text + ("," + tail)) == Some((v, "," + tail))
    requires ReadItems(tail) == Some((vs, rest))
    ensures ReadItems(text + ("," + tail)) == Some(([v] + vs, rest))
  {
    assert ("," + tail)[1..] == tail;
  }

  lemma {:induction false} ReadRenderedMember(m: Member, rest: string)
    requires PlainMember(m) && Delimited(rest)
    ensures ReadMember(RenderMember(m) + rest) == Some((m, rest))
    decreases m, 1
  {
    var after := ":" + Render(m.value) + rest;
    assert RenderMember(m) + rest == "\"" + m.name + "\"" + after;
    ReadRenderedText(m.name, after);
    assert after[1..] == Render(m.value) + rest;
    ReadRendered(m.value, rest);
  }

  lemma {:induction false} ReadRenderedMembers(members: seq<Member>, rest: string)
    requires members != [] && PlainMembers(members)
    ensures ReadMembers(RenderMembers(members) + "}" + rest) == Some((members, rest))
    decreases members, 2
  {
    if |members| == 1 {
      ReadRenderedMember(members[0], "}" + rest);
      ReadOneMembers(members, rest);
    } else {
      ReadRenderedMember(members[0], "," + (RenderMembers(members[1..]) + "}" + rest));
      ReadRenderedMembers(members[1..], rest);
      ReadMoreMembers(members, rest);
    }
  }

  lemma ReadOneMembers(members: seq<Member>, rest: string)
    requires |members| == 1
    requires ReadMember(RenderMember(members[0]) + ("}" + rest)) == Some((members[0], "}" + rest))
    ensures ReadMembers(RenderMembers(members) + "}" + rest) == Some((members, rest))
  {
    ReadLastMember(members[0], RenderMember(members[0]), rest);
    assert members == [members[0]];
    MembersHead(members, rest);
  }

  lemma ReadMoreMembers(members: seq<Member>, rest: string)
    requires |members| > 1
    requires var tail := RenderMembers(members[1..]) + "}" + rest;
      ReadMember(RenderMember(members[0]) + ("," + tail)) == Some((members[0], "," + tail))
        && ReadMembers(tail) == Some((members[1..], rest))
    ensures ReadMembers(RenderMembers(members) + "}" + rest) == Some((members, rest))
  {
    ReadNextMember(members[0], RenderMember(members[0]), members[1..], RenderMembers(members[1..]) + "}" + rest, rest);
    assert members == [members[0]] + members[1..];
    MembersHead(members, rest);
  }

  lemma MembersHead(members: seq<Member>, rest: string)
    requires members != []
    ensures RenderMembers(members) + "}" + rest ==
            if |members| == 1 then RenderMember(members[0]) + ("}" + rest)
            else RenderMember(members[0]) + ("," + (RenderMembers(members[1..]) + "}" + rest))
  {
    if |members| == 1 {
      Associate(RenderMember(members[0]), "}", rest);
    } else {
      Reassociate(RenderMember(members[0]), RenderMembers(members[1..]), "}", rest);
    }
  }

  lemma Reassociate(a: string, b: string, close: string, rest: string)
    ensures a + "," + b + close + rest == a + ("," + (b + close + rest))
  {
  }

  lemma ReadLastMember(m: Member, text: string, rest: string)
    requires ReadMember(text + ("}" + rest)) == Some((m, "}" + rest))
    ensures ReadMembers(text + ("}" + rest)) == Some(([m], rest))
  {
    assert ("}" + rest)[1..] == rest;
  }

  lemma ReadNextMember(m: Member, text: string, ms: seq<Member>, tail: string, rest: string)
    requires ReadMember(text + ("," + tail)) == Some((m, "," + tail))
    requires ReadMembers(tail) == Some((ms, rest))
    ensures ReadMembers(text + ("," + tail)) == Some(([m] + ms, rest))
  {
    assert ("," + tail)[1..] == tail;
  }

  // ---------------------------------------------------------------- reading, then rendering

  lemma ReadNatSound(s: string)
    requires ReadNat(s).Some?
    ensures var (n, rest) := ReadNat(s).value;
      s == RenderNat(n) + rest && (s[0] != '0' ==> n > 0)
  {
    var k := DigitCount(s);
    NatValueRenders(s[..k]);
    assert s == s[..k] + s[k..];
  }

  lemma ReadTextSound(s: string)
    requires ReadText(s).Some?
    ensures var (t, rest) := ReadText(s).value;
      PlainText(t) && s == "\"" + t + "\"" + rest
  {
    var k := PlainCount(s[1..]);
    assert s[1..k + 1] == s[1..][..k];
    assert s == "\"" + s[1..k + 1] + "\"" + s[k + 2..];
  }

  /** The reader on the texts that start neither with a bracket nor with a brace. */
  lemma ReadScalarSound(s: string)
    requires ReadValue(s).Some? && s[0] != '[' && s[0] != '{'
    ensures var (v, rest) := ReadValue(s).value; Plain(v) && s == Render(v) + rest
  {
    if s[0] == '"' {
      ReadTextSound(s);
      assert ReadValue(s) == Some((Str(ReadText(s).value.0), ReadText(s).value.1));
    } else if s[0] == 't' || s[0] == 'f' {
      ReadBoolSound(s);
    } else {
      ReadNumSound(s);
    }
  }

  lemma ReadNumSound(s: string)
    requires ReadValue(s).Some? && s[0] !in "\"[{tf"
    ensures var (v, rest) := ReadValue(s).value; Plain(v) && s == Render(v) + rest
  {
    assert s[0] != '"' && s[0] != '[' && s[0] != '{' && s[0] != 't' && s[0] != 'f';
    if s[0] == '-' {
      var (n, rest) := ReadNat(s[1..]).value;
      assert ReadValue(s) == Some((Num(0 - n as int), rest));
      NegativeSound(s, n, rest);
    } else {
      var (n, rest) := ReadNat(s).value;
      assert ReadValue(s) == Some((Num(n), rest));
      NonNegativeSound(s, n, rest);
    }
  }

  lemma NegativeSound(s: string, n: nat, rest: string)
    requires s != [] && s[0] == '-' && ReadNat(s[1..]) == Some((n, rest)) && n > 0
    ensures s == Render(Num(0 - n as int)) + rest
  {
    ReadNatSound(s[1..]);
    assert s == "-" + s[1..];
    SignInFront(n, rest);
    RenderNumIs(0 - n as int);
  }

  lemma NonNegativeSound(s: string, n: nat, rest: string)
    requires s != [] && ReadNat(s) == Some((n, rest))
    ensures s == Render(Num(n)) + rest
  {
    ReadNatSound(s);
    RenderNumIs(n);
  }

  lemma RenderNumIs(n: int)
    ensures Render(Num(n)) == RenderInt(n) && (n >= 0 ==> RenderInt(n) == RenderNat(n))
  {
  }

  lemma ReadBoolSound(s: string)
    requires ReadValue(s).Some? && (s[0] == 't' || s[0] == 'f')
    ensures var (v, rest) := ReadValue(s).value; Plain(v) && s == Render(v) + rest
  {
    if s[0] == 't' {
      assert s == s[..4] + s[4..];
    } else {
      assert s == s[..5] + s[5..];
    }
  }

  lemma ReadEmptySound(s: string)
    requires ReadValue(s).Some? && |s| > 1 && (s[..2] == "[]" || s[..2] == "{}")
    ensures var (v, rest) := ReadValue(s).value; Plain(v) && s == Render(v) + rest
  {
    EmptyRenders();
    ReadEmpty(s[2..]);
    assert s == s[..2] + s[2..];
  }

  lemma EmptyRenders()
    ensures Render(Arr([])) == "[]" && Render(Obj([])) == "{}"
    ensures Plain(Arr([])) && Plain(Obj([]))
  {
  }

  lemma {:induction false} ReadValueSound(s: string)
    requires ReadValue(s).Some?
    ensures var (v, rest) := ReadValue(s).value; Plain(v) && s == Render(v) + rest
    decreases |s|, 0
  {
    if s[0] != '[' && s[0] != '{' {
      ReadScalarSound(s);
    } else if s[0] == '[' {
      if |s| > 1 && s[1] == ']' {
        ReadEmptySound(s);
      } else {
        ReadItemsSound(s[1..]);
        var (items, rest) := ReadItems(s[1..]).value;
        FirstAndRest(s);
        Enclose("[", RenderItems(items), "]", rest);
      }
    } else if |s| > 1 && s[1] == '}' {
      ReadEmptySound(s);
    } else {
      ReadMembersSound(s[1..]);
      var (members, rest) := ReadMembers(s[1..]).value;
      FirstAndRest(s);
      Enclose("{", RenderMembers(members), "}", rest);
    }
  }

  lemma {:induction false} ReadItemsSound(s: string)
    requires ReadItems(s).Some?
    ensures var (items, rest) := ReadItems(s).value;
      PlainItems(items) && s == RenderItems(items) + "]" + rest
    decreases |s|, 1
  {
    ReadValueSound(s);
    var (v, rest) := ReadValue(s).value;
    if rest[0] == ']' {
      assert rest == "]" + rest[1..];
    } else {
      ReadItemsSound(rest[1..]);
      var (vs, after) := ReadItems(rest[1..]).value;
      ItemsShape(v, vs, rest, after);
    }
  }

  lemma {:induction false} ReadMemberSound(s: string)
    requires ReadMember(s).Some?
    ensures var (m, rest) := ReadMember(s).value; PlainMember(m) && s == RenderMember(m) + rest
    decreases |s|, 1
  {
    ReadTextSound(s);
    var (name, rest) := ReadText(s).value;
    ReadValueSound(rest[1..]);
    var (v, after) := ReadValue(rest[1..]).value;
    MemberShape(name, v, rest, after);
  }

  lemma MemberShape(name: string, v: Value, rest: string, after: string)
    requires rest != [] && rest[0] == ':' && rest[1..] == Render(v) + after
    ensures "\"" + name + "\"" + rest == RenderMember(Member(name, v)) + after
  {
    assert rest == ":" + (Render(v) + after);
  }

  lemma {:induction false} ReadMembersSound(s: string)
    requires ReadMembers(s).Some?
    ensures var (members, rest) := ReadMembers(s).value;
      PlainMembers(members) && s == RenderMembers(members) + "}" + rest
    decreases |s|, 2
  {
    ReadMemberSound(s);
    var (m, rest) := ReadMember(s).value;
    if rest[0] == '}' {
      assert rest == "}" + rest[1..];
    } else {
      ReadMembersSound(rest[1..]);
      var (ms, after) := ReadMembers(rest[1..]).value;
      MembersShape(m, ms, rest, after);
    }
  }

  lemma ItemsShape(v: Value, vs: seq<Value>, rest: string, after: string)
    requires Plain(v) && PlainItems(vs) && vs != []
    requires rest != [] && rest[0] == ',' && rest[1..] == RenderItems(vs) + "]" + after
    ensures PlainItems([v] + vs)
    ensures Render(v) + rest == RenderItems([v] + vs) + "]" + after
  {
    assert ([v] + vs)[0] == v && ([v] + vs)[1..] == vs;
    FirstAndRest(rest);
    ItemsHead([v] + vs, after);
  }

  lemma MembersShape(m: Member, ms: seq<Member>, rest: string, after: string)
    requires PlainMember(m) && PlainMembers(ms) && ms != []
    requires rest != [] && rest[0] == ',' && rest[1..] == RenderMembers(ms) + "}" + after
    ensures PlainMembers([m] + ms)
    ensures RenderMember(m) + rest == RenderMembers([m] + ms) + "}" + after
  {
    assert ([m] + ms)[0] == m && ([m] + ms)[1..] == ms;
    FirstAndRest(rest);
    MembersHead([m] + ms, after);
  }

  lemma Enclose(open: string, inside: string, close: string, rest: string)
    ensures open + (inside + close + rest) == open + inside + close + rest
  {
  }

  lemma FirstAndRest(s: string)
    requires s != []
    ensures s == [s[0]] + s[1..]
  {
  }

  // ---------------------------------------------------------------- the two theorems

  /** The texts the reader accepts are exactly the renderings of plain trees, and it recovers the tree. */
  lemma ReadIffRendered(s: string, v: Value)
    ensures Read(s) == Some(v) <==> Plain(v) && s == Render(v)
  {
    if Read(s) == Some(v) {
      ReadValueSound(s);
      assert Render(v) + [] == Render(v);
    }
    if Plain(v) && s == Render(v) {
      ReadRendered(v, []);
      assert Render(v) + [] == Render(v);
    }
  }

  /** Hence two plain trees with one text are one tree. */
  lemma RenderInjective(v: Value, w: Value)
    requires Plain(v) && Plain(w) && Render(v) == Render(w)
    ensures v == w
  {
    ReadIffRendered(Render(v), v);
    ReadIffRendered(Render(v), w);
  }

  // ---------------------------------------------------------------- building texts from the left

  lemma CommaAssociates(a: string, b: string, c: string)
    ensures a + "," + (b + "," + c) == a + "," + b + "," + c
  {
  }

  lemma RenderMembersCons(m: Member, rest: seq<Member>)
    requires rest != []
    ensures RenderMembers([m] + rest) == RenderMember(m) + "," + RenderMembers(rest)
  {
    assert ([m] + rest)[1..] == rest;
  }

  lemma {:induction false} RenderMembersAppend(ms: seq<Member>, m: Member)
    requires ms != []
    ensures RenderMembers(ms + [m]) == RenderMembers(ms) + "," + RenderMember(m)
  {
    assert ms == [ms[0]] + ms[1..];
    if |ms| == 1 {
      assert ms == [ms[0]];
      RenderMembersCons(ms[0], [m]);
    } else {
      RenderMembersAppend(ms[1..], m);
      assert ms + [m] == [ms[0]] + (ms[1..] + [m]);
      RenderMembersCons(ms[0], ms[1..] + [m]);
      RenderMembersCons(ms[0], ms[1..]);
      CommaAssociates(RenderMember(ms[0]), RenderMembers(ms[1..]), RenderMember(m));
    }
  }

  lemma RenderItemsCons(v: Value, rest: seq<Value>)
    requires rest != []
    ensures RenderItems([v] + rest) == Render(v) + "," + RenderItems(rest)
  {
    assert ([v] + rest)[1..] == rest;
  }

  lemma {:induction false} RenderItemsAppend(vs: seq<Value>, v: Value)
    requires vs != []
    ensures RenderItems(vs + [v]) == RenderItems(vs) + "," + Render(v)
  {
    assert vs == [vs[0]] + vs[1..];
    if |vs| == 1 {
      assert vs == [vs[0]];
      RenderItemsCons(vs[0], [v]);
    } else {
      RenderItemsAppend(vs[1..], v);
      assert vs + [v] == [vs[0]] + (vs[1..] + [v]);
      RenderItemsCons(vs[0], vs[1..] + [v]);
      RenderItemsCons(vs[0], vs[1..]);
      CommaAssociates(Render(vs[0]), RenderItems(vs[1..]), Render(v));
    }
  }

  lemma {:induction false} PlainMembersAt(ms: seq<Member>)
    ensures PlainMembers(ms) <==> forall i :: 0 <= i < |ms| ==> PlainMember(ms[i])
  {
    if ms != [] {
      PlainMembersAt(ms[1..]);
      assert forall i :: 1 <= i < |ms| ==> ms[i] == ms[1..][i - 1];
    }
  }

  lemma {:induction false} PlainItemsAt(vs: seq<Value>)
    ensures PlainItems(vs) <==> forall i :: 0 <= i < |vs| ==> Plain(vs[i])
  {
    if vs != [] {
      PlainItemsAt(vs[1..]);
      assert forall i :: 1 <= i < |vs| ==> vs[i] == vs[1..][i - 1];
    }
  }

  // ---------------------------------------------------------------- looking up members

  /** The value of the first member with a name. */
  function Lookup(ms: seq<Member>, name: string): Option<Value> {
    if ms == [] then None else if ms[0].name == name then Some(ms[0].value) else Lookup(ms[1..], name)
  }

  lemma {:induction false} LookupFirst(ms: seq<Member>, name: string, i: nat)
    requires i < |ms| && ms[i].name == name
    requires forall j :: 0 <= j < i ==> ms[j].name != name
    ensures Lookup(ms, name) == Some(ms[i].value)
  {
    if i > 0 {
      LookupFirst(ms[1..], name, i - 1);
    }
  }

  lemma {:induction false} LookupMissing(ms: seq<Member>, name: string)
    requires forall j :: 0 <= j < |ms| ==> ms[j].name != name
    ensures Lookup(ms, name) == None
  {
    if ms != [] {
      LookupMissing(ms[1..], name);
    }
  }

  lemma {:induction false} LookupConcat(a: seq<Member>, b: seq<Member>, name: string)
    ensures Lookup(a + b, name) == if Lookup(a, name).Some? then Lookup(a, name) else Lookup(b, name)
  {
    if a == [] {
      assert a + b == b;
    } else {
      LookupConcat(a[1..], b, name);
      assert (a + b)[1..] == a[1..] + b;
    }
  }
}
