/**
 Finds the first JSON array in the free text of a model. Brackets inside string literals do not count.
 The grammar is that of RFC 8259: values (section 3), objects (section 4), arrays (section 5), numbers
 (section 6) and strings (section 7), with white space (section 2) wherever it may stand.
 */
module JsonExtract {
  import opened Wrappers

  // ---------------------------------------------------------------------------
  // Brackets outside string literals
  // ---------------------------------------------------------------------------

  datatype Quote = Outside | Inside | Escaping

  function Next(q: Quote, c: char): Quote {
    match q
    case Outside => if c == '"' then Inside else Outside
    case Inside => if c == '\\' then Escaping else if c == '"' then Outside else Inside
    case Escaping => Inside
  }

  /** Is a text, read from its start, inside a string literal at its end? */
  function QuoteOf(t: string): Quote {
    if t == "" then Outside else Next(QuoteOf(t[..|t| - 1]), t[|t| - 1])
  }

  function Weight(q: Quote, c: char): int {
    if !q.Outside? then 0 else if c == '[' then 1 else if c == ']' then -1 else 0
  }

  /** Opening minus closing brackets of a text, outside string literals. */
  function Depth(t: string): int {
    if t == "" then 0 else Depth(t[..|t| - 1]) + Weight(QuoteOf(t[..|t| - 1]), t[|t| - 1])
  }

  /** Balanced, and no shorter beginning is. */
  predicate ShortestBalanced(t: string) {
    t != "" && Depth(t) == 0 && forall n | 0 < n < |t| :: Depth(t[..n]) > 0
  }

  predicate FirstBracket(raw: string, start: nat) {
    start < |raw| && raw[start] == '[' && forall i | 0 <= i < start :: raw[i] != '['
  }

  /** The position of the first opening bracket. */
  method FindBracket(raw: string) returns (start: Option<nat>)
    ensures start.Some? ==> FirstBracket(raw, start.value)
    ensures start.None? ==> '[' !in raw
  {
    var i := 0;
    while i < |raw|
      invariant 0 <= i <= |raw|
      invariant forall k | 0 <= k < i :: raw[k] != '['
    {
      if raw[i] == '[' {
        return Some(i);
      }
      i := i + 1;
    }
    return None;
  }

  /**
   Scans from the first opening bracket. What it returns is the shortest balanced text from there; it
   returns nothing only if there is no bracket or no such text.
   */
  method ExtractJsonArray(raw: string) returns (text: Option<string>)
    ensures text.Some? ==> exists start: nat ::
              FirstBracket(raw, start) && start + |text.value| <= |raw|
              && text.value == raw[start..start + |text.value|] && ShortestBalanced(text.value)
    ensures text.None? ==> forall start: nat, end: nat | FirstBracket(raw, start) && start < end <= |raw| ::
              !ShortestBalanced(raw[start..end])
  {
    var found := FindBracket(raw);
    if found.None? {
      return None;
    }
    var start := found.value;
    var depth, inString, escaped := 0, false, false;
    var i := start;
    while i < |raw|
      invariant start <= i <= |raw|
      invariant depth == Depth(raw[start..i])
      invariant inString == !QuoteOf(raw[start..i]).Outside? && escaped == QuoteOf(raw[start..i]).Escaping?
      invariant forall n | start < n <= i :: Depth(raw[start..n]) > 0
    {
      var c := raw[i];
      assert raw[start..i + 1][..i - start] == raw[start..i];
      i := i + 1;
      if inString {
        if escaped {
          escaped := false;
        } else if c == '\\' {
          escaped := true;
        } else if c == '"' {
          inString := false;
        }
      } else if c == '"' {
        inString := true;
      } else if c == '[' {
        depth := depth + 1;
      } else if c == ']' {
        depth := depth - 1;
        if depth == 0 {
          ShortestFromScan(raw, start, i);
          return Some(raw[start..i]);
        }
      }
    }
    forall other: nat, end: nat | FirstBracket(raw, other) && other < end <= |raw|
      ensures !ShortestBalanced(raw[other..end])
    {
      OneFirstBracket(raw, start, other);
    }
    return None;
  }

  lemma OneFirstBracket(raw: string, a: nat, b: nat)
    requires FirstBracket(raw, a) && FirstBracket(raw, b)
    ensures a == b
  {
  }

  lemma {:induction false} ShortestFromScan(raw: string, start: nat, end: nat)
    requires start < end <= |raw| && Depth(raw[start..end]) == 0
    requires forall n | start < n < end :: Depth(raw[start..n]) > 0
    ensures ShortestBalanced(raw[start..end])
  {
    var t := raw[start..end];
    forall n | 0 < n < |t| ensures Depth(t[..n]) > 0 {
      assert t[..n] == raw[start..start + n];
    }
  }

  // ---------------------------------------------------------------------------
  // The grammar
  // ---------------------------------------------------------------------------

  /** A character of a string, as it is written. */
  datatype Written = Plain(c: char) | Escape(c: char) | Unicode(hex: string)

  predicate Hex(c: char) {
    '0' <= c <= '9' || 'a' <= c <= 'f' || 'A' <= c <= 'F'
  }

  predicate Digit(c: char) {
    '0' <= c <= '9'
  }

  predicate WrittenWell(w: Written) {
    match w
    case Plain(c) => ' ' <= c && c != '"' && c != '\\'
    case Escape(c) => c in {'"', '\\', '/', 'b', 'f', 'n', 'r', 't'}
    case Unicode(hex) => |hex| == 4 && forall i | 0 <= i < 4 :: Hex(hex[i])
  }

  predicate Space(s: string) {
    forall i | 0 <= i < |s| :: s[i] in {' ', '\t', '\n', '\r'}
  }

  predicate Digits(s: string) {
    s != "" && forall i | 0 <= i < |s| :: Digit(s[i])
  }

  datatype Exponent = NoExponent | Exponent(e: char, sign: string, digits: string)

  datatype Json =
    | Literal(name: string)
    | Number(minus: bool, whole: string, fraction: Option<string>, exponent: Exponent)
    | Str(chars: seq<Written>)
    | Arr(empty: string, items: seq<Item>)
    | Obj(empty: string, members: seq<Member>)

  /** A value with the white space around it. */
  datatype Item = Item(before: string, value: Json, after: string)

  datatype Member = Member(before: string, name: seq<Written>, colon: string, item: Item)

  predicate StrWell(chars: seq<Written>) {
    forall i | 0 <= i < |chars| :: WrittenWell(chars[i])
  }

  predicate ExponentWell(x: Exponent) {
    x.Exponent? ==> x.e in {'e', 'E'} && x.sign in {"", "+", "-"} && Digits(x.digits)
  }

  predicate Well(j: Json) {
    match j
    case Literal(name) => name in {"true", "false", "null"}
    case Number(_, whole, fraction, exponent) =>
      Digits(whole) && (whole[0] == '0' ==> |whole| == 1) && (fraction.Some? ==> Digits(fraction.value))
          && ExponentWell(exponent)
    case Str(chars) => StrWell(chars)
    case Arr(empty, items) => Space(empty) && forall i | 0 <= i < |items| :: ItemWell(items[i])
    case Obj(empty, members) => Space(empty) && forall i | 0 <= i < |members| :: MemberWell(members[i])
  }

  predicate ItemWell(x: Item) {
    Space(x.before) && Space(x.after) && Well(x.value)
  }

  predicate MemberWell(m: Member) {
    Space(m.before) && StrWell(m.name) && Space(m.colon) && ItemWell(m.item)
  }

  function WrittenText(w: Written): string {
    match w
    case Plain(c) => [c]
    case Escape(c) => ['\\', c]
    case Unicode(hex) => "\\u" + hex
  }

  function CharsText(chars: seq<Written>): string {
    if chars == [] then "" else WrittenText(chars[0]) + CharsText(chars[1..])
  }

  function StrText(chars: seq<Written>): string {
    "\"" + CharsText(chars) + "\""
  }

  function ExponentText(x: Exponent): string {
    if x.Exponent? then [x.e] + x.sign + x.digits else ""
  }

  function NumberText(minus: bool, whole: string, fraction: Option<string>, exponent: Exponent): string {
    (if minus then "-" else "") + whole + (if fraction.Some? then "." + fraction.value else "") + ExponentText(exponent)
  }

  function Text(j: Json): string
    decreases j, 0
  {
    match j
    case Literal(name) => name
    case Number(minus, whole, fraction, exponent) => NumberText(minus, whole, fraction, exponent)
    case Str(chars) => StrText(chars)
    case Arr(empty, items) => "[" + (if items == [] then empty else ItemsText(items)) + "]"
    case Obj(empty, members) => "{" + (if members == [] then empty else MembersText(members)) + "}"
  }

  function ItemText(x: Item): string
    decreases x, 1
  {
    x.before + Text(x.value) + x.after
  }

  function ItemsText(items: seq<Item>): string
    requires items != []
    decreases items, 2
  {
    if |items| == 1 then ItemText(items[0]) else ItemText(items[0]) + "," + ItemsText(items[1..])
  }

  function MemberText(m: Member): string
    decreases m, 2
  {
    m.before + StrText(m.name) + m.colon + ":" + ItemText(m.item)
  }

  function MembersText(members: seq<Member>): string
    requires members != []
    decreases members, 3
  {
    if |members| == 1 then MemberText(members[0]) else MemberText(members[0]) + "," + MembersText(members[1..])
  }

  // ---------------------------------------------------------------------------
  // Every array is found
  // ---------------------------------------------------------------------------

  /** Wherever it stands outside a string literal, a text leaves depth and literals as they were. */
  ghost predicate Steady(t: string) {
    forall p {:trigger SteadyAfter(p, t)} | QuoteOf(p) == Outside :: SteadyAfter(p, t)
  }

  predicate SteadyAfter(p: string, t: string) {
    && QuoteOf(p + t) == Outside && Depth(p + t) == Depth(p)
    && forall n | 0 <= n <= |t| :: Depth(p + t[..n]) >= Depth(p)
  }

  lemma {:induction false} OneMore(t: string, c: char)
    ensures QuoteOf(t + [c]) == Next(QuoteOf(t), c)
    ensures Depth(t + [c]) == Depth(t) + Weight(QuoteOf(t), c)
  {
    assert (t + [c])[..|t + [c]| - 1] == t;
  }

  lemma {:induction false} SteadyNothing()
    ensures Steady("")
  {
    forall p | QuoteOf(p) == Outside ensures SteadyAfter(p, "") {
      assert p + "" == p;
      assert ""[..0] == "";
    }
  }

  lemma {:induction false} SteadyConcatAt(p: string, a: string, b: string)
    requires SteadyAfter(p, a) && SteadyAfter(p + a, b)
    ensures SteadyAfter(p, a + b)
  {
    var t := a + b;
    assert p + t == p + a + b;
    forall n | 0 <= n <= |t| ensures Depth(p + t[..n]) >= Depth(p) {
      if n <= |a| {
        assert t[..n] == a[..n];
      } else {
        assert p + t[..n] == p + a + b[..n - |a|];
      }
    }
  }

  lemma {:induction false} SteadyConcat(a: string, b: string)
    requires Steady(a) && Steady(b)
    ensures Steady(a + b)
  {
    forall p | QuoteOf(p) == Outside ensures SteadyAfter(p, a + b) {
      assert SteadyAfter(p, a) && SteadyAfter(p + a, b);
      SteadyConcatAt(p, a, b);
    }
  }

  /** A character that is neither a quote nor a bracket. */
  predicate Harmless(c: char) {
    c != '"' && c != '[' && c != ']'
  }

  lemma {:induction false} SteadyCharacter(c: char)
    requires Harmless(c)
    ensures Steady([c])
  {
    forall p | QuoteOf(p) == Outside ensures SteadyAfter(p, [c]) {
      OneMore(p, c);
      forall n | 0 <= n <= 1 ensures Depth(p + [c][..n]) >= Depth(p) {
        assert [c][..n] == if n == 0 then "" else [c];
        assert p + "" == p;
      }
    }
  }

  lemma {:induction false} SteadyHarmless(t: string)
    requires forall i | 0 <= i < |t| :: Harmless(t[i])
    ensures Steady(t)
    decreases |t|
  {
    if t == "" {
      SteadyNothing();
    } else {
      SteadyCharacter(t[0]);
      SteadyHarmless(t[1..]);
      SteadyConcat([t[0]], t[1..]);
      assert t == [t[0]] + t[1..];
    }
  }

  /** Within a string literal, a written character stays within, at the same depth. */
  predicate StaysInside(p: string, t: string) {
    && QuoteOf(p + t) == Inside && Depth(p + t) == Depth(p)
    && forall n | 0 <= n <= |t| :: Depth(p + t[..n]) == Depth(p)
  }

  lemma {:induction false} InsideOne(p: string, c: char)
    requires QuoteOf(p) == Inside && c != '"' && c != '\\'
    ensures StaysInside(p, [c])
  {
    OneMore(p, c);
    assert p + "" == p;
    assert forall n | 0 <= n <= 1 :: [c][..n] == if n == 0 then "" else [c];
  }

  lemma {:induction false} InsideConcat(p: string, a: string, b: string)
    requires StaysInside(p, a) && StaysInside(p + a, b)
    ensures StaysInside(p, a + b)
  {
    assert p + (a + b) == p + a + b;
    forall n | 0 <= n <= |a + b| ensures Depth(p + (a + b)[..n]) == Depth(p) {
      if n <= |a| {
        assert (a + b)[..n] == a[..n];
      } else {
        assert p + (a + b)[..n] == p + a + b[..n - |a|];
      }
    }
  }

  lemma {:induction false} InsideEscape(p: string, c: char)
    requires QuoteOf(p) == Inside
    ensures StaysInside(p, ['\\', c])
  {
    var q := p + ['\\'];
    OneMore(p, '\\');
    OneMore(q, c);
    var t := ['\\', c];
    assert p + t == q + [c];
    forall n | 0 <= n <= 2 ensures Depth(p + t[..n]) == Depth(p) {
      if n == 0 {
        assert p + t[..0] == p;
      } else if n == 1 {
        assert p + t[..1] == q;
      } else {
        assert t[..2] == t;
      }
    }
  }

  lemma {:induction false} InsideWritten(p: string, w: Written)
    requires QuoteOf(p) == Inside && WrittenWell(w)
    ensures StaysInside(p, WrittenText(w))
  {
    match w
    case Plain(c) => InsideOne(p, c);
    case Escape(c) => InsideEscape(p, c);
    case Unicode(hex) =>
      InsideEscape(p, 'u');
      var q := p + "\\u";
      assert "\\u" == ['\\', 'u'];
      InsideOne(q, hex[0]);
      InsideOne(q + [hex[0]], hex[1]);
      InsideConcat(q, [hex[0]], [hex[1]]);
      InsideOne(q + ([hex[0]] + [hex[1]]), hex[2]);
      InsideConcat(q, [hex[0]] + [hex[1]], [hex[2]]);
      InsideOne(q + ([hex[0]] + [hex[1]] + [hex[2]]), hex[3]);
      InsideConcat(q, [hex[0]] + [hex[1]] + [hex[2]], [hex[3]]);
      assert hex == [hex[0]] + [hex[1]] + [hex[2]] + [hex[3]];
      InsideConcat(p, "\\u", hex);
  }

  lemma {:induction false} InsideChars(p: string, chars: seq<Written>)
    requires QuoteOf(p) == Inside && StrWell(chars)
    ensures StaysInside(p, CharsText(chars))
    decreases |chars|
  {
    if chars == [] {
      assert p + "" == p;
      assert ""[..0] == "";
    } else {
      InsideWritten(p, chars[0]);
      InsideChars(p + WrittenText(chars[0]), chars[1..]);
      InsideConcat(p, WrittenText(chars[0]), CharsText(chars[1..]));
    }
  }

  lemma {:induction false} QuotesNeverDip(p: string, inner: string, n: nat)
    requires QuoteOf(p) == Outside && StaysInside(p + "\"", inner) && n <= |inner| + 1
    ensures Depth(p + ("\"" + inner + "\"")[..n]) >= Depth(p)
  {
    var q, t := p + "\"", "\"" + inner + "\"";
    OneMore(p, '"');
    if n == 0 {
      assert p + t[..0] == p;
    } else {
      assert p + t[..n] == q + inner[..n - 1];
    }
  }

  lemma {:induction false} SteadyStringAt(p: string, inner: string)
    requires QuoteOf(p) == Outside && StaysInside(p + "\"", inner)
    ensures SteadyAfter(p, "\"" + inner + "\"")
  {
    var q, t := p + "\"", "\"" + inner + "\"";
    OneMore(p, '"');
    OneMore(q + inner, '"');
    assert p + t == q + inner + "\"";
    forall n | 0 <= n <= |t| ensures Depth(p + t[..n]) >= Depth(p) {
      if n <= |inner| + 1 {
        QuotesNeverDip(p, inner, n);
      } else {
        assert t[..n] == t;
      }
    }
  }

  lemma {:induction false} SteadyString(chars: seq<Written>)
    requires StrWell(chars)
    ensures Steady(StrText(chars))
  {
    forall p | QuoteOf(p) == Outside ensures SteadyAfter(p, StrText(chars)) {
      OneMore(p, '"');
      InsideChars(p + "\"", chars);
      SteadyStringAt(p, CharsText(chars));
    }
  }

  /** Between brackets, a steady text is steady. */
  lemma {:induction false} BracketsHold(p: string, t: string)
    requires QuoteOf(p) == Outside && Steady(t)
    ensures QuoteOf(p + "[" + t + "]") == Outside && Depth(p + "[" + t + "]") == Depth(p)
    ensures forall n | 0 <= n <= |t| :: Depth(p + "[" + t[..n]) > Depth(p)
  {
    OneMore(p, '[');
    assert SteadyAfter(p + "[", t);
    OneMore(p + "[" + t, ']');
  }

  lemma {:induction false} SteadyBracketsAt(p: string, t: string)
    requires QuoteOf(p) == Outside && Steady(t)
    ensures SteadyAfter(p, "[" + t + "]")
  {
    var s := "[" + t + "]";
    BracketsHold(p, t);
    assert p + s == p + "[" + t + "]";
    forall n | 0 <= n <= |s| ensures Depth(p + s[..n]) >= Depth(p) {
      if n == 0 {
        assert p + s[..0] == p;
      } else if n <= |t| + 1 {
        assert p + s[..n] == p + "[" + t[..n - 1];
      } else {
        assert s[..n] == s;
      }
    }
  }

  lemma {:induction false} SteadyBrackets(t: string)
    requires Steady(t)
    ensures Steady("[" + t + "]")
  {
    forall p | QuoteOf(p) == Outside ensures SteadyAfter(p, "[" + t + "]") {
      SteadyBracketsAt(p, t);
    }
  }

  lemma {:induction false} SteadyNumber(minus: bool, whole: string, fraction: Option<string>, exponent: Exponent)
    requires Digits(whole) && (fraction.Some? ==> Digits(fraction.value)) && ExponentWell(exponent)
    ensures Steady(NumberText(minus, whole, fraction, exponent))
  {
    var t := NumberText(minus, whole, fraction, exponent);
    forall i | 0 <= i < |t| ensures Harmless(t[i]) {
      assert forall k | 0 <= k < |ExponentText(exponent)| :: Harmless(ExponentText(exponent)[k]);
    }
    SteadyHarmless(t);
  }

  lemma {:induction false} SteadyValue(j: Json)
    requires Well(j)
    ensures Steady(Text(j))
    decreases j, 0
  {
    match j
    case Literal(name) => SteadyHarmless(name);
    case Number(minus, whole, fraction, exponent) => SteadyNumber(minus, whole, fraction, exponent);
    case Str(chars) => SteadyString(chars);
    case Arr(empty, items) =>
      SteadyInner(j);
      SteadyBrackets(Inner(j));
    case Obj(empty, members) =>
      if members == [] {
        SteadyHarmless("{" + empty + "}");
      } else {
        SteadyMembers(members);
        SteadyCharacter('{');
        SteadyCharacter('}');
        SteadyConcat("{", MembersText(members));
        SteadyConcat("{" + MembersText(members), "}");
      }
  }

  /** What stands between the brackets of an array. */
  function Inner(j: Json): string
    requires j.Arr?
  {
    if j.items == [] then j.empty else ItemsText(j.items)
  }

  lemma {:induction false} SteadyInner(j: Json)
    requires j.Arr? && Well(j)
    ensures Steady(Inner(j))
    decreases j.items, 3
  {
    if j.items == [] {
      SteadyHarmless(j.empty);
    } else {
      SteadyItems(j.items);
    }
  }

  lemma {:induction false} SteadyItem(x: Item)
    requires ItemWell(x)
    ensures Steady(ItemText(x))
    decreases x, 1
  {
    SteadyHarmless(x.before);
    SteadyValue(x.value);
    SteadyHarmless(x.after);
    SteadyConcat(x.before, Text(x.value));
    SteadyConcat(x.before + Text(x.value), x.after);
  }

  lemma {:induction false} SteadyItems(items: seq<Item>)
    requires items != [] && forall i | 0 <= i < |items| :: ItemWell(items[i])
    ensures Steady(ItemsText(items))
    decreases items, 2
  {
    SteadyItem(items[0]);
    if |items| > 1 {
      SteadyItems(items[1..]);
      SteadyCharacter(',');
      SteadyConcat(ItemText(items[0]), ",");
      SteadyConcat(ItemText(items[0]) + ",", ItemsText(items[1..]));
    }
  }

  lemma {:induction false} SteadyMember(m: Member)
    requires MemberWell(m)
    ensures Steady(MemberText(m))
    decreases m, 2
  {
    SteadyHarmless(m.before);
    SteadyString(m.name);
    SteadyHarmless(m.colon + ":");
    SteadyItem(m.item);
    SteadyConcat(m.before, StrText(m.name));
    SteadyConcat(m.before + StrText(m.name), m.colon + ":");
    SteadyConcat(m.before + StrText(m.name) + (m.colon + ":"), ItemText(m.item));
    assert MemberText(m) == m.before + StrText(m.name) + (m.colon + ":") + ItemText(m.item);
  }

  lemma {:induction false} SteadyMembers(members: seq<Member>)
    requires members != [] && forall i | 0 <= i < |members| :: MemberWell(members[i])
    ensures Steady(MembersText(members))
    decreases members, 3
  {
    SteadyMember(members[0]);
    if |members| > 1 {
      SteadyMembers(members[1..]);
      SteadyCharacter(',');
      SteadyConcat(MemberText(members[0]), ",");
      SteadyConcat(MemberText(members[0]) + ",", MembersText(members[1..]));
    }
  }

  /** The text of an array is balanced, and none of its beginnings is. */
  lemma {:induction false} ArrayIsShortest(j: Json)
    requires j.Arr? && Well(j)
    ensures ShortestBalanced(Text(j))
  {
    var inner, t := Inner(j), Text(j);
    SteadyInner(j);
    BracketsHold("", inner);
    assert "" + "[" + inner + "]" == t;
    forall n | 0 < n < |t| ensures Depth(t[..n]) > 0 {
      assert t[..n] == "" + "[" + inner[..n - 1];
    }
  }

  /** Any array, after text without an opening bracket and before any text, is what is extracted. */
  method ExtractFromAnswer(prefix: string, j: Json, suffix: string) returns (text: Option<string>)
    requires '[' !in prefix && j.Arr? && Well(j)
    ensures text == Some(Text(j))
  {
    var raw := prefix + Text(j) + suffix;
    text := ExtractJsonArray(raw);
    ArrayIsShortest(j);
    var t := Text(j);
    AnswerHoldsArray(prefix, t, suffix);
    assert ShortestBalanced(raw[|prefix|..|prefix| + |t|]);
    if text.Some? {
      ghost var start: nat :| FirstBracket(raw, start) && start + |text.value| <= |raw|
                        && text.value == raw[start..start + |text.value|] && ShortestBalanced(text.value);
      OneFirstBracket(raw, start, |prefix|);
      SamePlace(raw, start, text.value, t);
    }
  }

  lemma {:induction false} AnswerHoldsArray(prefix: string, t: string, suffix: string)
    requires '[' !in prefix && t != "" && t[0] == '['
    ensures var raw := prefix + t + suffix;
            FirstBracket(raw, |prefix|) && raw[|prefix|..|prefix| + |t|] == t
  {
    var raw := prefix + t + suffix;
    forall i | 0 <= i < |prefix| ensures raw[i] != '[' {
      assert raw[i] == prefix[i] && prefix[i] in prefix;
    }
  }

  /** Only one text from a place is balanced and shortest. */
  lemma {:induction false} SamePlace(raw: string, start: nat, s: string, t: string)
    requires start + |s| <= |raw| && start + |t| <= |raw|
    requires s == raw[start..start + |s|] && t == raw[start..start + |t|]
    requires ShortestBalanced(s) && ShortestBalanced(t)
    ensures s == t
  {
    var short, long := if |s| <= |t| then s else t, if |s| <= |t| then t else s;
    assert short == long[..|short|];
  }
}
