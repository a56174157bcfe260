/** The translation of a conversation to the messages of the Anthropic API, and of its replies back. */
module Anthropic {
  import opened Wrappers
  import C = Conversation

  type Text = string
  type Input = string      // an arguments object, already parsed

  datatype Block =
    | TextBlock(text: Text)
    | Thinking(text: Text, signature: Text)
    | Redacted(data: Text)
    | ToolUse(id: Text, name: Text, input: Input)
    | ToolResult(id: Text, text: Text)
    | Other(kind: Text)

  datatype Call = Call(id: Text, name: Text, arguments: Text)

  /** A reply as it came, kept to be sent back literally, and the mark of the prefix it came with. */
  datatype Saved = Saved(content: seq<Block>, mark: Text)

  datatype Message =
    | User(text: Text)
    | Assistant(text: Text, calls: seq<Call>, saved: Option<Saved>)
    | Result(id: Text, text: Text)

  datatype Role = FromUser | FromAssistant

  datatype Out = Out(role: Role, content: seq<Block>)

  /** How arguments travel between JSON text and objects. */
  datatype Codec = Codec(parse: Text -> Input, dump: Input -> Text)

  const NO_OUTPUT: Text := "(sin salida)"
  const OPENING: Text := "(continuación de una conversación anterior)"

  // ---------------------------------------------------------------------------
  // The blocks of one message
  // ---------------------------------------------------------------------------

  predicate IsThinking(b: Block) {
    b.Thinking? || b.Redacted?
  }

  function WithoutThinking(s: seq<Block>): seq<Block> {
    if s == [] then []
    else (if IsThinking(s[0]) then [] else [s[0]]) + WithoutThinking(s[1..])
  }

  function UseIds(s: seq<Block>): seq<Text> {
    if s == [] then []
    else (if s[0].ToolUse? then [s[0].id] else []) + UseIds(s[1..])
  }

  function CallIds(calls: seq<Call>): seq<Text> {
    if calls == [] then [] else [calls[0].id] + CallIds(calls[1..])
  }

  function Uses(calls: seq<Call>, codec: Codec): seq<Block> {
    if calls == [] then []
    else [ToolUse(calls[0].id, calls[0].name, codec.parse(calls[0].arguments))] + Uses(calls[1..], codec)
  }

  /** A call told as text, for a request that declares no tools. */
  function Told(calls: seq<Call>, codec: Codec): seq<Block> {
    if calls == [] then []
    else
      var input := codec.dump(codec.parse(calls[0].arguments));
      [TextBlock("[llamada a tool " + calls[0].id + "] " + calls[0].name + "(" + input + ")")] + Told(calls[1..], codec)
  }

  function Lead(text: Text): seq<Block> {
    if C.Blank(text) then [] else [TextBlock(text)]
  }

  /** A reply in flight, sent back as it came. */
  predicate Literal(m: Message, withTools: bool) {
    withTools && m.Assistant? && m.calls != [] && m.saved.Some? && m.saved.value.content != []
  }

  function Reply(m: Message, withTools: bool, mark: Text, codec: Codec): seq<Block>
    requires m.Assistant?
  {
    if Literal(m, withTools) then
      if m.saved.value.mark != mark then WithoutThinking(m.saved.value.content) else m.saved.value.content
    else Lead(m.text) + if withTools then Uses(m.calls, codec) else Told(m.calls, codec)
  }

  function Output(m: Message): Text
    requires m.Result?
  {
    if m.text == [] then NO_OUTPUT else m.text
  }

  predicate LastIsToolResult(out: seq<Out>) {
    out != [] && out[|out| - 1].role.FromUser? && out[|out| - 1].content != [] && out[|out| - 1].content[0].ToolResult?
  }

  // ---------------------------------------------------------------------------
  // The translation
  // ---------------------------------------------------------------------------

  /** One more message of the conversation. */
  function Step(out: seq<Out>, m: Message, withTools: bool, mark: Text, codec: Codec): seq<Out> {
    match m
    case Result(id, _) =>
      if !withTools then out + [Out(FromUser, [TextBlock("[resultado de tool " + id + "]\n" + Output(m))])]
      else if LastIsToolResult(out) then
        var last := out[|out| - 1];
        out[..|out| - 1] + [last.(content := last.content + [ToolResult(id, Output(m))])]
      else out + [Out(FromUser, [ToolResult(id, Output(m))])]
    case Assistant(_, _, _) =>
      var blocks := Reply(m, withTools, mark, codec);
      if blocks == [] && !Literal(m, withTools) then out else out + [Out(FromAssistant, blocks)]
    case User(text) =>
      if C.Blank(text) then out else out + [Out(FromUser, [TextBlock(text)])]
  }

  function Fold(out: seq<Out>, ms: seq<Message>, withTools: bool, mark: Text, codec: Codec): seq<Out>
    decreases |ms|
  {
    if ms == [] then out else Fold(Step(out, ms[0], withTools, mark, codec), ms[1..], withTools, mark, codec)
  }

  /** The first message must come from the user. */
  function Opened(out: seq<Out>): seq<Out> {
    if out != [] && out[0].role.FromAssistant? then [Out(FromUser, [TextBlock(OPENING)])] + out else out
  }

  function Translated(ms: seq<Message>, withTools: bool, mark: Text, codec: Codec): seq<Out> {
    Opened(Fold([], ms, withTools, mark, codec))
  }

  /** Builds the blocks of one assistant message. */
  method BuildReply(m: Message, withTools: bool, mark: Text, codec: Codec) returns (blocks: seq<Block>)
    requires m.Assistant?
    ensures blocks == Reply(m, withTools, mark, codec)
  {
    if withTools && m.calls != [] && m.saved.Some? && m.saved.value.content != [] {
      blocks := m.saved.value.content;
      if m.saved.value.mark != mark {
        blocks := WithoutThinking(blocks);
      }
      return;
    }
    blocks := [];
    if !C.Blank(m.text) {
      blocks := blocks + [TextBlock(m.text)];
    }
    var i := 0;
    while i < |m.calls|
      invariant 0 <= i <= |m.calls|
      invariant blocks + (if withTools then Uses(m.calls[i..], codec) else Told(m.calls[i..], codec))
             == Lead(m.text) + if withTools then Uses(m.calls, codec) else Told(m.calls, codec)
    {
      var call := m.calls[i];
      assert m.calls[i..][1..] == m.calls[i + 1..];
      var input := codec.parse(call.arguments);
      if withTools {
        blocks := blocks + [ToolUse(call.id, call.name, input)];
      } else {
        blocks := blocks + [TextBlock("[llamada a tool " + call.id + "] " + call.name + "(" + codec.dump(input) + ")")];
      }
      i := i + 1;
    }
  }

  /** Translates a conversation, message by message, onto a growing list. */
  method BuildMessages(ms: seq<Message>, withTools: bool, mark: Text, codec: Codec) returns (out: seq<Out>)
    ensures out == Translated(ms, withTools, mark, codec)
  {
    out := [];
    var i := 0;
    while i < |ms|
      invariant 0 <= i <= |ms|
      invariant Fold(out, ms[i..], withTools, mark, codec) == Fold([], ms, withTools, mark, codec)
    {
      var m := ms[i];
      assert ms[i..][1..] == ms[i + 1..];
      match m {
        case Result(id, text) =>
          var content := if text == [] then NO_OUTPUT else text;
          if !withTools {
            out := out + [Out(FromUser, [TextBlock("[resultado de tool " + id + "]\n" + content)])];
          } else if LastIsToolResult(out) {
            var last := out[|out| - 1];
            out := out[..|out| - 1] + [last.(content := last.content + [ToolResult(id, content)])];
          } else {
            out := out + [Out(FromUser, [ToolResult(id, content)])];
          }
        case Assistant(_, _, _) =>
          var blocks := BuildReply(m, withTools, mark, codec);
          if blocks != [] || Literal(m, withTools) {
            out := out + [Out(FromAssistant, blocks)];
          }
        case User(text) =>
          if !C.Blank(text) {
            out := out + [Out(FromUser, [TextBlock(text)])];
          }
      }
      i := i + 1;
    }
    if out != [] && out[0].role.FromAssistant? {
      out := [Out(FromUser, [TextBlock(OPENING)])] + out;
    }
  }

  // ---------------------------------------------------------------------------
  // Pairing
  // ---------------------------------------------------------------------------

  /** The message without what only this provider keeps. */
  function Bare(m: Message): C.Message {
    match m
    case User(text) => C.User(text, 0)
    case Assistant(text, calls, _) => C.Assistant(text, BareCalls(calls))
    case Result(id, text) => C.ToolResult(id, text)
  }

  function BareCalls(calls: seq<Call>): seq<C.Call> {
    if calls == [] then [] else [C.Call(calls[0].id, calls[0].name, calls[0].arguments)] + BareCalls(calls[1..])
  }

  function BareAll(ms: seq<Message>): seq<C.Message> {
    if ms == [] then [] else [Bare(ms[0])] + BareAll(ms[1..])
  }

  /** A saved reply carries the calls of its message, and no result. */
  predicate WellSaved(m: Message) {
    m.Assistant? && m.calls != [] && m.saved.Some? && m.saved.value.content != [] ==>
      UseIds(m.saved.value.content) == CallIds(m.calls) && NoResults(m.saved.value.content)
  }

  predicate NoResults(s: seq<Block>) {
    forall i | 0 <= i < |s| :: !s[i].ToolResult?
  }

  /** Exactly one result block per id, in order, and nothing else. */
  predicate ResultsOf(s: seq<Block>, ids: seq<Text>) {
    |s| == |ids| && forall i | 0 <= i < |s| :: s[i].ToolResult? && s[i].id == ids[i]
  }

  /**
   Each assistant message with tool uses is followed by one user message that holds exactly their
   results, in order; no other message holds a result.
   */
  predicate OutPaired(out: seq<Out>)
    decreases |out|
  {
    out == [] || (HeadPaired(out) && OutPaired(out[if Asks(out[0]) then 2 else 1..]))
  }

  /** An assistant message with tool uses. */
  predicate Asks(o: Out) {
    o.role.FromAssistant? && UseIds(o.content) != []
  }

  predicate HeadPaired(out: seq<Out>)
    requires out != []
  {
    && NoResults(out[0].content)
    && (Asks(out[0]) ==> |out| >= 2 && out[1].role.FromUser? && ResultsOf(out[1].content, UseIds(out[0].content)))
  }

  lemma {:induction false} OutPairedConcat(a: seq<Out>, b: seq<Out>)
    requires OutPaired(a) && OutPaired(b)
    ensures OutPaired(a + b)
    decreases |a|
  {
    if a == [] {
      assert a + b == b;
    } else {
      var n := if Asks(a[0]) then 2 else 1;
      OutPairedConcat(a[n..], b);
      assert (a + b)[n..] == a[n..] + b;
      assert HeadPaired(a + b);
    }
  }

  lemma {:induction false} UseIdsConcat(a: seq<Block>, b: seq<Block>)
    ensures UseIds(a + b) == UseIds(a) + UseIds(b)
    decreases |a|
  {
    if a == [] {
      assert a + b == b;
    } else {
      UseIdsConcat(a[1..], b);
      assert (a + b)[1..] == a[1..] + b;
    }
  }

  lemma {:induction false} UsesHoldTheIds(calls: seq<Call>, codec: Codec)
    ensures UseIds(Uses(calls, codec)) == CallIds(calls) && NoResults(Uses(calls, codec))
  {
    if calls != [] {
      UsesHoldTheIds(calls[1..], codec);
      var head := [ToolUse(calls[0].id, calls[0].name, codec.parse(calls[0].arguments))];
      assert Uses(calls, codec)[1..] == Uses(calls[1..], codec);
    }
  }

  lemma {:induction false} ThinkingUsesNothing(s: seq<Block>)
    ensures UseIds(WithoutThinking(s)) == UseIds(s)
  {
    if s != [] {
      ThinkingUsesNothing(s[1..]);
      if IsThinking(s[0]) {
        assert WithoutThinking(s) == WithoutThinking(s[1..]);
      } else {
        assert WithoutThinking(s)[1..] == WithoutThinking(s[1..]);
      }
    }
  }

  lemma {:induction false} ThinkingAnswersNothing(s: seq<Block>)
    requires NoResults(s)
    ensures NoResults(WithoutThinking(s))
  {
    if s != [] {
      ThinkingAnswersNothing(s[1..]);
      if !IsThinking(s[0]) {
        assert WithoutThinking(s)[1..] == WithoutThinking(s[1..]);
      }
    }
  }

  /** With tools, a reply holds exactly the calls of its message. */
  lemma {:induction false} ReplyHoldsTheIds(m: Message, mark: Text, codec: Codec)
    requires m.Assistant? && WellSaved(m)
    ensures UseIds(Reply(m, true, mark, codec)) == CallIds(m.calls) && NoResults(Reply(m, true, mark, codec))
  {
    UsesHoldTheIds(m.calls, codec);
    UseIdsConcat(Lead(m.text), Uses(m.calls, codec));
    if Literal(m, true) {
      ThinkingUsesNothing(m.saved.value.content);
      ThinkingAnswersNothing(m.saved.value.content);
    }
  }

  lemma {:induction false} BareCallIds(calls: seq<Call>)
    ensures |CallIds(calls)| == |calls| == |BareCalls(calls)|
    ensures forall k | 0 <= k < |calls| :: BareCalls(calls)[k].id == CallIds(calls)[k]
  {
    if calls != [] {
      BareCallIds(calls[1..]);
    }
  }

  lemma {:induction false} BareIndex(ms: seq<Message>)
    ensures |BareAll(ms)| == |ms|
    ensures forall i | 0 <= i < |ms| :: BareAll(ms)[i] == Bare(ms[i])
    ensures forall n | 0 <= n <= |ms| :: BareAll(ms[n..]) == BareAll(ms)[n..]
  {
    if ms != [] {
      BareIndex(ms[1..]);
      forall n | 0 <= n <= |ms| ensures BareAll(ms[n..]) == BareAll(ms)[n..] {
        if n > 0 {
          assert ms[n..] == ms[1..][n - 1..];
          assert BareAll(ms)[n..] == BareAll(ms)[1..][n - 1..];
        } else {
          assert ms[0..] == ms && BareAll(ms)[0..] == BareAll(ms);
        }
      }
    }
  }

  /** The results that follow an assistant are its own. */
  predicate Answered(results: seq<Message>, calls: seq<Call>) {
    |results| == |calls| && forall k | 0 <= k < |results| :: results[k].Result? && results[k].id == calls[k].id
  }

  /** The results of one batch, as blocks. */
  function ResultBlocks(ms: seq<Message>): seq<Block>
    requires forall i | 0 <= i < |ms| :: ms[i].Result?
  {
    seq(|ms|, i requires 0 <= i < |ms| => ToolResult(ms[i].id, Output(ms[i])))
  }

  /** Results after the first join the same user message. */
  lemma {:induction false} ResultsJoin(out: seq<Out>, blocks: seq<Block>, ms: seq<Message>, mark: Text, codec: Codec)
    requires blocks != [] && blocks[0].ToolResult? && forall i | 0 <= i < |ms| :: ms[i].Result?
    ensures Fold(out + [Out(FromUser, blocks)], ms, true, mark, codec) == out + [Out(FromUser,
            blocks + ResultBlocks(ms))]
    decreases |ms|
  {
    if ms == [] {
      assert blocks + ResultBlocks(ms) == blocks;
    } else {
      var before := out + [Out(FromUser, blocks)];
      var block := ToolResult(ms[0].id, Output(ms[0]));
      assert before[..|before| - 1] == out;
      assert Step(before, ms[0], true, mark, codec) == out + [Out(FromUser, blocks + [block])];
      ResultsJoin(out, blocks + [block], ms[1..], mark, codec);
      assert blocks + ResultBlocks(ms) == blocks + [block] + ResultBlocks(ms[1..]);
    }
  }

  lemma {:induction false} IdsByIndex(calls: seq<Call>)
    ensures |CallIds(calls)| == |calls| && forall k | 0 <= k < |calls| :: CallIds(calls)[k] == calls[k].id
  {
    if calls != [] {
      IdsByIndex(calls[1..]);
    }
  }

  /** One batch: an assistant with calls and its results become two messages. */
  lemma {:induction false} BatchTranslates(out: seq<Out>, m: Message, results: seq<Message>, mark: Text, codec: Codec)
    requires m.Assistant? && WellSaved(m) && m.calls != [] && Answered(results, m.calls)
    ensures Fold(out, [m] + results, true, mark, codec)
         == out + [Out(FromAssistant, Reply(m, true, mark, codec)), Out(FromUser, ResultBlocks(results))]
  {
    ReplyHoldsTheIds(m, mark, codec);
    IdsByIndex(m.calls);
    var reply := Reply(m, true, mark, codec);
    assert reply != [];
    var asked := out + [Out(FromAssistant, reply)];
    var first := ToolResult(results[0].id, Output(results[0]));
    assert ([m] + results)[1..] == results;
    assert Fold(out, [m] + results, true, mark, codec) == Fold(asked, results, true, mark, codec);
    assert Step(asked, results[0], true, mark, codec) == asked + [Out(FromUser, [first])];
    ResultsJoin(asked, [first], results[1..], mark, codec);
    assert [first] + ResultBlocks(results[1..]) == ResultBlocks(results);
    assert asked + [Out(FromUser, ResultBlocks(results))]
        == out + [Out(FromAssistant, reply), Out(FromUser, ResultBlocks(results))];
  }

  lemma {:induction false} BatchIsPaired(m: Message, results: seq<Message>, mark: Text, codec: Codec)
    requires m.Assistant? && WellSaved(m) && m.calls != [] && Answered(results, m.calls)
    ensures OutPaired([Out(FromAssistant, Reply(m, true, mark, codec)), Out(FromUser, ResultBlocks(results))])
  {
    ReplyHoldsTheIds(m, mark, codec);
    IdsByIndex(m.calls);
    var pair := [Out(FromAssistant, Reply(m, true, mark, codec)), Out(FromUser, ResultBlocks(results))];
    assert pair[2..] == [];
    assert HeadPaired(pair);
  }

  lemma {:induction false} FoldConcat(out: seq<Out>, a: seq<Message>, b: seq<Message>, withTools: bool, mark: Text,
                                      codec: Codec)
    ensures Fold(out, a + b, withTools, mark, codec) == Fold(Fold(out, a, withTools, mark, codec), b, withTools,
            mark, codec)
    decreases |a|
  {
    if a == [] {
      assert a + b == b;
    } else {
      assert (a + b)[1..] == a[1..] + b;
      FoldConcat(Step(out, a[0], withTools, mark, codec), a[1..], b, withTools, mark, codec);
    }
  }

  lemma {:induction false} BatchKeepsPairing(out: seq<Out>, m: Message, results: seq<Message>, mark: Text, codec: Codec)
    requires OutPaired(out) && m.Assistant? && WellSaved(m) && m.calls != [] && Answered(results, m.calls)
    ensures OutPaired(Fold(out, [m] + results, true, mark, codec))
  {
    BatchTranslates(out, m, results, mark, codec);
    BatchIsPaired(m, results, mark, codec);
    OutPairedConcat(out, [Out(FromAssistant, Reply(m, true, mark, codec)), Out(FromUser, ResultBlocks(results))]);
  }

  /** The pairing of the conversation is the pairing of the request. */
  lemma {:induction false} FoldKeepsPairing(out: seq<Out>, ms: seq<Message>, mark: Text, codec: Codec)
    requires OutPaired(out) && C.Paired(BareAll(ms)) && forall i | 0 <= i < |ms| :: WellSaved(ms[i])
    ensures OutPaired(Fold(out, ms, true, mark, codec))
    decreases |ms|
  {
    if ms != [] {
      var m := ms[0];
      if m.Assistant? && m.calls != [] {
        var n := |m.calls|;
        ResultsAnswer(ms, n);
        BatchKeepsPairing(out, m, ms[1..1 + n], mark, codec);
        var batch := [m] + ms[1..1 + n];
        assert ms == batch + ms[1 + n..];
        FoldConcat(out, batch, ms[1 + n..], true, mark, codec);
        FoldKeepsPairing(Fold(out, batch, true, mark, codec), ms[1 + n..], mark, codec);
      } else {
        SingleIsPaired(ms);
        SingleKeepsPairing(out, m, mark, codec);
        FoldKeepsPairing(Step(out, m, true, mark, codec), ms[1..], mark, codec);
      }
    }
  }

  lemma {:induction false} SingleIsPaired(ms: seq<Message>)
    requires ms != [] && C.Paired(BareAll(ms)) && !(ms[0].Assistant? && ms[0].calls != [])
    ensures !ms[0].Result? && C.Paired(BareAll(ms[1..]))
  {
    assert BareAll(ms)[0] == Bare(ms[0]);
    assert BareAll(ms)[1..] == BareAll(ms[1..]);
  }

  lemma {:induction false} ResultsAnswer(ms: seq<Message>, n: nat)
    requires ms != [] && ms[0].Assistant? && n == |ms[0].calls| && C.Paired(BareAll(ms))
    ensures 1 + n <= |ms| && C.Paired(BareAll(ms[1 + n..]))
    ensures Answered(ms[1..1 + n], ms[0].calls)
  {
    var s, calls := BareAll(ms), ms[0].calls;
    BareIndex(ms);
    BareCallIds(calls);
    assert s[0] == C.Assistant(ms[0].text, BareCalls(calls));
    assert C.Answers(s[1..1 + n], BareCalls(calls)) && C.Paired(s[1 + n..]);
    var results := ms[1..1 + n];
    forall k | 0 <= k < |results| ensures results[k].Result? && results[k].id == calls[k].id {
      AnswerAt(ms, s, k, n, calls);
    }
    assert Answered(results, calls);
    assert BareAll(ms[1 + n..]) == s[1 + n..];
  }

  lemma {:induction false} AnswerAt(ms: seq<Message>, s: seq<C.Message>, k: nat, n: nat, calls: seq<Call>)
    requires k < n && n + 1 <= |ms| == |s| && C.Answers(s[1..1 + n], BareCalls(calls)) && s[1 + k] == Bare(ms[1 + k])
    ensures k < |calls| && ms[1..1 + n][k].Result? && ms[1..1 + n][k].id == calls[k].id
  {
    BareCallIds(calls);
    IdsByIndex(calls);
    assert s[1..1 + n][k] == s[1 + k];
    assert CallIds(calls)[k] == BareCalls(calls)[k].id;
  }

  lemma {:induction false} SingleKeepsPairing(out: seq<Out>, m: Message, mark: Text, codec: Codec)
    requires OutPaired(out) && !m.Result? && !(m.Assistant? && m.calls != [])
    ensures OutPaired(Step(out, m, true, mark, codec))
  {
    var blocks := if m.Assistant? then Reply(m, true, mark, codec) else [TextBlock(m.text)];
    var one := [Out(if m.Assistant? then FromAssistant else FromUser, blocks)];
    assert blocks == Lead(m.text) || blocks == [TextBlock(m.text)];
    assert UseIds(blocks) == [] by {
      if blocks != [] {
        assert blocks[1..] == [];
      }
    }
    assert one[1..] == [];
    assert OutPaired(one);
    OutPairedConcat(out, one);
  }

  /**
   For a paired conversation the request is paired too: each assistant's tool uses are followed by one
   user message with exactly their results; and it opens with a user message.
   */
  lemma {:induction false} TranslationKeepsPairing(ms: seq<Message>, mark: Text, codec: Codec)
    requires C.Paired(BareAll(ms)) && forall i | 0 <= i < |ms| :: WellSaved(ms[i])
    ensures OutPaired(Translated(ms, true, mark, codec))
    ensures Translated(ms, true, mark, codec) != [] ==> Translated(ms, true, mark, codec)[0].role.FromUser?
  {
    FoldKeepsPairing([], ms, mark, codec);
    var out := Fold([], ms, true, mark, codec);
    assert ([Out(FromUser, [TextBlock(OPENING)])] + out)[1..] == out;
  }

  // ---------------------------------------------------------------------------
  // The contents
  // ---------------------------------------------------------------------------

  /** What one block of a request says, whatever message it travels in. */
  datatype Part = Said(role: Role, text: Text) | Asked(id: Text, name: Text, input: Input) | Got(id: Text, text: Text)
    | Carried(block: Block)

  function PartOf(role: Role, b: Block): Part {
    match b
    case TextBlock(text) => Said(role, text)
    case ToolUse(id, name, input) => Asked(id, name, input)
    case ToolResult(id, text) => Got(id, text)
    case _ => Carried(b)
  }

  function PartsOf(role: Role, s: seq<Block>): seq<Part> {
    seq(|s|, i requires 0 <= i < |s| => PartOf(role, s[i]))
  }

  /** Everything a request says, in order. */
  function Parts(out: seq<Out>): seq<Part> {
    if out == [] then [] else PartsOf(out[0].role, out[0].content) + Parts(out[1..])
  }

  /** What one message of the conversation has to say: with tools by blocks, without them as text. */
  function Meant(m: Message, withTools: bool, mark: Text, codec: Codec): seq<Part> {
    match m
    case User(text) => if C.Blank(text) then [] else [Said(FromUser, text)]
    case Result(id, text) =>
      var result := if text == [] then NO_OUTPUT else text;
      [if withTools then Got(id, result) else Said(FromUser, "[resultado de tool " + id + "]\n" + result)]
    case Assistant(text, calls, saved) =>
      if withTools && calls != [] && saved.Some? && saved.value.content != []
      then Resent(saved.value.content, saved.value.mark == mark)
      else
        (if C.Blank(text) then [] else [Said(FromAssistant, text)])
        + seq(|calls|, i requires 0 <= i < |calls| => Requested(calls[i], withTools, codec))
  }

  /** A saved reply, with its thinking or without. */
  function Resent(s: seq<Block>, thinking: bool): seq<Part> {
    if s == [] then []
    else (if IsThinking(s[0]) && !thinking then [] else [PartOf(FromAssistant, s[0])]) + Resent(s[1..], thinking)
  }

  function Requested(call: Call, withTools: bool, codec: Codec): Part {
    var input := codec.parse(call.arguments);
    if withTools then Asked(call.id, call.name, input)
    else Said(FromAssistant, "[llamada a tool " + call.id + "] " + call.name + "(" + codec.dump(input) + ")")
  }

  function MeantAll(ms: seq<Message>, withTools: bool, mark: Text, codec: Codec): seq<Part> {
    if ms == [] then [] else Meant(ms[0], withTools, mark, codec) + MeantAll(ms[1..], withTools, mark, codec)
  }

  /** Whose message is the first that leaves anything. */
  function FirstVoice(ms: seq<Message>, withTools: bool, mark: Text, codec: Codec): Option<Role> {
    if ms == [] then None
    else if Meant(ms[0], withTools, mark, codec) == [] && !Literal(ms[0], withTools)
    then FirstVoice(ms[1..], withTools, mark, codec)
    else Some(if ms[0].Assistant? then FromAssistant else FromUser)
  }

  lemma PartsOfConcat(role: Role, a: seq<Block>, b: seq<Block>)
    ensures PartsOf(role, a + b) == PartsOf(role, a) + PartsOf(role, b)
  {
    hide PartOf;
    assert |PartsOf(role, a + b)| == |PartsOf(role, a) + PartsOf(role, b)|;
  }

  lemma {:induction false} PartsConcat(a: seq<Out>, b: seq<Out>)
    ensures Parts(a + b) == Parts(a) + Parts(b)
    decreases |a|
  {
    if a == [] {
      assert a + b == b;
    } else {
      hide PartsOf;
      PartsConcat(a[1..], b);
      assert (a + b)[1..] == a[1..] + b;
    }
  }

  lemma {:induction false} OneMorePart(out: seq<Out>, o: Out)
    ensures Parts(out + [o]) == Parts(out) + PartsOf(o.role, o.content)
  {
    PartsConcat(out, [o]);
    assert [o][1..] == [];
    assert Parts([o]) == PartsOf(o.role, o.content) + Parts([]);
  }

  lemma {:induction false} OneBlock(role: Role, b: Block)
    ensures PartsOf(role, [b]) == [PartOf(role, b)]
  {
    assert [b][1..] == [];
  }

  lemma {:induction false} CallsByIndex(calls: seq<Call>, codec: Codec)
    ensures |Uses(calls, codec)| == |Told(calls, codec)| == |calls|
    ensures forall i | 0 <= i < |calls| ::
              && PartOf(FromAssistant, Uses(calls, codec)[i]) == Requested(calls[i], true, codec)
              && PartOf(FromAssistant, Told(calls, codec)[i]) == Requested(calls[i], false, codec)
  {
    if calls != [] {
      CallsByIndex(calls[1..], codec);
    }
  }

  lemma CallsSay(calls: seq<Call>, codec: Codec)
    ensures PartsOf(FromAssistant, Uses(calls, codec))
         == seq(|calls|, i requires 0 <= i < |calls| => Requested(calls[i], true, codec))
    ensures PartsOf(FromAssistant, Told(calls, codec))
         == seq(|calls|, i requires 0 <= i < |calls| => Requested(calls[i], false, codec))
  {
    CallsByIndex(calls, codec);
  }

  lemma {:induction false} ThinkingStays(s: seq<Block>)
    ensures Resent(s, true) == PartsOf(FromAssistant, s)
    ensures Resent(s, false) == PartsOf(FromAssistant, WithoutThinking(s))
  {
    if s != [] {
      ThinkingStays(s[1..]);
      if IsThinking(s[0]) {
        assert WithoutThinking(s) == WithoutThinking(s[1..]);
      } else {
        assert WithoutThinking(s)[1..] == WithoutThinking(s[1..]);
      }
    }
  }

  lemma {:induction false} ReplySays(m: Message, withTools: bool, mark: Text, codec: Codec)
    requires m.Assistant?
    ensures PartsOf(FromAssistant, Reply(m, withTools, mark, codec)) == Meant(m, withTools, mark, codec)
  {
    if Literal(m, withTools) {
      ThinkingStays(m.saved.value.content);
    } else {
      CallsSay(m.calls, codec);
      OneBlock(FromAssistant, TextBlock(m.text));
      PartsOfConcat(FromAssistant, Lead(m.text), if withTools then Uses(m.calls, codec) else Told(m.calls, codec));
    }
  }

  lemma {:induction false} StepSays(out: seq<Out>, m: Message, withTools: bool, mark: Text, codec: Codec)
    ensures Parts(Step(out, m, withTools, mark, codec)) == Parts(out) + Meant(m, withTools, mark, codec)
  {
    match m
    case Assistant(_, _, _) =>
      ReplySays(m, withTools, mark, codec);
      OneMorePart(out, Out(FromAssistant, Reply(m, withTools, mark, codec)));
    case User(text) =>
      OneBlock(FromUser, TextBlock(text));
      OneMorePart(out, Out(FromUser, [TextBlock(text)]));
    case Result(id, _) =>
      var block := if withTools then ToolResult(id, Output(m))
                   else TextBlock("[resultado de tool " + id + "]\n" + Output(m));
      OneBlock(FromUser, block);
      if withTools && LastIsToolResult(out) {
        var before, last := out[..|out| - 1], out[|out| - 1];
        assert out == before + [last];
        OneMorePart(before, last);
        OneMorePart(before, last.(content := last.content + [block]));
        PartsOfConcat(FromUser, last.content, [block]);
      } else {
        OneMorePart(out, Out(FromUser, [block]));
      }
  }

  lemma {:induction false} FoldSays(out: seq<Out>, ms: seq<Message>, withTools: bool, mark: Text, codec: Codec)
    ensures Parts(Fold(out, ms, withTools, mark, codec)) == Parts(out) + MeantAll(ms, withTools, mark, codec)
    decreases |ms|
  {
    if ms != [] {
      StepSays(out, ms[0], withTools, mark, codec);
      FoldSays(Step(out, ms[0], withTools, mark, codec), ms[1..], withTools, mark, codec);
    }
  }

  lemma {:induction false} FoldOpens(out: seq<Out>, ms: seq<Message>, withTools: bool, mark: Text, codec: Codec)
    ensures var all := Fold(out, ms, withTools, mark, codec);
            if out != [] then all != [] && all[0].role == out[0].role
            else (if all == [] then None else Some(all[0].role)) == FirstVoice(ms, withTools, mark, codec)
    decreases |ms|
  {
    if ms != [] {
      FoldOpens(Step(out, ms[0], withTools, mark, codec), ms[1..], withTools, mark, codec);
      if ms[0].Assistant? {
        ReplySays(ms[0], withTools, mark, codec);
        var reply := Reply(ms[0], withTools, mark, codec);
        assert reply == [] <==> PartsOf(FromAssistant, reply) == [];
      }
    }
  }

  lemma {:induction false} OpenedSays(out: seq<Out>)
    ensures Parts(Opened(out))
         == (if out != [] && out[0].role.FromAssistant? then [Said(FromUser, OPENING)] else []) + Parts(out)
  {
    var opening := Out(FromUser, [TextBlock(OPENING)]);
    PartsConcat([opening], out);
    OneMorePart([], opening);
    assert [] + [opening] == [opening];
    OneBlock(FromUser, TextBlock(OPENING));
  }

  /**
   The request says exactly what the conversation says, in the same order: every text that is not blank,
   every call with its arguments parsed, every result or the placeholder where it is empty, every saved
   reply as it came. Before it there is a placeholder exactly when an assistant speaks first.
   */
  lemma {:induction false} TranslationKeepsContents(ms: seq<Message>, withTools: bool, mark: Text, codec: Codec)
    ensures Parts(Translated(ms, withTools, mark, codec))
         == (if FirstVoice(ms, withTools, mark, codec) == Some(FromAssistant) then [Said(FromUser, OPENING)] else [])
            + MeantAll(ms, withTools, mark, codec)
  {
    hide Fold, MeantAll, FirstVoice, Opened;
    FoldSays([], ms, withTools, mark, codec);
    FoldOpens([], ms, withTools, mark, codec);
    OpenedSays(Fold([], ms, withTools, mark, codec));
  }

  /** The results that parts hold, each with the id of its call. */
  function ResultsIn(ps: seq<Part>): seq<(Text, Text)> {
    if ps == [] then [] else (if ps[0].Got? then [(ps[0].id, ps[0].text)] else []) + ResultsIn(ps[1..])
  }

  function ResultsOfAll(ms: seq<Message>): seq<(Text, Text)> {
    if ms == [] then []
    else
      (if ms[0].Result? then [(ms[0].id, if ms[0].text == [] then NO_OUTPUT else ms[0].text)] else [])
      + ResultsOfAll(ms[1..])
  }

  lemma {:induction false} ResultsInConcat(a: seq<Part>, b: seq<Part>)
    ensures ResultsIn(a + b) == ResultsIn(a) + ResultsIn(b)
    decreases |a|
  {
    if a == [] {
      assert a + b == b;
    } else {
      ResultsInConcat(a[1..], b);
      assert (a + b)[1..] == a[1..] + b;
    }
  }

  lemma {:induction false} NoGots(ps: seq<Part>)
    requires forall i | 0 <= i < |ps| :: !ps[i].Got?
    ensures ResultsIn(ps) == []
  {
    if ps != [] {
      NoGots(ps[1..]);
    }
  }

  lemma {:induction false} ResentHoldsNoResults(s: seq<Block>, thinking: bool)
    requires NoResults(s)
    ensures forall i | 0 <= i < |Resent(s, thinking)| :: !Resent(s, thinking)[i].Got?
  {
    if s != [] {
      ResentHoldsNoResults(s[1..], thinking);
    }
  }

  lemma {:induction false} MeantResults(ms: seq<Message>, mark: Text, codec: Codec)
    requires forall i | 0 <= i < |ms| :: WellSaved(ms[i])
    ensures ResultsIn(MeantAll(ms, true, mark, codec)) == ResultsOfAll(ms)
  {
    if ms != [] {
      MeantResults(ms[1..], mark, codec);
      var first := Meant(ms[0], true, mark, codec);
      ResultsInConcat(first, MeantAll(ms[1..], true, mark, codec));
      if ms[0].Result? {
        assert first[1..] == [];
      } else {
        if Literal(ms[0], true) {
          ResentHoldsNoResults(ms[0].saved.value.content, ms[0].saved.value.mark == mark);
        }
        NoGots(first);
      }
    }
  }

  /** The model is told the output of every call, under the id of its call and in order. */
  lemma {:induction false} ResultsArrive(ms: seq<Message>, mark: Text, codec: Codec)
    requires forall i | 0 <= i < |ms| :: WellSaved(ms[i])
    ensures ResultsIn(Parts(Translated(ms, true, mark, codec))) == ResultsOfAll(ms)
  {
    TranslationKeepsContents(ms, true, mark, codec);
    MeantResults(ms, mark, codec);
    ResultsInConcat([Said(FromUser, OPENING)], MeantAll(ms, true, mark, codec));
    NoGots([Said(FromUser, OPENING)]);
    assert [] + MeantAll(ms, true, mark, codec) == MeantAll(ms, true, mark, codec);
  }

  // ---------------------------------------------------------------------------
  // Without tools, and without empty blocks
  // ---------------------------------------------------------------------------

  predicate AllText(s: seq<Block>) {
    forall i | 0 <= i < |s| :: s[i].TextBlock?
  }

  predicate NoToolBlocks(out: seq<Out>) {
    forall i | 0 <= i < |out| :: AllText(out[i].content)
  }

  lemma {:induction false} ToldIsText(calls: seq<Call>, codec: Codec)
    ensures AllText(Told(calls, codec)) && |Told(calls, codec)| == |calls|
  {
    if calls != [] {
      ToldIsText(calls[1..], codec);
      assert Told(calls, codec)[1..] == Told(calls[1..], codec);
    }
  }

  lemma {:induction false} FoldWithoutTools(out: seq<Out>, ms: seq<Message>, mark: Text, codec: Codec)
    requires NoToolBlocks(out)
    ensures NoToolBlocks(Fold(out, ms, false, mark, codec))
    decreases |ms|
  {
    if ms != [] {
      if ms[0].Assistant? {
        ToldIsText(ms[0].calls, codec);
      }
      FoldWithoutTools(Step(out, ms[0], false, mark, codec), ms[1..], mark, codec);
    }
  }

  /** A request that declares no tools holds neither uses nor results, whatever the conversation. */
  lemma {:induction false} TranslationWithoutTools(ms: seq<Message>, mark: Text, codec: Codec)
    ensures NoToolBlocks(Translated(ms, false, mark, codec))
    ensures Translated(ms, false, mark, codec) != [] ==> Translated(ms, false, mark, codec)[0].role.FromUser?
  {
    FoldWithoutTools([], ms, mark, codec);
  }

  /** The API refuses a message without content and an empty text. */
  predicate Solid(b: Block) {
    (b.TextBlock? ==> b.text != []) && (b.ToolResult? ==> b.text != [])
  }

  predicate SolidBlocks(s: seq<Block>) {
    forall i | 0 <= i < |s| :: Solid(s[i])
  }

  predicate SolidOut(out: seq<Out>) {
    forall i | 0 <= i < |out| :: out[i].content != [] && SolidBlocks(out[i].content)
  }

  predicate SolidSaved(m: Message) {
    m.Assistant? && m.saved.Some? ==> SolidBlocks(m.saved.value.content)
  }

  lemma {:induction false} BlocksAreSolid(calls: seq<Call>, codec: Codec)
    ensures SolidBlocks(Uses(calls, codec)) && SolidBlocks(Told(calls, codec))
  {
    if calls != [] {
      BlocksAreSolid(calls[1..], codec);
      assert Uses(calls, codec)[1..] == Uses(calls[1..], codec);
      assert Told(calls, codec)[1..] == Told(calls[1..], codec);
    }
  }

  lemma {:induction false} WithoutThinkingIsSolid(s: seq<Block>)
    requires SolidBlocks(s)
    ensures SolidBlocks(WithoutThinking(s))
  {
    if s != [] {
      WithoutThinkingIsSolid(s[1..]);
      if !IsThinking(s[0]) {
        assert WithoutThinking(s)[1..] == WithoutThinking(s[1..]);
      }
    }
  }

  /** Another prefix, and nothing but thinking: what is sent back is empty. */
  predicate Hollow(m: Message, withTools: bool, mark: Text) {
    Literal(m, withTools) && m.saved.value.mark != mark && AllThinking(m.saved.value.content)
  }

  predicate AllThinking(s: seq<Block>) {
    forall i | 0 <= i < |s| :: IsThinking(s[i])
  }

  predicate NoneHollow(ms: seq<Message>, withTools: bool, mark: Text) {
    forall i | 0 <= i < |ms| :: !Hollow(ms[i], withTools, mark)
  }

  lemma {:induction false} NothingButThinking(s: seq<Block>)
    ensures WithoutThinking(s) == [] <==> AllThinking(s)
  {
    if s != [] {
      NothingButThinking(s[1..]);
      assert AllThinking(s) <==> IsThinking(s[0]) && AllThinking(s[1..]) by {
        if IsThinking(s[0]) && AllThinking(s[1..]) {
          forall i | 0 <= i < |s| ensures IsThinking(s[i]) {
            assert i > 0 ==> s[i] == s[1..][i - 1];
          }
        }
      }
    }
  }

  lemma {:induction false} ReplyIsSolid(m: Message, withTools: bool, mark: Text, codec: Codec)
    requires m.Assistant? && SolidSaved(m)
    ensures SolidBlocks(Reply(m, withTools, mark, codec))
    ensures Literal(m, withTools) ==> (Reply(m, withTools, mark, codec) == [] <==> Hollow(m, withTools, mark))
  {
    BlocksAreSolid(m.calls, codec);
    if m.saved.Some? {
      WithoutThinkingIsSolid(m.saved.value.content);
      NothingButThinking(m.saved.value.content);
    }
  }

  lemma {:induction false} AppendIsSolid(out: seq<Out>, o: Out)
    ensures SolidOut(out + [o]) <==> SolidOut(out) && o.content != [] && SolidBlocks(o.content)
  {
    var all := out + [o];
    if SolidOut(all) {
      forall i | 0 <= i < |out| ensures out[i].content != [] && SolidBlocks(out[i].content) {
        assert all[i] == out[i];
      }
      assert all[|out|] == o;
    }
  }

  lemma {:induction false} JoinIsSolid(s: seq<Block>, b: Block)
    requires Solid(b)
    ensures SolidBlocks(s + [b]) <==> SolidBlocks(s)
  {
    forall i | 0 <= i < |s| ensures (s + [b])[i] == s[i] {
    }
  }

  lemma {:induction false} StepIsSolid(out: seq<Out>, m: Message, withTools: bool, mark: Text, codec: Codec)
    requires SolidSaved(m)
    ensures SolidOut(Step(out, m, withTools, mark, codec)) <==> SolidOut(out) && !Hollow(m, withTools, mark)
  {
    match m
    case Assistant(_, _, _) =>
      ReplyIsSolid(m, withTools, mark, codec);
      AppendIsSolid(out, Out(FromAssistant, Reply(m, withTools, mark, codec)));
    case User(text) => AppendIsSolid(out, Out(FromUser, [TextBlock(text)]));
    case Result(id, _) =>
      AppendIsSolid(out, Out(FromUser, [ToolResult(id, Output(m))]));
      AppendIsSolid(out, Out(FromUser, [TextBlock("[resultado de tool " + id + "]\n" + Output(m))]));
      if LastIsToolResult(out) {
        var before, last := out[..|out| - 1], out[|out| - 1];
        var block := ToolResult(id, Output(m));
        JoinIsSolid(last.content, block);
        AppendIsSolid(before, last);
        assert before + [last] == out;
        AppendIsSolid(before, last.(content := last.content + [block]));
      }
  }

  lemma {:induction false} FoldIsSolid(out: seq<Out>, ms: seq<Message>, withTools: bool, mark: Text, codec: Codec)
    requires forall i | 0 <= i < |ms| :: SolidSaved(ms[i])
    ensures SolidOut(Fold(out, ms, withTools, mark, codec)) <==> SolidOut(out) && NoneHollow(ms, withTools, mark)
    decreases |ms|
  {
    if ms != [] {
      StepIsSolid(out, ms[0], withTools, mark, codec);
      FoldIsSolid(Step(out, ms[0], withTools, mark, codec), ms[1..], withTools, mark, codec);
      assert NoneHollow(ms, withTools, mark) <==> !Hollow(ms[0], withTools, mark)
                                                  && NoneHollow(ms[1..], withTools, mark) by {
        if !Hollow(ms[0], withTools, mark) && NoneHollow(ms[1..], withTools, mark) {
          forall i | 0 <= i < |ms| ensures !Hollow(ms[i], withTools, mark) {
            assert i > 0 ==> ms[i] == ms[1..][i - 1];
          }
        }
      }
    }
  }

  /**
   No message of the request is empty, and no text or result in it is, exactly when no saved reply
   holds nothing but the thinking of another prefix.
   */
  lemma {:induction false} TranslationIsSolid(ms: seq<Message>, withTools: bool, mark: Text, codec: Codec)
    requires forall i | 0 <= i < |ms| :: SolidSaved(ms[i])
    ensures SolidOut(Translated(ms, withTools, mark, codec)) <==> NoneHollow(ms, withTools, mark)
    ensures (forall i | 0 <= i < |ms| :: WellSaved(ms[i])) ==> NoneHollow(ms, withTools, mark)
  {
    var out := Fold([], ms, withTools, mark, codec);
    FoldIsSolid([], ms, withTools, mark, codec);
    OpenedIsSolid(out);
    if forall i | 0 <= i < |ms| :: WellSaved(ms[i]) {
      forall i | 0 <= i < |ms| ensures !Hollow(ms[i], withTools, mark) {
        WellSavedIsNotHollow(ms[i], withTools, mark);
      }
    }
  }

  lemma {:induction false} OpenedIsSolid(out: seq<Out>)
    ensures SolidOut(Opened(out)) <==> SolidOut(out)
  {
    if out != [] && out[0].role.FromAssistant? && SolidOut(Opened(out)) {
      forall i | 0 <= i < |out| ensures out[i].content != [] && SolidBlocks(out[i].content) {
        assert Opened(out)[i + 1] == out[i];
      }
    }
  }

  lemma {:induction false} WellSavedIsNotHollow(m: Message, withTools: bool, mark: Text)
    requires WellSaved(m)
    ensures !Hollow(m, withTools, mark)
  {
    if Hollow(m, withTools, mark) {
      ThinkingIsNoUse(m.saved.value.content);
      IdsByIndex(m.calls);
    }
  }

  lemma {:induction false} ThinkingIsNoUse(s: seq<Block>)
    requires AllThinking(s)
    ensures UseIds(s) == []
  {
    if s != [] {
      ThinkingIsNoUse(s[1..]);
    }
  }

  /** A concrete reply that is sent empty: a call, nothing saved but thinking, and another prefix. */
  lemma {:induction false} HollowReplyIsSent(codec: Codec)
    ensures var m := Assistant([], [Call("c", "t", [])], Some(Saved([Thinking("why", "s")], "a")));
            && SolidSaved(m)
            && Translated([m], true, "b", codec) == [Out(FromUser, [TextBlock(OPENING)]), Out(FromAssistant, [])]
  {
    var m := Assistant([], [Call("c", "t", [])], Some(Saved([Thinking("why", "s")], "a")));
    var content := m.saved.value.content;
    assert WithoutThinking(content) == [] by {
      assert content[1..] == [];
    }
    assert Reply(m, true, "b", codec) == [];
    assert [m][1..] == [];
    assert Fold([], [m], true, "b", codec) == [Out(FromAssistant, [])];
  }

  // ---------------------------------------------------------------------------
  // The reply, back
  // ---------------------------------------------------------------------------

  /** What of a reply can be sent back: an empty text cannot. */
  function Sanitized(b: Block): Option<Block> {
    if b.TextBlock? && b.text == [] then None else Some(b)
  }

  function SanitizedAll(s: seq<Block>): seq<Block> {
    if s == [] then [] else Cleaned(s[0]) + SanitizedAll(s[1..])
  }

  function Cleaned(b: Block): seq<Block> {
    if Sanitized(b).Some? then [Sanitized(b).value] else []
  }

  function CallsOf(s: seq<Block>, codec: Codec): seq<Call> {
    if s == [] then [] else CallIn(s[0], codec) + CallsOf(s[1..], codec)
  }

  function CallIn(b: Block, codec: Codec): seq<Call> {
    if b.ToolUse? then [Call(b.id, b.name, codec.dump(b.input))] else []
  }

  function TextsOf(s: seq<Block>): seq<Text> {
    if s == [] then [] else TextIn(s[0]) + TextsOf(s[1..])
  }

  function TextIn(b: Block): seq<Text> {
    if b.TextBlock? && b.text != [] then [b.text] else []
  }

  /** Reads one block onto what was read so far. */
  method ParseBlock(block: Block, codec: Codec, texts: seq<Text>, calls: seq<Call>, kept: seq<Block>)
    returns (texts': seq<Text>, calls': seq<Call>, kept': seq<Block>)
    ensures texts' == texts + TextIn(block) && calls' == calls + CallIn(block, codec) && kept' == kept + Cleaned(block)
  {
    texts', calls', kept' := texts, calls, kept;
    match block {
      case TextBlock(text) =>
        if text != [] {
          texts' := texts + [text];
        }
      case ToolUse(id, name, input) => calls' := calls + [Call(id, name, codec.dump(input))];
      case _ =>
    }
    var clean := Sanitized(block);
    if clean.Some? {
      kept' := kept + [clean.value];
    }
  }

  lemma {:induction false} OneTextMore(s: seq<Block>, b: Block)
    ensures TextsOf(s + [b]) == TextsOf(s) + TextIn(b)
  {
    if s == [] {
      assert [b][1..] == [] && s + [b] == [b];
    } else {
      assert (s + [b])[1..] == s[1..] + [b];
      OneTextMore(s[1..], b);
    }
  }

  lemma {:induction false} OneCallMore(s: seq<Block>, b: Block, codec: Codec)
    ensures CallsOf(s + [b], codec) == CallsOf(s, codec) + CallIn(b, codec)
  {
    if s == [] {
      assert [b][1..] == [] && s + [b] == [b];
    } else {
      assert (s + [b])[1..] == s[1..] + [b];
      OneCallMore(s[1..], b, codec);
    }
  }

  lemma {:induction false} OneBlockMore(s: seq<Block>, b: Block)
    ensures SanitizedAll(s + [b]) == SanitizedAll(s) + Cleaned(b)
  {
    if s == [] {
      assert [b][1..] == [] && s + [b] == [b];
    } else {
      assert (s + [b])[1..] == s[1..] + [b];
      OneBlockMore(s[1..], b);
    }
  }

  /** What a reading looks for. */
  datatype Reading = ForTexts | ForCalls | ForSending

  predicate Reads(r: Reading, b: Block) {
    match r
    case ForTexts => b.TextBlock? && b.text != []
    case ForCalls => b.ToolUse?
    case ForSending => !(b.TextBlock? && b.text == [])
  }

  /** `at` are the positions of the blocks that a reading looks for, in order. */
  ghost predicate Picks(s: seq<Block>, at: seq<int>, r: Reading) {
    && (forall j, k | 0 <= j < k < |at| :: at[j] < at[k])
    && (forall j | 0 <= j < |at| :: 0 <= at[j] < |s| && Reads(r, s[at[j]]))
    && (forall i | 0 <= i < |s| && Reads(r, s[i]) :: i in at)
  }

  lemma {:induction false} PicksOneMore(s: seq<Block>, at: seq<int>, r: Reading, b: Block)
    requires Picks(s, at, r)
    ensures Picks(s + [b], if Reads(r, b) then at + [|s|] else at, r)
  {
    hide Reads;
    var all, more := s + [b], if Reads(r, b) then at + [|s|] else at;
    forall j | 0 <= j < |more| ensures 0 <= more[j] < |all| && Reads(r, all[more[j]]) {
      if j < |at| {
        assert all[at[j]] == s[at[j]];
      }
    }
    forall i | 0 <= i < |all| && Reads(r, all[i]) ensures i in more {
      if i < |s| {
        assert s[i] == all[i] && i in at;
      } else {
        assert more[|at|] == i;
      }
    }
  }

  /** The texts are those of the text blocks that are not empty, in order. */
  predicate TextsAt(s: seq<Block>, at: seq<int>, texts: seq<Text>) {
    |at| == |texts|
    && forall j | 0 <= j < |at| :: 0 <= at[j] < |s| && s[at[j]].TextBlock? && s[at[j]].text == texts[j]
  }

  /** The calls are the tool uses, in order, with their input as JSON text. */
  predicate CallsAt(s: seq<Block>, at: seq<int>, calls: seq<Call>, codec: Codec) {
    |at| == |calls|
    && forall j | 0 <= j < |at| :: 0 <= at[j] < |s| && s[at[j]].ToolUse?
         && calls[j] == Call(s[at[j]].id, s[at[j]].name, codec.dump(s[at[j]].input))
  }

  /** What is kept is every block but the empty texts, in order and unchanged. */
  predicate KeptAt(s: seq<Block>, at: seq<int>, kept: seq<Block>) {
    |at| == |kept| && forall j | 0 <= j < |at| :: 0 <= at[j] < |s| && s[at[j]] == kept[j]
  }

  lemma {:induction false} TextsAtOneMore(s: seq<Block>, at: seq<int>, texts: seq<Text>, b: Block)
    requires TextsAt(s, at, texts)
    ensures TextsAt(s + [b], if Reads(ForTexts, b) then at + [|s|] else at, texts + TextIn(b))
  {
  }

  lemma {:induction false} CallsAtOneMore(s: seq<Block>, at: seq<int>, calls: seq<Call>, codec: Codec, b: Block)
    requires CallsAt(s, at, calls, codec)
    ensures CallsAt(s + [b], if Reads(ForCalls, b) then at + [|s|] else at, calls + CallIn(b, codec), codec)
  {
  }

  lemma {:induction false} KeptAtOneMore(s: seq<Block>, at: seq<int>, kept: seq<Block>, b: Block)
    requires KeptAt(s, at, kept)
    ensures KeptAt(s + [b], if Reads(ForSending, b) then at + [|s|] else at, kept + Cleaned(b))
  {
  }

  lemma {:induction false} TextsPicked(s: seq<Block>) returns (at: seq<int>)
    ensures Picks(s, at, ForTexts) && TextsAt(s, at, TextsOf(s))
    decreases |s|
  {
    at := [];
    if s != [] {
      var before, b := s[..|s| - 1], s[|s| - 1];
      at := TextsPicked(before);
      assert s == before + [b];
      hide Picks, TextsAt, TextsOf, TextIn, Reads;
      OneTextMore(before, b);
      PicksOneMore(before, at, ForTexts, b);
      TextsAtOneMore(before, at, TextsOf(before), b);
      at := if Reads(ForTexts, b) then at + [|before|] else at;
    }
  }

  lemma {:induction false} CallsPicked(s: seq<Block>, codec: Codec) returns (at: seq<int>)
    ensures Picks(s, at, ForCalls) && CallsAt(s, at, CallsOf(s, codec), codec)
    decreases |s|
  {
    at := [];
    if s != [] {
      var before, b := s[..|s| - 1], s[|s| - 1];
      at := CallsPicked(before, codec);
      assert s == before + [b];
      hide Picks, CallsAt, CallsOf, CallIn, Reads;
      OneCallMore(before, b, codec);
      PicksOneMore(before, at, ForCalls, b);
      CallsAtOneMore(before, at, CallsOf(before, codec), codec, b);
      at := if Reads(ForCalls, b) then at + [|before|] else at;
    }
  }

  lemma {:induction false} KeptPicked(s: seq<Block>) returns (at: seq<int>)
    ensures Picks(s, at, ForSending) && KeptAt(s, at, SanitizedAll(s))
    decreases |s|
  {
    at := [];
    if s != [] {
      var before, b := s[..|s| - 1], s[|s| - 1];
      at := KeptPicked(before);
      assert s == before + [b];
      hide Picks, KeptAt, SanitizedAll, Cleaned, Reads;
      OneBlockMore(before, b);
      PicksOneMore(before, at, ForSending, b);
      KeptAtOneMore(before, at, SanitizedAll(before), b);
      at := if Reads(ForSending, b) then at + [|before|] else at;
    }
  }

  /** Reads a reply: its texts, its calls, and the reply itself, to be sent back, when it calls tools. */
  method ParseContent(content: seq<Block>, mark: Text, codec: Codec)
    returns (texts: seq<Text>, calls: seq<Call>, saved: Option<Saved>)
    ensures texts == TextsOf(content) && calls == CallsOf(content, codec)
    ensures saved == if calls == [] then None else Some(Saved(SanitizedAll(content), mark))
    ensures exists at :: Picks(content, at, ForTexts) && TextsAt(content, at, texts)
    ensures exists at :: Picks(content, at, ForCalls) && CallsAt(content, at, calls, codec)
    ensures saved.Some? <==> calls != []
    ensures saved.Some? ==> saved.value.mark == mark
                            && exists at :: Picks(content, at, ForSending) && KeptAt(content, at, saved.value.content)
  {
    texts, calls := [], [];
    var kept: seq<Block> := [];
    var i := 0;
    while i < |content|
      invariant 0 <= i <= |content|
      invariant texts == TextsOf(content[..i]) && calls == CallsOf(content[..i], codec)
      invariant kept == SanitizedAll(content[..i])
    {
      OneTextMore(content[..i], content[i]);
      OneCallMore(content[..i], content[i], codec);
      OneBlockMore(content[..i], content[i]);
      assert content[..i + 1] == content[..i] + [content[i]];
      texts, calls, kept := ParseBlock(content[i], codec, texts, calls, kept);
      i := i + 1;
    }
    assert content[..i] == content;
    ghost var _ := TextsPicked(content);
    ghost var _ := CallsPicked(content, codec);
    ghost var _ := KeptPicked(content);
    saved := if calls == [] then None else Some(Saved(kept, mark));
  }

  lemma {:induction false} SanitizedIds(s: seq<Block>)
    ensures UseIds(SanitizedAll(s)) == UseIds(s)
    ensures SolidOrResults(s)
  {
    if s != [] {
      SanitizedIds(s[1..]);
      UseIdsConcat(Cleaned(s[0]), SanitizedAll(s[1..]));
      assert Cleaned(s[0]) != [] ==> Cleaned(s[0])[1..] == [];
    }
  }

  /** What was cleaned is solid; only a result, which no reply holds, could be empty. */
  predicate SolidOrResults(s: seq<Block>) {
    NoResults(s) ==> SolidBlocks(SanitizedAll(s)) && NoResults(SanitizedAll(s))
  }

  lemma {:induction false} ParsedIds(s: seq<Block>, codec: Codec)
    ensures CallIds(CallsOf(s, codec)) == UseIds(s)
  {
    if s != [] {
      ParsedIds(s[1..], codec);
      if s[0].ToolUse? {
        assert CallsOf(s, codec)[1..] == CallsOf(s[1..], codec);
      } else {
        assert CallsOf(s, codec) == CallsOf(s[1..], codec);
      }
    }
  }

  /** The message that the loop keeps of a reply. */
  function Kept(content: seq<Block>, text: Text, mark: Text, codec: Codec): Message {
    var calls := CallsOf(content, codec);
    Assistant(text, calls, if calls == [] then None else Some(Saved(SanitizedAll(content), mark)))
  }

  /**
   A reply that calls tools is sent back literally while system and tools stay; when they change, all
   but its thinking. Either way it carries the same calls, and fits the pairing.
   */
  lemma {:induction false} ReplyRoundTrip(content: seq<Block>, text: Text, mark: Text, later: Text, codec: Codec)
    requires NoResults(content) && UseIds(content) != []
    ensures var m := Kept(content, text, mark, codec);
            && WellSaved(m) && SolidSaved(m) && CallIds(m.calls) == UseIds(content)
            && Reply(m, true, mark, codec) == SanitizedAll(content)
            && (later != mark ==> Reply(m, true, later, codec) == WithoutThinking(SanitizedAll(content)))
            && UseIds(Reply(m, true, later, codec)) == UseIds(content)
  {
    ParsedIds(content, codec);
    SanitizedIds(content);
    ThinkingUsesNothing(SanitizedAll(content));
  }
}
