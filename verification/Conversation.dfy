/** Messages of a conversation with tools, and what it means that calls and results are paired. */
module Conversation {
  type Text = string

  datatype Call = Call(id: Text, tool: Text, args: Text)

  /** `row` is the history row a user message was read from, 0 if none; no step reads it. */
  datatype Message =
    | User(text: Text, row: nat)
    | Assistant(text: Text, calls: seq<Call>)
    | ToolResult(id: Text, text: Text)

  /** White space, as stripping a string understands it. */
  predicate Space(c: char) {
    var n := c as int;
    9 <= n <= 13 || 28 <= n <= 32 || n == 133 || n == 160 || n == 5760 || 8192 <= n <= 8202
    || n == 8232 || n == 8233 || n == 8239 || n == 8287 || n == 12288
  }

  predicate Blank(text: Text) {
    forall i | 0 <= i < |text| :: Space(text[i])
  }

  /** One result per call, with the same ids in the same order. */
  predicate Answers(results: seq<Message>, calls: seq<Call>) {
    |results| == |calls| && forall k | 0 <= k < |calls| :: results[k].ToolResult? && results[k].id == calls[k].id
  }

  /** Each assistant message is followed at once by exactly the results of its calls; no other result exists. */
  predicate Paired(s: seq<Message>)
    decreases |s|
  {
    if s == [] then true
    else match s[0]
      case User(_, _) => Paired(s[1..])
      case ToolResult(_, _) => false
      case Assistant(_, calls) =>
        |s| > |calls| && Answers(s[1..1 + |calls|], calls) && Paired(s[1 + |calls|..])
  }

  lemma {:induction false} PairedConcat(a: seq<Message>, b: seq<Message>)
    requires Paired(a) && Paired(b)
    ensures Paired(a + b)
    decreases |a|
  {
    if a == [] {
      assert a + b == b;
    } else {
      var n := if a[0].Assistant? then 1 + |a[0].calls| else 1;
      PairedConcat(a[n..], b);
      assert (a + b)[n..] == a[n..] + b;
      assert (a + b)[1..n] == a[1..n];
    }
  }

  lemma {:induction false} BatchIsPaired(text: Text, calls: seq<Call>, results: seq<Message>)
    requires Answers(results, calls)
    ensures Paired([Assistant(text, calls)] + results)
  {
    var s := [Assistant(text, calls)] + results;
    assert s[1..1 + |calls|] == results;
    assert s[1 + |calls|..] == [];
  }

  predicate AllUsers(s: seq<Message>) {
    forall i | 0 <= i < |s| :: s[i].User?
  }

  lemma {:induction false} UsersArePaired(s: seq<Message>)
    requires AllUsers(s)
    ensures Paired(s)
    decreases |s|
  {
    if s != [] {
      UsersArePaired(s[1..]);
    }
  }

  /** Part of the trace that the turn leaves: assistants with calls, and results. */
  predicate Own(m: Message) {
    m.ToolResult? || (m.Assistant? && m.calls != [])
  }

  function OwnOf(s: seq<Message>): seq<Message> {
    if s == [] then []
    else if Own(s[|s| - 1]) then OwnOf(s[..|s| - 1]) + [s[|s| - 1]]
    else OwnOf(s[..|s| - 1])
  }

  /** The history rows that user messages were read from, in order. */
  function RowsIn(s: seq<Message>): seq<nat> {
    if s == [] then []
    else if s[|s| - 1].User? && s[|s| - 1].row > 0 then RowsIn(s[..|s| - 1]) + [s[|s| - 1].row]
    else RowsIn(s[..|s| - 1])
  }

  lemma {:induction false} OwnOfConcat(a: seq<Message>, b: seq<Message>)
    ensures OwnOf(a + b) == OwnOf(a) + OwnOf(b)
    decreases |b|
  {
    if b == [] {
      assert a + b == a;
    } else {
      assert (a + b)[..|a + b| - 1] == a + b[..|b| - 1];
      OwnOfConcat(a, b[..|b| - 1]);
    }
  }

  lemma {:induction false} RowsInConcat(a: seq<Message>, b: seq<Message>)
    ensures RowsIn(a + b) == RowsIn(a) + RowsIn(b)
    decreases |b|
  {
    if b == [] {
      assert a + b == a;
    } else {
      assert (a + b)[..|a + b| - 1] == a + b[..|b| - 1];
      RowsInConcat(a, b[..|b| - 1]);
    }
  }

  lemma {:induction false} UsersOwnNothing(s: seq<Message>)
    requires AllUsers(s)
    ensures OwnOf(s) == []
    decreases |s|
  {
    if s != [] {
      UsersOwnNothing(s[..|s| - 1]);
    }
  }
}
