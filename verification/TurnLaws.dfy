/** What the log of a turn means, and the routing that starts a turn or feeds the running one. */
module TurnLaws {
  import opened Wrappers
  import opened Conversation
  import opened InboundTurns
  import opened TurnLog
  import opened ToolLoop

  /** A paired conversation: after an assistant with n calls come exactly its n results, in order. */
  lemma {:induction false} PairedMeans(s: seq<Message>, i: nat)
    requires Paired(s) && i < |s| && s[i].Assistant?
    ensures i + |s[i].calls| < |s|
    ensures Answers(s[i + 1..i + 1 + |s[i].calls|], s[i].calls)
    ensures i + 1 + |s[i].calls| < |s| ==> !s[i + 1 + |s[i].calls|].ToolResult?
    decreases |s|
  {
    var n := if s[0].Assistant? then 1 + |s[0].calls| else 1;
    assert forall k | 1 <= k < n :: s[k] == s[1..n][k - 1] && s[k].ToolResult?;
    if i == 0 {
      if n < |s| {
        assert s[n..][0] == s[n];
      }
    } else {
      PairedMeans(s[n..], i - n);
      assert s[n..][i - n] == s[i];
      var k := |s[i].calls|;
      var results := s[n..][i - n + 1..i - n + 1 + k];
      assert |results| == k && forall j | 0 <= j < k :: results[j] == s[i + 1..i + 1 + k][j];
      assert results == s[i + 1..i + 1 + k];
      if i + 1 + k < |s| {
        assert s[n..][i - n + 1 + k] == s[i + 1 + k];
      }
    }
  }

  /** In every call, the user rows that entered are in id order, each once, and none before them was skipped. */
  lemma {:induction false} RowsEnterOnce(e: Event, first: seq<Message>, trace0: seq<Message>, rows: seq<Row>,
                                         scope: Scope, start: nat)
    requires e.Asked? && Sent(e, first, trace0, Ids(rows, scope, start))
    ensures var entered := RowsIn(e.messages[|first|..]);
            && Increasing(entered)
            && (forall n | n in entered :: IsNews(rows, scope, start, |rows|, n))
            && (forall n: nat, m | m in entered && n < m && IsNews(rows, scope, start, |rows|, n) :: n in entered)
  {
    var all := IdsTo(rows, scope, start, |rows|);
    var entered := RowsIn(e.messages[|first|..]);
    IdsAreExact(rows, scope, start, |rows|);
    assert entered == all[..|entered|];
    assert forall i | 0 <= i < |entered| :: entered[i] == all[i] && all[i] in all;
    assert Increasing(all);
    forall n: nat, m | m in entered && n < m && IsNews(rows, scope, start, |rows|, n)
      ensures n in entered
    {
      var j :| 0 <= j < |entered| && entered[j] == m;
      assert n in all;
      var i :| 0 <= i < |all| && all[i] == n;
      IncreasingReflects(all, i, j);
    }
  }

  lemma {:induction false} IncreasingReflects(ids: seq<nat>, i: nat, j: nat)
    requires Increasing(ids) && i < |ids| && j < |ids| && ids[i] < ids[j]
    ensures i < j
  {
  }

  /** A tool whose failures reached the limit is never tried again in the turn. */
  lemma {:induction false} TrippedStaysOut(r: Rules, log: seq<Event>, tool: Text, i: nat, j: nat)
    requires Lawful(r, log) && i <= j <= |log| && Streak(log[..i], tool) >= r.limit
    ensures Streak(log[..j], tool) >= r.limit
    ensures j < |log| && Tries(log[j]) ==> log[j].call.tool != tool
    decreases j - i
  {
    if i < j {
      TrippedStaysOut(r, log, tool, i, j - 1);
      assert log[..j][..j - 1] == log[..j - 1];
    }
    if j < |log| && Tries(log[j]) {
      assert StepAt(r, log, j);
    }
  }

  /** What ends a turn: a stop stays seen, and nothing follows the closing call. */
  lemma {:induction false} MarksStay(log: seq<Event>, i: nat, j: nat)
    requires i <= j <= |log|
    ensures Stopped(log[..i]) ==> Stopped(log[..j])
    ensures Ended(log[..i]) ==> Ended(log[..j])
    decreases j - i
  {
    if i < j {
      MarksStay(log, i, j - 1);
      assert log[..j][..j - 1] == log[..j - 1];
    }
  }

  lemma {:induction false} NotEndedBefore(r: Rules, log: seq<Event>, i: nat)
    requires Lawful(r, log) && i < |log|
    ensures !Ended(log[..i])
  {
    assert StepAt(r, log, i);
  }

  lemma {:induction false} StepKept(r: Rules, log: seq<Event>, i: nat)
    requires Lawful(r, log) && i < |log|
    ensures Step(r, log[..i], log[i])
  {
    assert StepAt(r, log, i);
  }

  lemma {:induction false} StopIsSeen(log: seq<Event>, i: nat, j: nat)
    requires i < j <= |log| && log[i] == Looked(true)
    ensures Stopped(log[..j])
  {
    assert log[..i + 1][..i] == log[..i];
    MarksStay(log, i + 1, j);
  }

  lemma {:induction false} ClosingEnds(log: seq<Event>, i: nat, j: nat)
    requires i < j <= |log| && log[i].Asked? && log[i].closing
    ensures Ended(log[..j])
  {
    assert log[..i + 1][..i] == log[..i];
    MarksStay(log, i + 1, j);
  }

  /** After a stop was seen there is no run, no refusal and no call of the model with tools. */
  lemma {:induction false} NothingAfterStop(r: Rules, log: seq<Event>, i: nat, j: nat)
    requires Lawful(r, log) && i < j < |log| && log[i] == Looked(true)
    ensures log[j].Cut? || (log[j].Asked? && log[j].closing && log[j].tools == [] && j == |log| - 1)
  {
    StopIsSeen(log, i, j);
    StepKept(r, log, j);
    hide Lawful, Story, Awaiting, Streak;
    if log[j].Asked? && j + 1 < |log| {
      ClosingEnds(log, j, j + 1);
      NotEndedBefore(r, log, j + 1);
    }
  }

  /** A tool runs only right after a look that saw no stop, and a locked one only for the operator. */
  lemma {:induction false} RunsAreAllowed(r: Rules, log: seq<Event>, i: nat)
    requires Lawful(r, log) && i < |log| && log[i].Ran?
    ensures r.locked(log[i].call.tool, log[i].call.args) ==> r.operator
    ensures r.stoppable ==> i > 0 && log[i - 1] == Looked(false)
    ensures forall j | 0 <= j < i :: log[j] != Looked(true)
  {
    StepKept(r, log, i);
    hide Lawful, Story, Awaiting, Streak;
    forall j | 0 <= j < i ensures log[j] != Looked(true) {
      if log[j] == Looked(true) {
        StopIsSeen(log, j, i);
      }
    }
  }

  /** Where a message comes from: a user, a reply of the model, or the one event that answered a call. */
  predicate Source(e: Event, m: Message) {
    || (e.Heard? && m in e.users)
    || (e.Asked? && !e.closing && e.reply.Some? && m == Assistant(e.reply.value.text, e.reply.value.calls))
    || (Answering(e) && m == ResultOf(e))
  }

  lemma {:induction false} StoryMeans(log: seq<Event>, m: Message)
    requires m in Story(log) && forall i | 0 <= i < |log| :: !(log[i].Asked? && log[i].closing)
    ensures exists i :: 0 <= i < |log| && Source(log[i], m)
    decreases |log|
  {
    var before, e := log[..|log| - 1], log[|log| - 1];
    if m in Story(before) {
      StoryMeans(before, m);
      var i :| 0 <= i < |before| && Source(before[i], m);
      assert log[i] == before[i];
    } else if m in Draft(before) {
      assert Source(log[|log| - 2], m);
    } else {
      assert m in Adds(before, e) && Source(log[|log| - 1], m);
    }
  }

  /** Past the first messages, the model is sent only what users, the model and its own tool calls said. */
  lemma {:induction false} SentIsSaid(r: Rules, log: seq<Event>, i: nat, m: Message)
    requires Lawful(r, log) && i < |log| && log[i].Asked? && !log[i].closing
    requires r.first <= log[i].messages && m in log[i].messages[|r.first|..]
    ensures exists j :: 0 <= j < i && Source(log[j], m)
  {
    StepKept(r, log, i);
    assert log[i].messages[|r.first|..] == Story(log[..i]);
    hide Step, Awaiting, Streak, Story;
    NotEndedBefore(r, log, i);
    forall j | 0 <= j < i ensures !(log[j].Asked? && log[j].closing) {
      if log[j].Asked? && log[j].closing {
        ClosingEnds(log, j, i);
      }
    }
    StoryMeans(log[..i], m);
    var j :| 0 <= j < i && Source(log[..i][j], m);
    assert log[j] == log[..i][j];
  }

  lemma {:induction false} AskSendsStory(r: Rules, log: seq<Event>, i: nat)
    requires Lawful(r, log) && i < |log| && log[i].Asked?
    ensures log[i].messages == Sendable(r, log[..i])
  {
    assert StepAt(r, log, i);
  }

  lemma {:induction false} AnswerIsTold(log: seq<Event>, i: nat, j: nat)
    requires i < j <= |log| && Answering(log[i])
    ensures ResultOf(log[i]) in Story(log[..j])
    decreases j - i
  {
    hide Story, ResultOf, Awaiting, Stopped, Ended, Words;
    OneEventMore(log[..j - 1], log[j - 1]);
    assert log[..j] == log[..j - 1] + [log[j - 1]];
    if i + 1 < j {
      AnswerIsTold(log, i, j - 1);
    }
  }

  /** What was said stays said: the result of a call is sent from then on. */
  lemma {:induction false} SaidIsSent(r: Rules, log: seq<Event>, i: nat, j: nat)
    requires Lawful(r, log) && i < j < |log| && Answering(log[i]) && log[j].Asked?
    ensures ResultOf(log[i]) in log[j].messages
  {
    hide ResultOf, Story;
    AskSendsStory(r, log, j);
    AnswerIsTold(log, i, j);
  }

  /** With no page-in and no re-routing the model is told of the first schemas, or of none beyond them. */
  lemma {:induction false} SandboxIsKept(offered: seq<Text>, schemas: seq<Text>, visible: set<Text>, log: seq<Event>)
    requires ShownAs(offered, schemas, visible, {}, {}) && Told(log, schemas)
    ensures schemas == offered
    ensures forall i | 0 <= i < |log| && log[i].Asked? :: log[i].tools <= offered
  {
    assert |schemas| <= |offered| || Joined(schemas, |offered|, {}, {});
    forall i | 0 <= i < |log| && log[i].Asked? ensures log[i].tools <= offered {
      assert Tells(log[i], schemas);
    }
  }

  // ---------------------------------------------------------------------------
  // Routing
  // ---------------------------------------------------------------------------

  /** What an inbound message came to: a turn of its own, or a row for the turn under way. */
  datatype Routed = Executed(outcome: Outcome) | Persisted

  /**
   Routes an inbound message. A busy scope only persists it; a free one is busy for exactly the turn.
   A turn that replied had seen every user message up to its final checkpoint, `seen`.
   */
  method Dispatch(world: World, scope: Scope, message: Text, previous: seq<Message>, max: nat, threshold: int,
                  operator: bool, locked: (Text, Text) -> bool, catalogue: set<Text>, rerouting: bool, budget: int,
                  offered: seq<Text>)
    returns (routed: Routed, turn: Turn?, ghost seen: nat)
    requires world.registry.Valid()
    modifies world, world.registry
    ensures world.registry.Valid()
    ensures routed.Persisted? <==> scope in old(world.registry.busy)
    ensures routed.Persisted? ==>
              world.rows == old(world.rows) + [Row(scope, true, message)]
                  && world.registry.busy == old(world.registry.busy)
    ensures routed.Executed? ==> scope !in world.registry.busy && scope !in world.registry.cancel
    ensures routed.Executed? ==>
              && turn != null && seen <= |world.rows|
              && Lawful(Rules(previous + [User(message, 0)], offered, catalogue, true, true, operator, locked, max,
                              Limit(threshold)), turn.log)
              && turn.first == previous + [User(message, 0)]
              && turn.start == |old(world.rows)| + 1
              && Genuine(turn.log, world.rows, scope) && Concludes(turn.log, routed.outcome)
              && Asks(turn.log) <= (1 + MAX_RESETS) * max + 1
              && (routed.outcome.Halted? <==> Stopped(turn.log))
              && (routed.outcome.Exhausted? ==> Since(turn.log) == max)
              && (routed.outcome.Replied? ==>
                    && turn.log != [] && turn.log[|turn.log| - 1].Asked?
                        && turn.first <= turn.log[|turn.log| - 1].messages
                    && RowsIn(turn.log[|turn.log| - 1].messages[|turn.first|..]) == IdsTo(world.rows, scope,
                        turn.start, seen))
  {
    hide Lawful, AllSent, Refines, Genuine, Step, Story, Awaiting, Asks, Since, Stopped, Ended, Concludes;
    hide IdsTo, RowsIn, ShownAs, Told, Paged;
    var free := world.registry.TryMarkBusy(scope);
    if !free {
      world.rows := world.rows + [Row(scope, true, message)];
      return Persisted, null, 0;
    }
    world.rows := world.rows + [Row(scope, true, message)];
    var recorder := new Recorder([]);
    turn := new Turn(world, recorder, scope, true, true, operator, locked, max, threshold, catalogue, rerouting, budget,
                     previous + [User(message, 0)], offered, |world.rows|);
    var outcome := turn.Run();
    seen := |world.rows|;
    ghost var rows := world.rows;
    world.Interleave(scope);
    IdsStay(rows, world.rows, scope, turn.start, seen);
    LaterGenuine(turn.log, rows, world.rows, scope);
    world.registry.MarkIdle(scope);
    return Executed(outcome), turn, seen;
  }
}
