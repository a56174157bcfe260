/**
 The loop between the model and its tools. Everything it meets is adversarial: what the model says,
 how tools end, messages that arrive meanwhile, a kill-switch at any await.
 */
module ToolLoop {
  import opened Wrappers
  import opened Conversation
  import opened InboundTurns
  import opened TurnLog

  /** Where a turn leaves its trace: the list the caller owns, and what was handed over for persistence. */
  class Recorder {
    var trace: seq<Message>
    var handed: seq<Message>

    constructor (trace: seq<Message>)
      ensures this.trace == trace && handed == []
    {
      this.trace, handed := trace, [];
    }
  }

  class Turn {
    const world: World
    const recorder: Recorder
    const scope: Scope
    const inflight: bool      // history store and scope given
    const stoppable: bool     // scope registry given
    const operator: bool
    const locked: (Text, Text) -> bool
    const max: nat
    const threshold: int
    const catalogue: set<Text>  // tools that can be paged in
    const rerouting: bool
    const budget: int         // schemas that re-routing may add
    const first: seq<Message>
    const offered: seq<Text>  // schemas visible at the start
    const start: nat          // cursor at the start
    ghost const trace0: seq<Message>
    ghost const handed0: seq<Message>

    var working: seq<Message>
    ghost var tail: seq<Message>  // of working, past the first messages
    var cursor: nat
    var iteration: nat
    var resets: nat
    var counts: map<Text, nat>
    var tripped: set<Text>
    var schemas: seq<Text>
    var visible: set<Text>
    var extra: nat
    ghost var rerouted: set<Text>
    var cancelled: bool
    var lastText: Text
    var log: seq<Event>

    constructor (world: World, recorder: Recorder, scope: Scope, inflight: bool, stoppable: bool, operator: bool,
                 locked: (Text, Text) -> bool, max: nat, threshold: int, catalogue: set<Text>, rerouting: bool,
                 budget: int, first: seq<Message>, offered: seq<Text>, cursor: nat)
      requires world.registry.Valid() && cursor <= |world.rows|
      ensures this.world == world && this.recorder == recorder && this.scope == scope
      ensures Terms() == Rules(first, offered, catalogue, inflight, stoppable, operator, locked, max, Limit(threshold))
      ensures this.rerouting == rerouting && this.budget == budget && start == cursor
      ensures trace0 == recorder.trace && handed0 == recorder.handed
      ensures Talks() && Logs() && Shown() && Whole() && Tale() && log == [] && iteration == 0 && resets == 0
    {
      this.world, this.recorder, this.scope, this.inflight := world, recorder, scope, inflight;
      this.stoppable, this.operator, this.locked, this.max := stoppable, operator, locked, max;
      this.threshold, this.catalogue, this.rerouting, this.budget := threshold, catalogue, rerouting, budget;
      this.first, this.offered, start, this.cursor := first, offered, cursor, cursor;
      trace0, handed0, tail := recorder.trace, recorder.handed, [];
      working, iteration, resets := first, 0, 0;
      counts, tripped, schemas, visible, extra := map[], {}, offered, set t | t in offered, 0;
      rerouted := {};
      cancelled, lastText, log := false, [], [];
    }

    /** What the turn was given. */
    ghost function Terms(): Rules {
      Rules(first, offered, catalogue, inflight, stoppable, operator, locked, max, Limit(threshold))
    }

    /** The schemas shown, and every tool of the catalogue that was tried is among them. */
    ghost predicate Shown()
      reads `schemas, `visible, `extra, `rerouted, `log
    {
      && ShownAs(offered, schemas, visible, catalogue, rerouted)
      && Told(log, schemas) && Paged(log, catalogue, visible)
      && |rerouted| == extra && (extra > 0 ==> rerouting && extra <= budget)
    }

    /** The conversation, the trace and the rows that entered. */
    ghost predicate Talks()
      reads `working, `tail, `cursor, world, recorder
    {
      && working == first + tail
      && Flows(RowsIn(tail), inflight, world.rows, scope, start, cursor)
      && recorder.trace == trace0 + OwnOf(tail)
      && recorder.handed == handed0 + OwnOf(tail)
    }

    /** What the turn did so far. */
    ghost predicate Logs()
      reads `log, `counts, `tripped, `cancelled, `lastText, world
    {
      && AllSent(log, first, trace0, Arrived(inflight, world.rows, scope, start))
      && Refines(log, counts, tripped, Limit(threshold))
      && Genuine(log, world.rows, scope)
      && Lawful(Terms(), log)
      && cancelled == Stopped(log) && lastText == Words(log)
    }

    /** The conversation is the one that the log tells. */
    ghost predicate Tale()
      reads `tail, `log
    {
      tail == Story(log)
    }

    ghost predicate Whole()
      reads `working, `tail
    {
      Paired(first) ==> Paired(working)
    }

    /** All of it. */
    ghost predicate Safe()
      reads `working, `tail, `cursor, `log, `counts, `tripped, `cancelled, `lastText, `schemas, `visible, `extra,
          `rerouted
      reads world, world.registry, recorder
    {
      world.registry.Valid() && Talks() && Logs() && Shown() && Whole()
    }

    /** One more event that keeps the rules keeps the history of the turn. */
    lemma Keeps(e: Event)
      requires Logs() && Shown() && Step(Terms(), log, e)
      requires Sent(e, first, trace0, Arrived(inflight, world.rows, scope, start))
      requires HeardTrue(e, world.rows, scope) && Tells(e, schemas)
      requires Tries(e) && e.call.tool in catalogue ==> e.call.tool in visible
      ensures AllSent(log + [e], first, trace0, Arrived(inflight, world.rows, scope, start))
      ensures Genuine(log + [e], world.rows, scope) && Lawful(Terms(), log + [e])
      ensures Told(log + [e], schemas) && Paged(log + [e], catalogue, visible)
    {
      hide Step, Sent, HeardTrue, Tells;
      AllSentGrows(log, e, first, trace0, Arrived(inflight, world.rows, scope, start));
      GenuineGrows(log, e, world.rows, scope);
      LawfulGrows(Terms(), log, e);
      ToldGrows(log, e, schemas);
      PagedGrows(log, e, catalogue, visible);
    }

    // -------------------------------------------------------------------------
    // Awaits
    // -------------------------------------------------------------------------

    /** Other coroutines run. */
    method Await()
      requires world.registry.Valid() && Talks() && Logs()
      modifies world, world.registry
      ensures world.registry.Valid() && Talks() && Logs() && old(world.rows) <= world.rows
    {
      ghost var rows := world.rows;
      world.Interleave(scope);
      LaterFlows(RowsIn(tail), inflight, rows, world.rows, scope, start, cursor);
      LaterSent(log, first, trace0, Arrived(inflight, rows, scope, start), Arrived(inflight, world.rows, scope, start));
      LaterGenuine(log, rows, world.rows, scope);
    }

    /** Is a stop pending for the scope? */
    method CheckStop() returns (stop: bool)
      requires world.registry.Valid() && Talks() && Logs() && Shown() && !cancelled && !Ended(log)
      modifies `log, `cancelled, world, world.registry
      ensures world.registry.Valid() && Talks() && Logs() && Shown() && !Ended(log) && cancelled == stop
      ensures stop == (stoppable && scope in world.registry.cancel)
      ensures log == old(log) + if stoppable then [Looked(stop)] else []
      ensures Story(log) == old(Story(log)) && Awaiting(log) == old(Awaiting(log)) && Pace(log) == old(Pace(log))
      ensures !stop ==> JustLooked(Terms(), log)
    {
      if !stoppable {
        return false;
      }
      Await();
      stop := scope in world.registry.cancel;
      NoteLook(stop);
    }

    method NoteLook(stop: bool)
      requires Talks() && Logs() && Shown() && !cancelled && !Ended(log) && stoppable
      modifies `log, `cancelled
      ensures Talks() && Logs() && Shown() && !Ended(log) && cancelled == stop && log == old(log) + [Looked(stop)]
      ensures Story(log) == old(Story(log)) && Awaiting(log) == old(Awaiting(log)) && Pace(log) == old(Pace(log))
    {
      hide AllSent, Refines, Genuine, Lawful, Story, Awaiting, Streak, Asks, Since, Resets, Words, Stopped, Ended;
      hide OwnOf, RowsIn, Flows, ShownAs, Told, Paged;
      var e := Looked(stop);
      Keeps(e);
      OneEventMore(log, e);
      PaceOfOneMore(log, e);
      QuietEvent(log, e, counts, tripped, Limit(threshold));
      log := log + [e];
      cancelled := stop;
    }

    /**
     New user rows of the scope join the conversation and the cursor passes them. A reply that stops
     being final is kept before them as context, and nowhere else.
     */
    method Drain(draft: Text) returns (drained: seq<Message>)
      requires Safe() && Tale() && !cancelled && !Ended(log) && Awaiting(log) == []
      requires Draft(log) == if Blank(draft) then [] else [Assistant(draft, [])]
      modifies `cursor, `working, `tail, `log, world, world.registry
      ensures Safe() && Tale() && !Ended(log) && Awaiting(log) == [] && AllUsers(drained)
      ensures drained == [] ==> working == old(working) && log == old(log)
      ensures drained == [] ==> RowsIn(tail) == Arrived(inflight, world.rows, scope, start)
      ensures drained != [] ==> log == old(log) + [Heard(drained)]
    {
      hide AllSent, Refines, Genuine, Lawful, Step, Story, Awaiting, Streak, Asks, Since, Resets, Words, Stopped, Ended;
      hide OwnOf, ShownAs, Told, Paged;
      if !inflight {
        return [];
      }
      Await();
      drained := NewsTo(world.rows, scope, cursor, |world.rows|);
      DrainFlows(RowsIn(tail), world.rows, scope, start, cursor);
      if drained == [] {
        FlowsArrived(RowsIn(tail), inflight, world.rows, scope, start, cursor);
        return;
      }
      DraftJoins(working, draft, drained);
      NewsCame(world.rows, scope, cursor, |world.rows|);
      Extend((if Blank(draft) then [] else [Assistant(draft, [])]) + drained,
             AdvancedTo(world.rows, scope, cursor, |world.rows|));
      NoteHeard(drained);
    }

    method Extend(more: seq<Message>, next: nat)
      requires Talks() && Whole() && OwnOf(more) == [] && (Paired(working) ==> Paired(working + more))
      requires Flows(RowsIn(tail) + RowsIn(more), inflight, world.rows, scope, start, next)
      modifies `cursor, `working, `tail
      ensures Talks() && Whole() && tail == old(tail) + more
    {
      MoreJoins(first, tail, more);
      working, tail, cursor := working + more, tail + more, next;
    }

    method NoteHeard(users: seq<Message>)
      requires Logs() && Shown() && !cancelled && !Ended(log) && inflight && Awaiting(log) == []
      requires users != [] && AllUsers(users) && AllCame(users, world.rows, scope)
      modifies `log
      ensures Logs() && Shown() && !Ended(log) && Awaiting(log) == [] && log == old(log) + [Heard(users)]
      ensures Story(log) == old(Story(log)) + (old(Draft(log)) + users)
    {
      var e := Heard(users);
      Keeps(e);
      OneEventMore(log, e);
      QuietEvent(log, e, counts, tripped, Limit(threshold));
      log := log + [e];
    }

    /** A message of the turn itself: conversation, trace and persistence at once. */
    method Say(m: Message)
      requires Talks() && Own(m)
      modifies `working, `tail, recorder
      ensures Talks() && working == old(working) + [m] && tail == old(tail) + [m]
    {
      SaidJoins([], first, tail, m);
      SaidJoins(trace0, first, tail, m);
      SaidJoins(handed0, first, tail, m);
      working, tail := working + [m], tail + [m];
      recorder.trace := recorder.trace + [m];
      recorder.handed := recorder.handed + [m];
    }

    /** What re-routing finds for the drained text joins the visible set, within the budget of the turn. */
    method Reroute(drained: seq<Message>) returns (found: Option<seq<Text>>)
      requires Safe() && AllUsers(drained)
      modifies `schemas, `visible, `extra, `rerouted, world, world.registry
      ensures Safe()
      ensures found.Some? <==> rerouting && old(extra) < budget
                               && exists i :: 0 <= i < |drained| && !Blank(drained[i].text)
      ensures found.None? ==> schemas == old(schemas)
      ensures found.Some? ==> Admitted(found.value, old(visible))
    {
      if !rerouting || budget - extra <= 0 || forall i | 0 <= i < |drained| :: Blank(drained[i].text) {
        return None;
      }
      Await();
      var candidates: seq<Text> := *;
      Admit(candidates);
      return Some(candidates);
    }

    /** Every candidate is visible or the budget is spent, and nothing else was added. */
    ghost predicate Admitted(candidates: seq<Text>, before: set<Text>)
      reads `visible, `extra
    {
      && (forall name | name in candidates && name != [] :: name in visible || extra >= budget)
      && before <= visible && (forall name | name in visible :: name in before || name in candidates)
    }

    method Admit(candidates: seq<Text>)
      requires Shown() && rerouting
      modifies `schemas, `visible, `extra, `rerouted
      ensures Shown() && Admitted(candidates, old(visible))
    {
      var i := 0;
      while i < |candidates| && extra < budget
        invariant 0 <= i <= |candidates| && Shown()
        invariant forall k | 0 <= k < i && candidates[k] != [] :: candidates[k] in visible
        invariant old(visible) <= visible && forall name | name in visible :: name in old(visible) || name in candidates
      {
        var name := candidates[i];
        if name != [] && name !in visible {
          ShowMore(offered, schemas, visible, catalogue, rerouted, name, rerouted + {name});
          ToldStays(log, schemas, [name]);
          PagedStays(log, catalogue, visible, name);
          schemas, visible := schemas + [name], visible + {name};
          rerouted, extra := rerouted + {name}, extra + 1;
        }
        i := i + 1;
      }
    }

    /** Counts a drain: it gives the loop a full run again, but only so many times. */
    method Account() returns (reset: bool)
      modifies `iteration, `resets
      ensures reset == (old(resets) < MAX_RESETS)
      ensures reset ==> iteration == 0 && resets == old(resets) + 1
      ensures !reset ==> iteration == old(iteration) && resets == old(resets)
    {
      if resets < MAX_RESETS {
        iteration, resets := 0, resets + 1;
        return true;
      }
      return false;
    }

    /** One call of the model with the schemas shown; None when it raises. Its words are kept. */
    method Ask() returns (reply: Option<Reply>)
      requires Safe() && Tale() && !cancelled && !Ended(log) && Awaiting(log) == []
      requires JustLooked(Terms(), log) && Since(log) < max
      modifies `log, `lastText, world, world.registry
      ensures Safe() && !cancelled && !Ended(log)
      ensures log == old(log) + [Asked(working, schemas, recorder.trace, reply, false)]
      ensures Story(log) == tail + Spoken(reply)
      ensures Awaiting(log) == if reply.Some? then reply.value.calls else []
      ensures Asks(log) == old(Asks(log)) + 1 && Since(log) == old(Since(log)) + 1 && Resets(log) == old(Resets(log))
    {
      hide AllSent, Refines, Genuine, Lawful, Story, Awaiting, Streak, Asks, Since, Resets, Words, Stopped, Ended;
      hide OwnOf, RowsIn, Flows, ShownAs, Told, Paged;
      Await();
      reply := *;
      ShownEquips(log, offered, schemas, visible, catalogue, rerouted, Terms());
      NoteCall(Asked(working, schemas, recorder.trace, reply, false));
      if reply.Some? {
        lastText := reply.value.text;
      }
    }

    method NoteCall(e: Event)
      requires Talks() && Logs() && Whole() && Shown() && Step(Terms(), log, e)
      requires e.Asked? && e.messages == working && e.traced == recorder.trace && e.tools <= schemas
      modifies `log
      ensures log == old(log) + [e] && Shown() && Talks() && Whole()
      ensures AllSent(log, first, trace0, Arrived(inflight, world.rows, scope, start))
      ensures Refines(log, counts, tripped, Limit(threshold))
      ensures Genuine(log, world.rows, scope) && Lawful(Terms(), log)
      ensures cancelled == Stopped(log) && (Ended(log) <==> old(Ended(log)) || e.closing)
      ensures Words(log) == if !e.closing && e.reply.Some? then e.reply.value.text else lastText
      ensures Story(log) == old(Story(log)) + if e.closing then [] else Spoken(e.reply)
      ensures Awaiting(log) == if !e.closing && e.reply.Some? then e.reply.value.calls else []
      ensures Asks(log) == old(Asks(log)) + 1 && Resets(log) == old(Resets(log))
      ensures Since(log) == old(Since(log)) + if e.closing then 0 else 1
    {
      hide AllSent, Refines, Genuine, Lawful, Step, Story, Awaiting, Streak, Asks, Since, Resets, Words, Stopped, Ended;
      hide OwnOf, RowsIn, Flows, ShownAs, Told, Paged;
      assert working[|first|..] == tail;
      FlowsArrived(RowsIn(tail), inflight, world.rows, scope, start, cursor);
      Keeps(e);
      OneEventMore(log, e);
      PaceOfOneMore(log, e);
      QuietEvent(log, e, counts, tripped, Limit(threshold));
      log := log + [e];
    }

    // -------------------------------------------------------------------------
    // A batch of tool calls
    // -------------------------------------------------------------------------

    /** The breaker: a success clears the count, a failure not worth a retry may trip the tool. */
    method Score(e: Event)
      requires Tries(e)
      modifies `counts, `tripped
      ensures counts == NewCounts(old(counts), e) && tripped == NewTripped(old(counts), old(tripped), e, threshold)
    {
      var tool := e.call.tool;
      if e.Ran? && e.verdict.Success? {
        counts := counts[tool := 0];
      } else if e.Refused? || e.verdict.Fatal? {
        counts := counts[tool := (if tool in counts then counts[tool] else 0) + 1];
        if counts[tool] >= threshold {
          tripped := tripped + {tool};
        }
      }
    }

    /** A try is noted and counted. */
    method Count(e: Event)
      requires Talks() && Logs() && Shown() && Step(Terms(), log, e)
      requires Tries(e) && e.call.tool !in tripped && (e.call.tool in catalogue ==> e.call.tool in visible)
      modifies `log, `counts, `tripped
      ensures Talks() && Logs() && Shown() && Answered(old(log), e)
    {
      hide AllSent, Refines, Genuine, Lawful, Step, Story, Awaiting, Streak, Asks, Since, Resets, Words, Stopped, Ended;
      hide OwnOf, RowsIn, Flows, ShownAs, Told, Paged;
      Keeps(e);
      OneEventMore(log, e);
      TriedEvent(log, e, counts, tripped, threshold);
      log := log + [e];
      Score(e);
    }

    /** A call that no tool ran for. */
    method NoteAnswer(e: Event)
      requires Talks() && Logs() && Shown() && Step(Terms(), log, e) && (e.Open? || e.Cut?)
      modifies `log
      ensures Talks() && Logs() && Shown() && Answered(old(log), e)
    {
      Keeps(e);
      OneEventMore(log, e);
      QuietEvent(log, e, counts, tripped, Limit(threshold));
      log := log + [e];
    }

    /** The log grew by what answers a call. */
    ghost predicate Answered(before: seq<Event>, e: Event)
      reads `log
    {
      log == before + [e]
    }

    /** A tool that exists but is not visible is paged in for the next calls. */
    method PageIn(tool: Text)
      requires Shown()
      modifies `schemas, `visible
      ensures Shown() && visible == old(visible) + if tool in catalogue then {tool} else {}
    {
      if tool !in visible && tool in catalogue {
        ShowMore(offered, schemas, visible, catalogue, rerouted, tool, rerouted);
        ToldStays(log, schemas, [tool]);
        PagedStays(log, catalogue, visible, tool);
        schemas, visible := schemas + [tool], visible + {tool};
      }
    }

    /** Runs one tool, or refuses it: privileged tools run only in a turn of the operator. */
    method Try(call: Call) returns (output: Text, ghost e: Event)
      requires world.registry.Valid() && Talks() && Logs() && Shown() && !cancelled && !Ended(log)
      requires call.tool !in tripped && Next(log, call) && JustLooked(Terms(), log)
      modifies `log, `counts, `tripped, `schemas, `visible, world, world.registry
      ensures world.registry.Valid() && Talks() && Logs() && Shown()
      ensures Answered(old(log), e) && Tries(e) && e.call == call && ResultOf(e) == ToolResult(call.id, output)
    {
      hide AllSent, Genuine, Lawful, Story, Awaiting, Streak, Asks, Since, Resets, Words, Stopped, Ended;
      hide OwnOf, RowsIn, Flows, ShownAs, Told, Paged;
      PageIn(call.tool);
      assert Streak(log, call.tool) < Limit(threshold);
      if !operator && locked(call.tool, call.args) {
        output := PRIVILEGE;
        e := Refused(call);
        Count(Refused(call));
      } else {
        Await();
        output := *;
        var verdict: Verdict := *;
        e := Ran(call, verdict, output);
        Count(Ran(call, verdict, output));
      }
    }

    /** What one call of a batch gets: the cut of a stop, an open circuit, a refusal, or its own output. */
    method Obtain(call: Call) returns (output: Text, ghost e: Event)
      requires world.registry.Valid() && Talks() && Logs() && Shown() && !Ended(log) && Next(log, call)
      modifies `log, `counts, `tripped, `schemas, `visible, `cancelled, world, world.registry
      ensures world.registry.Valid() && Talks() && Logs() && Shown() && !Ended(log)
      ensures Answering(e) && e.call == call && ResultOf(e) == ToolResult(call.id, output)
      ensures log != [] && log[|log| - 1] == e && Rested(log) && (old(cancelled) ==> e.Cut? && cancelled)
      ensures Story(log) == old(Story(log)) + [ToolResult(call.id, output)]
      ensures Awaiting(log) == old(Awaiting(log))[1..] && Pace(log) == old(Pace(log))
    {
      hide AllSent, Genuine, Lawful, Story, Awaiting, Streak, Asks, Since, Resets, Words, Stopped, Ended;
      hide OwnOf, RowsIn, Flows, ShownAs, Told, Paged;
      if !cancelled {
        var _ := CheckStop();
      }
      ghost var before := log;
      if cancelled {
        output := CANCELLED;
        e := Cut(call);
        NoteAnswer(Cut(call));
      } else if call.tool in tripped {
        output := CIRCUIT_OPEN;
        e := Open(call);
        NoteAnswer(Open(call));
      } else {
        output, e := Try(call);
      }
      OneEventMore(before, e);
      PaceOfOneMore(before, e);
    }

    /** Exactly one result per call. */
    method RunCall(call: Call) returns (result: Message)
      requires world.registry.Valid() && Talks() && Logs() && Shown() && Tale() && !Ended(log) && Next(log, call)
      modifies `working, `tail, `log, `counts, `tripped, `schemas, `visible, `cancelled, recorder, world, world.registry
      ensures world.registry.Valid() && Talks() && Logs() && Shown() && Tale() && !Ended(log)
      ensures result.ToolResult? && result.id == call.id && working == old(working) + [result]
      ensures Rested(log) && Awaiting(log) == old(Awaiting(log))[1..] && Pace(log) == old(Pace(log))
    {
      hide AllSent, Refines, Genuine, Lawful, Step, Story, Awaiting, Streak, Asks, Since, Resets, Words, Stopped, Ended;
      hide OwnOf, RowsIn, Flows, ShownAs, Told, Paged;
      ghost var e;
      var output;
      output, e := Obtain(call);
      assert Logs() && Shown();
      result := ToolResult(call.id, output);
      Say(result);
      assert Logs() && Shown();
    }

    /** The whole batch, in order. */
    method RunBatch(reply: Reply)
      requires Safe() && !Ended(log) && reply.calls != [] && Awaiting(log) == reply.calls
      requires Story(log) == tail + Spoken(Some(reply))
      modifies `working, `tail, `log, `counts, `tripped, `schemas, `visible, `cancelled, recorder, world, world.registry
      ensures Safe() && Tale() && !Ended(log) && Awaiting(log) == [] && Rested(log) && Pace(log) == old(Pace(log))
    {
      hide AllSent, Refines, Genuine, Lawful, Step, Story, Awaiting, Streak, Asks, Since, Resets, Words, Stopped, Ended;
      hide OwnOf, RowsIn, Flows, ShownAs, Told, Paged;
      Say(Assistant(reply.text, reply.calls));
      assert Logs() && Shown() && Tale();
      ghost var results := RunCalls(reply.calls);
      BatchJoins(old(working), reply, results);
      assert working == old(working) + [Assistant(reply.text, reply.calls)] + results;
      assert Talks();
      assert Logs();
      assert Shown();
      assert Whole();
    }

    method RunCalls(calls: seq<Call>) returns (ghost results: seq<Message>)
      requires world.registry.Valid() && Talks() && Logs() && Shown() && Tale() && !Ended(log)
      requires Awaiting(log) == calls && calls != []
      modifies `working, `tail, `log, `counts, `tripped, `schemas, `visible, `cancelled, recorder, world, world.registry
      ensures world.registry.Valid() && Talks() && Logs() && Shown() && Tale() && !Ended(log)
      ensures working == old(working) + results && Answers(results, calls)
      ensures Awaiting(log) == [] && Rested(log) && Pace(log) == old(Pace(log))
    {
      hide AllSent, Refines, Genuine, Lawful, Step, Story, Awaiting, Streak, Asks, Since, Resets, Words, Stopped, Ended;
      hide OwnOf, RowsIn, Flows, ShownAs, Told, Paged;
      results := [];
      var k := 0;
      while k < |calls|
        invariant 0 <= k <= |calls|
        invariant world.registry.Valid() && Talks() && Logs() && Shown() && Tale() && !Ended(log)
        invariant working == old(working) + results
        invariant Answers(results, calls[..k])
        invariant Awaiting(log) == calls[k..] && (k > 0 ==> Rested(log)) && Pace(log) == old(Pace(log))
      {
        var result := RunCall(calls[k]);
        AnswersGrow(results, calls, k, result);
        assert calls[k..][1..] == calls[k + 1..];
        results := results + [result];
        k := k + 1;
      }
      assert calls[..k] == calls;
    }

    // -------------------------------------------------------------------------
    // The loop
    // -------------------------------------------------------------------------

    /** The counters tell the passes: `pass` is 1 within one, once the model was called. */
    ghost predicate Clock(pass: nat)
      reads `log, `resets, `iteration
    {
      resets == Resets(log) && iteration + pass == Since(log)
    }

    /** Between passes: every call has its result, and no reply is waiting to be final. */
    ghost predicate Settled()
      reads `tail, `log
    {
      Tale() && !Ended(log) && Awaiting(log) == [] && Rested(log)
    }

    /** Drains; what came gives a full run again, within the cap. */
    method Checkpoint(draft: Text, ghost pass: nat) returns (drained: seq<Message>, reset: bool)
      requires Safe() && Tale() && !cancelled && !Ended(log) && Awaiting(log) == [] && Clock(pass)
      requires Draft(log) == if Blank(draft) then [] else [Assistant(draft, [])]
      modifies `cursor, `working, `tail, `log, `schemas, `visible, `extra, `rerouted, `iteration, `resets, world,
          world.registry
      ensures Safe() && Tale() && !Ended(log) && Awaiting(log) == [] && Asks(log) == old(Asks(log))
      ensures Clock(if reset then 0 else pass)
      ensures drained == [] ==> working == old(working) && log == old(log) && !reset
      ensures drained == [] ==> RowsIn(tail) == Arrived(inflight, world.rows, scope, start)
      ensures drained != [] ==> Settled() && log == old(log) + [Heard(drained)]
      ensures reset ==> iteration == 0 && resets == old(resets) + 1 <= MAX_RESETS
      ensures !reset ==> iteration == old(iteration) && resets == old(resets)
    {
      hide AllSent, Refines, Genuine, Lawful, Step, Story, Awaiting, Streak, Asks, Since, Resets, Words, Stopped, Ended;
      hide OwnOf, RowsIn, Flows, ShownAs, Told, Paged;
      drained := Drain(draft);
      assert Shown();
      if drained == [] {
        return drained, false;
      }
      PaceOfOneMore(old(log), Heard(drained));
      var found;
      reset, found := Welcome(drained);
    }

    /** What a drain that brought something sets off. */
    method Welcome(drained: seq<Message>) returns (reset: bool, found: Option<seq<Text>>)
      requires Safe() && AllUsers(drained)
      modifies `schemas, `visible, `extra, `rerouted, `iteration, `resets, world, world.registry
      ensures Safe()
      ensures reset == (old(resets) < MAX_RESETS)
      ensures reset ==> iteration == 0 && resets == old(resets) + 1
      ensures !reset ==> iteration == old(iteration) && resets == old(resets)
      ensures found.Some? <==> rerouting && old(extra) < budget
                               && exists i :: 0 <= i < |drained| && !Blank(drained[i].text)
      ensures found.Some? ==> Admitted(found.value, old(visible))
    {
      found := Reroute(drained);
      assert Whole();
      reset := Account();
      assert Talks() && Logs() && Shown();
    }

    /** Takes in what came, and looks for a stop. */
    method Prepare()
      requires Safe() && Settled() && Clock(0) && !cancelled && iteration < max
      modifies `cursor, `working, `tail, `schemas, `visible, `extra, `rerouted, `iteration, `resets, `log, `cancelled
      modifies world, world.registry
      ensures Safe() && Tale() && !Ended(log) && Awaiting(log) == [] && Clock(0) && iteration < max
      ensures Asks(log) == old(Asks(log)) && (!cancelled ==> JustLooked(Terms(), log))
      ensures resets > old(resets) || (resets == old(resets) && iteration == old(iteration))
    {
      hide AllSent, Refines, Genuine, Lawful, Step, Story, Awaiting, Streak, Asks, Since, Resets, Words, Stopped, Ended;
      hide OwnOf, RowsIn, Flows, ShownAs, Told, Paged;
      var _, _ := Checkpoint([], 0);
      var _ := CheckStop();
      assert Shown() && Whole();
    }

    /** What follows a reply; true when it was final. */
    method Follow(reply: Reply) returns (final: bool, reset: bool)
      requires Safe() && !cancelled && !Ended(log) && Clock(1)
      requires log != [] && log[|log| - 1] == Asked(working, schemas, recorder.trace, Some(reply), false)
      requires Story(log) == tail + Spoken(Some(reply)) && Awaiting(log) == reply.calls
      modifies `cursor, `working, `tail, `schemas, `visible, `extra, `rerouted, `iteration, `resets, `log, `counts,
          `tripped
      modifies `cancelled, recorder, world, world.registry
      ensures Safe() && Tale() && !Ended(log) && Awaiting(log) == [] && Asks(log) == old(Asks(log))
      ensures final ==> !cancelled && LastSawAll() && reply.calls == [] && log == old(log)
      ensures !final && !cancelled ==> Settled() && Clock(if reset then 0 else 1)
      ensures reset ==> iteration == 0 && resets == old(resets) + 1 <= MAX_RESETS
      ensures !reset ==> iteration == old(iteration) && resets == old(resets)
    {
      hide AllSent, Refines, Genuine, Lawful, Step, Story, Awaiting, Streak, Asks, Since, Resets, Words, Stopped, Ended;
      hide OwnOf, RowsIn, Flows, ShownAs, Told, Paged;
      if reply.calls == [] {
        var drained, again := Checkpoint(reply.text, 1);
        return drained == [], again;
      }
      RunBatch(reply);
      if cancelled {
        return false, false;
      }
      var _, again := Checkpoint([], 1);
      return false, again;
    }

    /** The pass is over: unless a reset started a new run of passes, it counts. */
    method Advance(reset: bool)
      requires Clock(if reset then 0 else 1)
      modifies `iteration
      ensures Clock(0) && iteration == if reset then old(iteration) else old(iteration) + 1
    {
      if !reset {
        iteration := iteration + 1;
      }
    }

    /** One exchange with the model. None: the loop goes on one step nearer to its end, or was stopped. */
    method Exchange() returns (ending: Option<Outcome>)
      requires Safe() && Tale() && !cancelled && !Ended(log) && Awaiting(log) == []
      requires Clock(0) && iteration < max && JustLooked(Terms(), log)
      modifies `cursor, `working, `tail, `schemas, `visible, `extra, `rerouted, `iteration, `resets, `log, `counts,
          `tripped
      modifies `cancelled, `lastText, recorder, world, world.registry
      ensures Safe() && Tale() && !Ended(log) && Awaiting(log) == [] && Asks(log) == old(Asks(log)) + 1
      ensures ending.None? && !cancelled ==>
                Settled() && Clock(0) && iteration <= max
                && (resets > old(resets) || (resets == old(resets) && iteration > old(iteration)))
      ensures ending.Some? ==> !cancelled && Concludes(log, ending.value)
      ensures ending.Some? ==> (ending.value.Replied? && LastSawAll()) || ending.value.Crashed?
    {
      hide AllSent, Refines, Genuine, Lawful, Step, Story, Awaiting, Streak, Asks, Since, Resets, Words, Stopped, Ended;
      hide OwnOf, RowsIn, Flows, ShownAs, Told, Paged;
      var reply := Ask();
      if reply.None? {
        return Some(Crashed);
      }
      var final, reset := Follow(reply.value);
      if final {
        return Some(Replied(reply.value.text));
      }
      if !cancelled {
        Advance(reset);
      }
      return None;
    }

    /** One pass of the loop. */
    method Pass() returns (ending: Option<Outcome>)
      requires Safe() && Settled() && Clock(0) && !cancelled && iteration < max
      modifies `cursor, `working, `tail, `schemas, `visible, `extra, `rerouted, `iteration, `resets, `log, `counts,
          `tripped
      modifies `cancelled, `lastText, recorder, world, world.registry
      ensures Safe() && Tale() && !Ended(log) && Awaiting(log) == []
      ensures if cancelled && ending.None? then Asks(log) >= old(Asks(log)) else Asks(log) == old(Asks(log)) + 1
      ensures ending.None? && !cancelled ==>
                Settled() && Clock(0) && iteration <= max
                && (resets > old(resets) || (resets == old(resets) && iteration > old(iteration)))
      ensures ending.Some? ==> !cancelled && Concludes(log, ending.value)
      ensures ending.Some? ==> (ending.value.Replied? && LastSawAll()) || ending.value.Crashed?
    {
      Prepare();
      if cancelled {
        return None;
      }
      ending := Exchange();
    }

    /** The last call of the model saw every user message that arrived. */
    predicate LastSawAll()
      reads `log, world
    {
      && log != [] && log[|log| - 1].Asked? && first <= log[|log| - 1].messages
      && RowsIn(log[|log| - 1].messages[|first|..]) == Arrived(inflight, world.rows, scope, start)
    }

    /** The instruction to sum up, which nobody persists. */
    method Instruct()
      requires Talks() && Whole()
      modifies `working, `tail, `cursor
      ensures Talks() && Whole() && tail == old(tail) + [User(WRAP_UP, 0)]
    {
      var instruction := User(WRAP_UP, 0);
      SingleMessage(instruction);
      InstructionIsPaired(working, instruction);
      assert RowsIn(tail) + [] == RowsIn(tail);
      Extend([instruction], cursor);
    }

    /** The closing call, without tools: it is made, and answered or not. */
    method CallToClose() returns (reply: Option<Reply>)
      requires Safe() && !Ended(log) && Awaiting(log) == [] && MayAsk(Terms(), log, [], true)
      requires tail == Story(log) + if cancelled then [User(WRAP_UP, 0)] else []
      modifies `log, world, world.registry
      ensures Safe() && Ended(log) && Asks(log) == old(Asks(log)) + 1
      ensures log == old(log) + [Asked(working, [], recorder.trace, reply, true)]
      ensures Story(log) == old(Story(log)) && Since(log) == old(Since(log)) && Resets(log) == old(Resets(log))
    {
      Await();
      reply := *;
      NoteCall(Asked(working, [], recorder.trace, reply, true));
    }

    /** A stopped turn: one call without tools, or a fixed text. */
    method WrapUp() returns (text: Text)
      requires Safe() && Tale() && cancelled && !Ended(log) && Awaiting(log) == []
      modifies `working, `tail, `cursor, `log, world, world.registry
      ensures Safe() && Ended(log) && Asks(log) == old(Asks(log)) + 1 && !Blank(text)
      ensures Concludes(log, Halted(text)) && tail == Story(log) + [User(WRAP_UP, 0)]
    {
      Instruct();
      assert Logs() && Shown();
      var reply := CallToClose();
      assert STOPPED[0] == 'S';
      if reply.Some? && !Blank(reply.value.text) {
        return reply.value.text;
      }
      return STOPPED;
    }

    /** Out of iterations: if nothing was said, one call without tools asks for words. */
    method GiveUp() returns (last: Text)
      requires Safe() && Settled() && Clock(0) && !cancelled && iteration >= max
      modifies `log, world, world.registry
      ensures Safe() && Tale() && !cancelled && Since(log) == old(Since(log))
      ensures Asks(log) == old(Asks(log)) + if Blank(old(lastText)) then 1 else 0
      ensures !Blank(old(lastText)) ==> log == old(log)
      ensures log != [] ==> Concludes(log, Exhausted(last))
    {
      last := lastText;
      if Blank(last) {
        var reply := CallToClose();
        if reply.Some? {
          last := reply.value.text;
        }
      }
    }

    /**
     The turn. Whatever the model, the tools and the other coroutines do: every event keeps the rules,
     every call was sent a paired conversation, the one that the log tells, the trace of the turn and a
     beginning of what arrived, in order and once; it ends with the model's own last words; a final
     reply was composed after all that arrived; and the number of calls is bounded.
     */
    method Run() returns (outcome: Outcome)
      requires Safe() && Tale() && log == [] && iteration == 0 && resets == 0
      modifies this, recorder, world, world.registry
      ensures Safe()
      ensures Lawful(Terms(), log) && Concludes(log, outcome)
      ensures 1 <= Asks(log) <= (1 + MAX_RESETS) * max + 1
      ensures AllSent(log, first, trace0, Arrived(inflight, world.rows, scope, start))
      ensures Genuine(log, world.rows, scope)
      ensures outcome.Replied? ==> LastSawAll()
      ensures outcome.Halted? <==> Stopped(log)
      ensures outcome.Exhausted? ==> Since(log) == max
      ensures tail == Story(log) + if Stopped(log) then [User(WRAP_UP, 0)] else []
      ensures recorder.trace == trace0 + OwnOf(tail) && recorder.handed == handed0 + OwnOf(tail)
      ensures Refines(log, counts, tripped, Limit(threshold))
    {
      hide AllSent, Refines, Genuine, Lawful, Step, Story, Awaiting, Streak, Asks, Since, Resets, Words, Stopped, Ended;
      hide OwnOf, RowsIn, Flows, ShownAs, Told, Paged;
      EmptyLog();
      var ending: Option<Outcome> := None;
      while iteration < max && !cancelled && ending.None?
        invariant Safe() && Tale() && !Ended(log) && Awaiting(log) == []
        invariant !cancelled && ending.None? ==> Settled() && Clock(0) && iteration <= max
        invariant ending.None? && !cancelled && log == [] ==> iteration == 0
        invariant ending.Some? ==> !cancelled && Concludes(log, ending.value)
        invariant ending.Some? ==> (ending.value.Replied? && LastSawAll()) || ending.value.Crashed?
        invariant !cancelled && ending.None? ==> resets <= MAX_RESETS
        decreases ending.None?, !cancelled, MAX_RESETS - resets, max - iteration
      {
        ending := Pass();
        PassesAreBounded(Terms(), log);
      }
      if ending.Some? {
        outcome := ending.value;
      } else if cancelled {
        var text := WrapUp();
        outcome := Halted(text);
      } else {
        var last := GiveUp();
        outcome := Exhausted(last);
      }
      AsksAreBounded(Terms(), log);
      WordsWereAsked(log);
    }
  }
}
