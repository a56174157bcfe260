/** The child of a background delegation: one turn, whose transcript is the conversation itself. */
module OneShot {
  import opened Wrappers
  import opened Conversation
  import opened InboundTurns
  import opened TurnLog
  import opened ToolLoop
  import opened TurnLaws

  datatype Failure = Misaligned | MaxIterations(last: Text) | ProviderFailed

  /** Tools that a child never gets: it must not delegate, and its parent's delegations are not its own. */
  const EXCLUDED: set<Text> := {"delegate", "background_tasks"}

  predicate Visible(name: Text, allowed: Option<set<Text>>) {
    name !in EXCLUDED && (allowed.Some? ==> name in allowed.value)
  }

  /** The schemas of the child: the registry's, in order, cut to what it may see. */
  function Schemas(all: seq<Text>, allowed: Option<set<Text>>): seq<Text> {
    if all == [] then []
    else (if Visible(all[0], allowed) then [all[0]] else []) + Schemas(all[1..], allowed)
  }

  lemma {:induction false} SchemasAreVisible(all: seq<Text>, allowed: Option<set<Text>>)
    ensures forall name :: name in Schemas(all, allowed) <==> name in all && Visible(name, allowed)
  {
    if all != [] {
      SchemasAreVisible(all[1..], allowed);
    }
  }

  /**
   The recorder of a delegation: the mirror in memory, and the durable part, which may fail. Nothing
   in a turn reads the durable part, so what a turn hands over is stored when it ends.
   */
  class Transcript {
    const mirror: Recorder
    const base: seq<Message>   // what it held when it was opened
    var kept: nat              // messages handed over that the store has seen
    var stored: seq<Message>
    var warned: bool           // a write failed: nothing more is stored
    var warnings: nat

    constructor (trace: seq<Message>)
      ensures fresh(mirror) && mirror.trace == trace && mirror.handed == []
      ensures Valid() && CaughtUp() && stored == trace && !warned && warnings == 0
    {
      mirror := new Recorder(trace);
      base, kept, stored, warned, warnings := trace, 0, trace, false, 0;
    }

    /** What is stored is a beginning of the mirror, without holes, and all of it unless a write failed. */
    ghost predicate Valid()
      reads this, mirror
    {
      && mirror.trace == base + mirror.handed && kept <= |mirror.handed|
      && stored <= base + mirror.handed[..kept]
      && (!warned ==> stored == base + mirror.handed[..kept])
    }

    ghost predicate CaughtUp()
      reads this, mirror
    {
      kept == |mirror.handed|
    }

    lemma {:induction false} StoredIsMirror()
      requires Valid() && CaughtUp()
      ensures stored <= mirror.trace && (!warned ==> stored == mirror.trace)
    {
      assert mirror.handed[..kept] == mirror.handed;
    }

    /** A failure never reaches the turn, and is told once. */
    method RecordSafely(m: Message)
      modifies `stored, `warned, `warnings
      ensures stored == old(stored) + [m] || (warned && stored == old(stored))
      ensures old(warned) ==> warned && stored == old(stored)
      ensures warnings == old(warnings) + if warned && !old(warned) then 1 else 0
    {
      var works: bool := *;
      if !warned && works {
        stored := stored + [m];
      } else if !warned {
        warned, warnings := true, warnings + 1;
      }
    }

    /** The mirror first: whatever the store does, the trace has the message. */
    method Annotate(m: Message)
      requires Valid() && CaughtUp()
      modifies `kept, `stored, `warned, `warnings, mirror
      ensures Valid() && CaughtUp()
      ensures mirror.trace == old(mirror.trace) + [m] && mirror.handed == old(mirror.handed) + [m]
    {
      mirror.trace := mirror.trace + [m];
      mirror.handed := mirror.handed + [m];
      Persist();
    }

    /** Stores what was handed over, in order. */
    method Persist()
      requires Valid()
      modifies `kept, `stored, `warned, `warnings
      ensures Valid() && CaughtUp()
    {
      while kept < |mirror.handed|
        invariant Valid()
      {
        var handed := mirror.handed;
        assert handed[..kept + 1] == handed[..kept] + [handed[kept]];
        RecordSafely(handed[kept]);
        kept := kept + 1;
      }
    }
  }

  /** What the model is sent: paired, and with tools that the child may see. */
  predicate HonestCall(e: Event, first: seq<Message>, all: seq<Text>, allowed: Option<set<Text>>) {
    e.Asked? ==>
      && (Paired(first) ==> Paired(e.messages))
      && (forall name | name in e.tools :: name in all && Visible(name, allowed))
  }

  predicate Honest(log: seq<Event>, first: seq<Message>, all: seq<Text>, allowed: Option<set<Text>>) {
    forall i {:trigger HonestCall(log[i], first, all, allowed)} | 0 <= i < |log| :: HonestCall(log[i], first, all,
        allowed)
  }

  /** The transcript at that call was exactly what the model was sent. */
  predicate MirroredCall(e: Event) {
    e.Asked? ==> e.traced == e.messages
  }

  predicate Mirrored(log: seq<Event>) {
    forall i {:trigger MirroredCall(log[i])} | 0 <= i < |log| :: MirroredCall(log[i])
  }

  /** What the child is given: nobody writes to it, nobody stops it, and its schemas are cut. */
  function ChildRules(first: seq<Message>, max: nat, threshold: int, locked: (Text, Text) -> bool, all: seq<Text>,
                      allowed: Option<set<Text>>): Rules {
    Rules(first, Schemas(all, allowed), {}, false, false, false, locked, max, Limit(threshold))
  }

  lemma {:induction false} TurnIsHonest(log: seq<Event>, first: seq<Message>, trace0: seq<Message>,
                                        offered: seq<Text>, schemas: seq<Text>, visible: set<Text>, all: seq<Text>,
                                        allowed: Option<set<Text>>)
    requires AllSent(log, first, trace0, []) && ShownAs(offered, schemas, visible, {}, {}) && Told(log, schemas)
    requires offered == Schemas(all, allowed)
    ensures Honest(log, first, all, allowed)
  {
    SandboxIsKept(offered, schemas, visible, log);
    SchemasAreVisible(all, allowed);
    forall i | 0 <= i < |log| ensures HonestCall(log[i], first, all, allowed) {
      assert Sent(log[i], first, trace0, []);
      assert log[i].Asked? ==> log[i].tools <= offered;
    }
  }

  lemma {:induction false} OneStepAlone(r: Rules, before: seq<Event>, e: Event)
    requires Step(r, before, e) && !r.inflight && !r.stoppable && !Stopped(before)
    ensures !e.Looked? && !e.Heard? && (before == [] ==> e.Asked?)
    ensures Adds(before, e) == [] || (|Adds(before, e)| == 1 && Own(Adds(before, e)[0]))
  {
    EmptyLog();
    hide Story, Streak, Since, Words;
  }

  lemma {:induction false} OwnJoins(s: seq<Message>, more: seq<Message>)
    requires OwnOf(s) == s && (more == [] || (|more| == 1 && Own(more[0])))
    ensures OwnOf(s + more) == s + more
  {
    if more == [] {
      assert s + more == s;
    } else {
      assert (s + more)[..|s|] == s && s + more == s + [more[0]];
    }
  }

  /** Nobody interrupts: only the turn itself speaks, and it begins with a call of the model. */
  lemma {:induction false} AloneItSpeaks(r: Rules, log: seq<Event>)
    requires Lawful(r, log) && !r.inflight && !r.stoppable
    ensures OwnOf(Story(log)) == Story(log) && !Stopped(log)
    ensures Asks(log) == 0 ==> log == []
    decreases |log|
  {
    if log != [] {
      hide Step, Adds, OwnOf, Lawful;
      var before, e := log[..|log| - 1], log[|log| - 1];
      LawfulBefore(r, log, |log| - 1);
      AloneItSpeaks(r, before);
      LastStep(r, log);
      OneStepAlone(r, before, e);
      OwnJoins(Story(before), Adds(before, e));
    } else {
      EmptyLog();
    }
  }

  lemma {:induction false} LastStep(r: Rules, log: seq<Event>)
    requires Lawful(r, log) && log != []
    ensures Step(r, log[..|log| - 1], log[|log| - 1])
  {
    assert StepAt(r, log, |log| - 1);
  }

  /** What a call of the child was sent. */
  lemma {:induction false} CallIsSent(r: Rules, log: seq<Event>, i: nat, trace0: seq<Message>)
    requires Lawful(r, log) && !r.inflight && !r.stoppable && i < |log| && log[i].Asked?
    requires AllSent(log, r.first, trace0, [])
    ensures log[i].messages == r.first + Story(log[..i]) && log[i].traced == trace0 + Story(log[..i])
  {
    LawfulBefore(r, log, i);
    AloneItSpeaks(r, log[..i]);
    assert StepAt(r, log, i) && Sent(log[i], r.first, trace0, []);
    assert log[i].messages[|r.first|..] == Story(log[..i]);
  }

  /** Every call is sent the transcript if they agree at the start, and the first one is not if they do not. */
  lemma {:induction false} MirroredExactly(r: Rules, log: seq<Event>, trace0: seq<Message>)
    requires Lawful(r, log) && !r.inflight && !r.stoppable && AllSent(log, r.first, trace0, []) && Asks(log) > 0
    ensures Mirrored(log) <==> trace0 == r.first
  {
    if trace0 == r.first {
      forall i | 0 <= i < |log| ensures MirroredCall(log[i]) {
        if log[i].Asked? {
          CallIsSent(r, log, i, trace0);
        }
      }
    } else {
      FirstEventAsks(r, log);
      CallIsSent(r, log, 0, trace0);
      assert log[..0] == [];
      assert !MirroredCall(log[0]);
    }
  }

  lemma {:induction false} FirstEventAsks(r: Rules, log: seq<Event>)
    requires Lawful(r, log) && !r.inflight && !r.stoppable && log != []
    ensures log[0].Asked? && log[0].messages == r.first
  {
    assert StepAt(r, log, 0) && log[..0] == [];
    assert Awaiting([]) == [] && !Stopped([]);
  }

  /** What a turn of the child came to, for its caller. */
  predicate Reports(result: Result<Text, Failure>, log: seq<Event>) {
    match result
    case Ok(text) => Concludes(log, Replied(text))
    case Err(MaxIterations(last)) => Concludes(log, Exhausted(last))
    case Err(ProviderFailed) => Concludes(log, Crashed)
    case Err(Misaligned) => false
  }

  /** The last words that the child leaves in its transcript, if it has any. */
  function LastWords(result: Result<Text, Failure>): seq<Message> {
    match result
    case Ok(text) => [Assistant(text, [])]
    case Err(MaxIterations(last)) => if Blank(last) then [] else [Assistant(last, [])]
    case _ => []
  }

  /**
   Runs the child on `task`, after `previous` when a paused delegation resumes. Transcripts of another
   length are refused before anything happens; nothing else is checked. The model is sent exactly the
   transcript at every call if and only if the transcript was `previous`; the first call is `previous`
   and the new message, and the model is told of no tool that the child may not see. What comes back is
   the model's last reply, or why there is none; the transcript ends with it.
   */
  method Execute(world: World, transcript: Transcript, task: Text, previous: seq<Message>, max: nat, threshold: int,
                 locked: (Text, Text) -> bool, all: seq<Text>, allowed: Option<set<Text>>)
    returns (result: Result<Text, Failure>, turn: Turn?)
    requires world.registry.Valid() && transcript.Valid() && transcript.CaughtUp()
    modifies world, world.registry, transcript, transcript.mirror
    ensures transcript.Valid() && transcript.CaughtUp()
    ensures result == Err(Misaligned) <==> previous != [] && |old(transcript.mirror.trace)| != |previous|
    ensures result == Err(Misaligned) ==> turn == null && transcript.mirror.trace == old(transcript.mirror.trace)
                                          && transcript.stored == old(transcript.stored)
    ensures world.registry.Valid()
    ensures result != Err(Misaligned) ==>
              && turn != null && turn.first == previous + [User(task, 0)]
              && Lawful(ChildRules(turn.first, max, threshold, locked, all, allowed), turn.log)
              && Reports(result, turn.log)
              && transcript.mirror.trace
                   == old(transcript.mirror.trace) + [User(task, 0)] + Story(turn.log) + LastWords(result)
    ensures result != Err(Misaligned) ==> Honest(turn.log, turn.first, all, allowed)
    ensures result != Err(Misaligned) ==> (Mirrored(turn.log) <==> old(transcript.mirror.trace) == previous)
    ensures result != Err(Misaligned) ==> 1 <= Asks(turn.log) <= (1 + MAX_RESETS) * max + 1
    ensures result != Err(Misaligned) && old(transcript.mirror.trace) == previous ==>
              turn.first <= transcript.mirror.trace && (Paired(previous) ==> Paired(transcript.mirror.trace))
  {
    if previous != [] && |transcript.mirror.trace| != |previous| {
      return Err(Misaligned), null;
    }
    hide Story, Lawful, Concludes, Asks, Paired, Honest, Mirrored;
    var first := previous + [User(task, 0)];
    transcript.Annotate(User(task, 0));
    var outcome: Outcome;
    outcome, turn := RunChild(world, transcript, first, max, threshold, locked, all, allowed);
    SameTail(old(transcript.mirror.trace), previous, User(task, 0));
    InstructionIsPaired(previous, User(task, 0));
    match outcome
    case Replied(text) =>
      LastWordsArePaired(transcript.mirror.trace, text);
      transcript.Annotate(Assistant(text, []));
      result := Ok(text);
    case Exhausted(last) =>
      LastWordsArePaired(transcript.mirror.trace, last);
      if !Blank(last) {
        transcript.Annotate(Assistant(last, []));
      }
      result := Err(MaxIterations(last));
    case Crashed => result := Err(ProviderFailed);
  }

  lemma {:induction false} SameTail(s: seq<Message>, t: seq<Message>, m: Message)
    ensures s + [m] == t + [m] <==> s == t
  {
    if s + [m] == t + [m] {
      assert (s + [m])[..|s|] == s && (t + [m])[..|t|] == t;
    }
  }

  /** The turn of the child. */
  method RunChild(world: World, transcript: Transcript, first: seq<Message>, max: nat, threshold: int,
                  locked: (Text, Text) -> bool, all: seq<Text>, allowed: Option<set<Text>>)
    returns (outcome: Outcome, turn: Turn)
    requires world.registry.Valid() && transcript.Valid() && transcript.CaughtUp()
    modifies world, world.registry, transcript, transcript.mirror
    ensures world.registry.Valid() && transcript.Valid() && transcript.CaughtUp()
    ensures turn.first == first && Honest(turn.log, first, all, allowed)
    ensures Lawful(ChildRules(first, max, threshold, locked, all, allowed), turn.log) && Concludes(turn.log, outcome)
    ensures Mirrored(turn.log) <==> old(transcript.mirror.trace) == first
    ensures 1 <= Asks(turn.log) <= (1 + MAX_RESETS) * max + 1 && !outcome.Halted?
    ensures transcript.mirror.trace == old(transcript.mirror.trace) + Story(turn.log)
    ensures Paired(first) ==> Paired(first + Story(turn.log))
  {
    hide Lawful, AllSent, Refines, Genuine, Step, Awaiting, Asks, Since, Ended, RowsIn, Told, Paged, Mirrored, Honest;
    hide Schemas, Visible, Story, OwnOf, Flows, ShownAs, Stopped, Paired, Concludes;
    var offered := Schemas(all, allowed);
    var nowhere := Scope([], [], []);
    var rules := ChildRules(first, max, threshold, locked, all, allowed);
    turn := new Turn(world, transcript.mirror, nowhere, false, false, false, locked, max, threshold, {}, false, 0,
        first, offered, 0);
    outcome := turn.Run();
    transcript.Persist();
    TurnIsHonest(turn.log, first, turn.trace0, offered, turn.schemas, turn.visible, all, allowed);
    MirroredExactly(rules, turn.log, turn.trace0);
    AloneItSpeaks(rules, turn.log);
    assert turn.tail == Story(turn.log);
  }

  /**
   Concrete inputs that are not refused although the calls are not sent the transcript: one message of
   the same length, and any transcript at all when there is nothing to resume from.
   */
  method OnlyLengthsAreChecked(world: World, max: nat, threshold: int, locked: (Text, Text) -> bool)
    returns (turn: Turn?, again: Turn?)
    requires world.registry.Valid()
    modifies world, world.registry
    ensures turn != null && !Mirrored(turn.log)
    ensures again != null && !Mirrored(again.log)
  {
    var kept := new Transcript([User("kept", 0)]);
    var result: Result<Text, Failure>;
    result, turn := Execute(world, kept, "answer", [User("paused", 0)], max, threshold, locked, [], None);
    assert kept.base[0] != User("paused", 0);
    var other := new Transcript([User("kept", 0)]);
    result, again := Execute(world, other, "task", [], max, threshold, locked, [], None);
  }

  lemma {:induction false} LastWordsArePaired(s: seq<Message>, text: Text)
    ensures Paired(s) ==> Paired(s + [Assistant(text, [])])
  {
    BatchIsPaired(text, [], []);
    assert [Assistant(text, [])] + [] == [Assistant(text, [])];
    if Paired(s) {
      PairedConcat(s, [Assistant(text, [])]);
    }
  }

  /** What one phase was: the messages it began with and what it did. */
  datatype Phase = Phase(first: seq<Message>, log: seq<Event>)

  /** The first call of a phase. */
  predicate OpensWith(e: Event, first: seq<Message>) {
    e.Asked? && e.messages == first
  }

  /** A phase begins with everything said before it, and is sent its own transcript at every call. */
  predicate Continues(phases: seq<Phase>, messages: seq<Text>, k: nat)
    requires k < |phases| <= |messages|
  {
    && phases[k].first != [] && phases[k].first[|phases[k].first| - 1] == User(messages[k], 0)
    && Mirrored(phases[k].log) && (phases[k].log != [] ==> OpensWith(phases[k].log[0], phases[k].first))
    && (k > 0 ==> phases[k - 1].first < phases[k].first)
  }

  predicate OneConversation(phases: seq<Phase>, messages: seq<Text>)
    requires |phases| <= |messages|
  {
    forall k {:trigger Continues(phases, messages, k)} | 0 <= k < |phases| :: Continues(phases, messages, k)
  }

  lemma {:induction false} ConversationGrows(phases: seq<Phase>, messages: seq<Text>, before: seq<Message>,
                                             log: seq<Event>)
    requires |phases| < |messages| && OneConversation(phases, messages)
    requires phases != [] ==> phases[|phases| - 1].first <= before
    requires Mirrored(log) && (log != [] ==> OpensWith(log[0], before + [User(messages[|phases|], 0)]))
    ensures OneConversation(phases + [Phase(before + [User(messages[|phases|], 0)], log)], messages)
  {
    hide Mirrored, OpensWith;
    var first := before + [User(messages[|phases|], 0)];
    var grown := phases + [Phase(first, log)];
    forall k | 0 <= k < |grown| ensures Continues(grown, messages, k) {
      if k < |phases| {
        assert Continues(phases, messages, k);
        assert grown[k] == phases[k] && (k > 0 ==> grown[k - 1] == phases[k - 1]);
      } else {
        assert grown[k] == Phase(first, log) && first[|first| - 1] == User(messages[k], 0);
        assert k > 0 ==> grown[k - 1] == phases[k - 1];
      }
    }
  }

  /**
   A delegation that pauses any number of times, each phase reopening what the store holds: as long as
   no write fails, however many phases, it is one paired conversation, and the first call of each phase
   is the stored transcript so far and the answer.
   */
  method RunPhases(world: World, messages: seq<Text>, max: nat, threshold: int,
                   locked: (Text, Text) -> bool, all: seq<Text>, allowed: Option<set<Text>>)
    returns (phases: seq<Phase>, stored: seq<Message>)
    requires world.registry.Valid()
    modifies world, world.registry
    ensures |phases| <= |messages| && OneConversation(phases, messages)
  {
    phases, stored := [], [];
    var going := true;
    while |phases| < |messages| && going
      invariant world.registry.Valid() && |phases| <= |messages|
      invariant OneConversation(phases, messages)
      invariant going ==> Paired(stored) && (phases != [] ==> phases[|phases| - 1].first <= stored)
      decreases |messages| - |phases|, going
    {
      var reopened := new Transcript(stored);
      var result, turn := Execute(world, reopened, messages[|phases|], stored, max, threshold, locked, all, allowed);
      reopened.StoredIsMirror();
      if turn.log != [] {
        FirstEventAsks(ChildRules(turn.first, max, threshold, locked, all, allowed), turn.log);
      }
      ConversationGrows(phases, messages, stored, turn.log);
      phases := phases + [Phase(turn.first, turn.log)];
      stored := reopened.stored;
      going := result.Ok? && !reopened.warned;
    }
  }
}
