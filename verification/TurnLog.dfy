/**
 What a turn does to the world, event by event, and the rules that every event keeps.
 */
module TurnLog {
  import opened Wrappers
  import opened Conversation
  import opened InboundTurns

  /** How a tool ended: a failure may be worth a retry or not. */
  datatype Verdict = Success | Retryable | Fatal

  /** What the model answers; None is a provider that raises. */
  datatype Reply = Reply(text: Text, calls: seq<Call>)

  /**
   What a turn does, in order: it looks for a stop; user messages join it; it calls the model, `closing`
   when it is the last call, made without tools; and each tool call of a reply runs, is refused, meets
   an open circuit, or is cut by a stop. `traced` is the recorder's trace at that call.
   */
  datatype Event =
    | Looked(stop: bool)
    | Heard(users: seq<Message>)
    | Asked(messages: seq<Message>, tools: seq<Text>, traced: seq<Message>, reply: Option<Reply>, closing: bool)
    | Ran(call: Call, verdict: Verdict, output: Text)
    | Refused(call: Call)
    | Open(call: Call)
    | Cut(call: Call)

  datatype Outcome =
    | Replied(text: Text)
    | Halted(text: Text)
    | Exhausted(last: Text)
    | Crashed

  /** Times that in-flight messages may reset the iteration counter of one turn. */
  const MAX_RESETS: nat := 3

  const CANCELLED: Text := "CANCELLED"
  const CIRCUIT_OPEN: Text := "CIRCUIT OPEN"
  const PRIVILEGE: Text := "PRIVILEGE"
  const WRAP_UP: Text := "The user stopped the turn: sum up."
  const STOPPED: Text := "Stopped."

  // ---------------------------------------------------------------------------
  // What a log tells
  // ---------------------------------------------------------------------------

  predicate Tries(e: Event) {
    e.Ran? || e.Refused?
  }

  /** What gives a tool call its result. */
  predicate Answering(e: Event) {
    e.Ran? || e.Refused? || e.Open? || e.Cut?
  }

  /** The result of a call: the output of its own run, or a fixed text. */
  function ResultOf(e: Event): Message
    requires Answering(e)
  {
    ToolResult(e.call.id, match e case Ran(_, _, output) => output case Refused(_) => PRIVILEGE
                          case Open(_) => CIRCUIT_OPEN case _ => CANCELLED)
  }

  /** A reply with calls, as a message. */
  function Spoken(reply: Option<Reply>): seq<Message> {
    if reply.Some? && reply.value.calls != [] then [Assistant(reply.value.text, reply.value.calls)] else []
  }

  /** The final reply that just came, if it has words: messages that overtake it make it a draft. */
  function Draft(log: seq<Event>): seq<Message> {
    if log == [] then []
    else
      var e := log[|log| - 1];
      if e.Asked? && e.reply.Some? && e.reply.value.calls == [] && !Blank(e.reply.value.text)
      then [Assistant(e.reply.value.text, [])] else []
  }

  /** No reply waits to be final, and no provider just raised. */
  predicate Rested(log: seq<Event>) {
    log == [] || !log[|log| - 1].Asked?
  }

  /** What an event adds to the conversation. */
  function Adds(before: seq<Event>, e: Event): seq<Message> {
    match e
    case Looked(_) => []
    case Heard(users) => Draft(before) + users
    case Asked(_, _, _, reply, closing) => if closing then [] else Spoken(reply)
    case _ => [ResultOf(e)]
  }

  /** The conversation that a log tells, past the first messages. */
  function Story(log: seq<Event>): seq<Message> {
    if log == [] then [] else Story(log[..|log| - 1]) + Adds(log[..|log| - 1], log[|log| - 1])
  }

  /** The calls of the last reply that have no result yet. */
  function Awaiting(log: seq<Event>): seq<Call> {
    if log == [] then []
    else
      var before, e := Awaiting(log[..|log| - 1]), log[|log| - 1];
      if e.Asked? then (if !e.closing && e.reply.Some? then e.reply.value.calls else [])
      else if Answering(e) && before != [] then before[1..]
      else before
  }

  predicate Stopped(log: seq<Event>) {
    log != [] && (log[|log| - 1] == Looked(true) || Stopped(log[..|log| - 1]))
  }

  /** The closing call was made. */
  predicate Ended(log: seq<Event>) {
    log != [] && ((log[|log| - 1].Asked? && log[|log| - 1].closing) || Ended(log[..|log| - 1]))
  }

  /** Calls of the model. */
  function Asks(log: seq<Event>): nat {
    if log == [] then 0 else Asks(log[..|log| - 1]) + if log[|log| - 1].Asked? then 1 else 0
  }

  /** How often messages that came gave the turn a full run again: at most so many times. */
  function Resets(log: seq<Event>): nat {
    if log == [] then 0
    else
      var before := Resets(log[..|log| - 1]);
      if log[|log| - 1].Heard? && before < MAX_RESETS then before + 1 else before
  }

  /** Calls of the model, but the closing one, since the last full run began. */
  function Since(log: seq<Event>): nat {
    if log == [] then 0
    else
      var e, before := log[|log| - 1], log[..|log| - 1];
      if e.Heard? && Resets(before) < MAX_RESETS then 0
      else Since(before) + if e.Asked? && !e.closing then 1 else 0
  }

  /** The text of the last reply, but for the closing one. */
  function Words(log: seq<Event>): Text {
    if log == [] then []
    else
      var e := log[|log| - 1];
      if e.Asked? && !e.closing && e.reply.Some? then e.reply.value.text else Words(log[..|log| - 1])
  }

  /** Calls in all, calls since the last full run began, and resets. */
  function Pace(log: seq<Event>): (nat, nat, nat) {
    (Asks(log), Since(log), Resets(log))
  }

  /** Non-retryable failures of a tool since its last success. */
  function Streak(log: seq<Event>, tool: Text): nat {
    if log == [] then 0
    else
      var e := log[|log| - 1];
      var before := log[..|log| - 1];
      if !Tries(e) || e.call.tool != tool then Streak(before, tool)
      else if e.Refused? || e.verdict.Fatal? then Streak(before, tool) + 1
      else if e.verdict.Success? then 0
      else Streak(before, tool)
  }

  function Limit(threshold: int): nat {
    if threshold < 1 then 1 else threshold
  }

  /** One more event. */
  lemma {:induction false} OneEventMore(log: seq<Event>, e: Event)
    ensures Story(log + [e]) == Story(log) + Adds(log, e)
    ensures Stopped(log + [e]) <==> Stopped(log) || e == Looked(true)
    ensures Ended(log + [e]) <==> Ended(log) || (e.Asked? && e.closing)
    ensures Words(log + [e]) == if e.Asked? && !e.closing && e.reply.Some? then e.reply.value.text else Words(log)
    ensures Awaiting(log + [e])
         == if e.Asked? then (if !e.closing && e.reply.Some? then e.reply.value.calls else [])
            else if Answering(e) && Awaiting(log) != [] then Awaiting(log)[1..] else Awaiting(log)
  {
    assert (log + [e])[..|log + [e]| - 1] == log;
  }

  lemma {:induction false} PaceOfOneMore(log: seq<Event>, e: Event)
    ensures Asks(log + [e]) == Asks(log) + if e.Asked? then 1 else 0
    ensures Resets(log + [e]) == Resets(log) + if e.Heard? && Resets(log) < MAX_RESETS then 1 else 0
    ensures Since(log + [e]) == if e.Heard? && Resets(log) < MAX_RESETS then 0
                                else Since(log) + if e.Asked? && !e.closing then 1 else 0
  {
    assert (log + [e])[..|log + [e]| - 1] == log;
  }

  lemma {:induction false} EmptyLog()
    ensures Story([]) == [] && Awaiting([]) == [] && Words([]) == [] && Pace([]) == (0, 0, 0)
    ensures !Ended([]) && !Stopped([]) && Rested([])
  {
  }

  /** Words come from calls. */
  lemma {:induction false} WordsWereAsked(log: seq<Event>)
    ensures Asks(log) == 0 ==> Words(log) == [] && (log != [] ==> !log[|log| - 1].Asked?)
    decreases |log|
  {
    if log != [] {
      WordsWereAsked(log[..|log| - 1]);
    }
  }

  // ---------------------------------------------------------------------------
  // The rules
  // ---------------------------------------------------------------------------

  /** What a turn is given. */
  datatype Rules = Rules(
    first: seq<Message>,
    offered: seq<Text>,        // schemas visible at the start
    catalogue: set<Text>,      // tools that can be paged in
    inflight: bool,            // messages may join the turn
    stoppable: bool,
    operator: bool,
    locked: (Text, Text) -> bool,
    max: nat,
    limit: nat)

  /** This call is the next one without a result. */
  predicate Next(log: seq<Event>, call: Call) {
    Awaiting(log) != [] && Awaiting(log)[0] == call
  }

  /** The last thing that happened was to look for a stop and see none. */
  predicate JustLooked(r: Rules, log: seq<Event>) {
    r.stoppable ==> log != [] && log[|log| - 1] == Looked(false)
  }

  /** The model is told of the first schemas, and of every tool of the catalogue that was tried. */
  predicate Equips(r: Rules, before: seq<Event>, tools: seq<Text>) {
    && r.offered <= tools
    && (forall i {:trigger Tries(before[i])} | 0 <= i < |before| ::
          Tries(before[i]) && before[i].call.tool in r.catalogue ==> before[i].call.tool in tools)
  }

  /** What the model is sent: the first messages, the story so far, and after a stop the instruction to sum up. */
  function Sendable(r: Rules, before: seq<Event>): seq<Message> {
    r.first + Story(before) + if Stopped(before) then [User(WRAP_UP, 0)] else []
  }

  /** When the model may be called. */
  predicate MayAsk(r: Rules, before: seq<Event>, tools: seq<Text>, closing: bool) {
    if closing then tools == [] && (Stopped(before) || (Since(before) >= r.max && Blank(Words(before))))
    else !Stopped(before) && JustLooked(r, before) && Since(before) < r.max && Equips(r, before, tools)
  }

  /** What may happen next: nothing after the closing call, and after a stop only cuts and that call. */
  predicate Step(r: Rules, before: seq<Event>, e: Event) {
    !Ended(before)
    && match e
       case Looked(_) => r.stoppable && !Stopped(before)
       case Heard(users) =>
         r.inflight && !Stopped(before) && Awaiting(before) == [] && users != [] && AllUsers(users)
       case Asked(messages, tools, _, _, closing) =>
         Awaiting(before) == [] && messages == Sendable(r, before) && MayAsk(r, before, tools, closing)
       case Cut(call) => Next(before, call) && Stopped(before)
       case Open(call) => Next(before, call) && JustLooked(r, before) && Streak(before, call.tool) >= r.limit
                          && !Stopped(before)
       case Refused(call) => Next(before, call) && JustLooked(r, before) && Streak(before, call.tool) < r.limit
                             && !Stopped(before) && r.locked(call.tool, call.args) && !r.operator
       case Ran(call, _, _) => Next(before, call) && JustLooked(r, before) && Streak(before, call.tool) < r.limit
                               && !Stopped(before) && (r.locked(call.tool, call.args) ==> r.operator)
  }

  predicate StepAt(r: Rules, log: seq<Event>, i: nat)
    requires i < |log|
  {
    Step(r, log[..i], log[i])
  }

  /** Every event kept the rules. */
  predicate Lawful(r: Rules, log: seq<Event>) {
    forall i {:trigger StepAt(r, log, i)} | 0 <= i < |log| :: StepAt(r, log, i)
  }

  lemma {:induction false} LawfulGrows(r: Rules, log: seq<Event>, e: Event)
    requires Lawful(r, log) && Step(r, log, e)
    ensures Lawful(r, log + [e])
  {
    hide Step;
    var grown := log + [e];
    forall i | 0 <= i < |grown| ensures StepAt(r, grown, i) {
      assert grown[..i] == log[..i];
      if i < |log| {
        assert StepAt(r, log, i);
      } else {
        assert log[..i] == log;
      }
    }
  }

  lemma {:induction false} LawfulBefore(r: Rules, log: seq<Event>, n: nat)
    requires Lawful(r, log) && n <= |log|
    ensures Lawful(r, log[..n])
  {
    hide Step;
    forall i | 0 <= i < n ensures StepAt(r, log[..n], i) {
      assert StepAt(r, log, i) && log[..n][..i] == log[..i];
    }
  }

  /** How a turn ends: with the last reply as it came, with its words, or with nothing. */
  predicate Concludes(log: seq<Event>, outcome: Outcome) {
    log != [] &&
    var e := log[|log| - 1];
    match outcome
    case Replied(text) => e.Asked? && !e.closing && e.reply == Some(Reply(text, []))
    case Crashed => e.Asked? && !e.closing && e.reply == None
    case Halted(text) => e.Asked? && e.closing && Stopped(log)
                         && text == if e.reply.Some? && !Blank(e.reply.value.text) then e.reply.value.text else STOPPED
    case Exhausted(last) => !Stopped(log) && ((e.Asked? && e.closing) <==> Blank(Words(log)))
                            && (e.Asked? ==> e.closing)
                            && last == if e.Asked? && e.closing && e.reply.Some? then e.reply.value.text else Words(log)
  }

  predicate HeardTrue(e: Event, rows: seq<Row>, scope: Scope) {
    e.Heard? ==> AllCame(e.users, rows, scope)
  }

  /** Nothing was heard that nobody said. */
  predicate Genuine(log: seq<Event>, rows: seq<Row>, scope: Scope) {
    forall i {:trigger HeardTrue(log[i], rows, scope)} | 0 <= i < |log| :: HeardTrue(log[i], rows, scope)
  }

  lemma {:induction false} LaterGenuine(log: seq<Event>, rows: seq<Row>, later: seq<Row>, scope: Scope)
    requires Genuine(log, rows, scope) && rows <= later
    ensures Genuine(log, later, scope)
  {
    forall i | 0 <= i < |log| ensures HeardTrue(log[i], later, scope) {
      assert HeardTrue(log[i], rows, scope);
      if log[i].Heard? {
        LaterCame(log[i].users, rows, later, scope);
      }
    }
  }

  lemma {:induction false} GenuineGrows(log: seq<Event>, e: Event, rows: seq<Row>, scope: Scope)
    requires Genuine(log, rows, scope) && HeardTrue(e, rows, scope)
    ensures Genuine(log + [e], rows, scope)
  {
    forall i | 0 <= i < |log + [e]| ensures HeardTrue((log + [e])[i], rows, scope) {
      if i < |log| {
        assert HeardTrue(log[i], rows, scope);
      }
    }
  }

  // ---------------------------------------------------------------------------
  // The conversation, the rows and the breaker
  // ---------------------------------------------------------------------------

  /** The counters and the tripped set are the history. */
  ghost predicate Refines(log: seq<Event>, counts: map<Text, nat>, tripped: set<Text>, limit: nat) {
    forall tool: Text {:trigger Streak(log, tool)} ::
      && Streak(log, tool) == Before(counts, tool)
      && (tool in tripped <==> Streak(log, tool) >= limit)
  }

  /** What the model was sent in one call. */
  predicate Sent(e: Event, first: seq<Message>, trace0: seq<Message>, arrived: seq<nat>) {
    e.Asked? ==>
      && first <= e.messages
      && (Paired(first) ==> Paired(e.messages))
      && RowsIn(e.messages[|first|..]) <= arrived
      && e.traced == trace0 + OwnOf(e.messages[|first|..])
  }

  predicate AllSent(log: seq<Event>, first: seq<Message>, trace0: seq<Message>, arrived: seq<nat>) {
    forall i {:trigger Sent(log[i], first, trace0, arrived)} | 0 <= i < |log| :: Sent(log[i], first, trace0, arrived)
  }

  /** Rows that a turn without in-flight messages never sees. */
  function Arrived(inflight: bool, rows: seq<Row>, scope: Scope, cursor: nat): seq<nat> {
    if inflight then Ids(rows, scope, cursor) else []
  }

  /** What entered the conversation is exactly what arrived up to the cursor. */
  predicate Flows(entered: seq<nat>, inflight: bool, rows: seq<Row>, scope: Scope, start: nat, cursor: nat) {
    if inflight then start <= cursor <= |rows| && entered == IdsTo(rows, scope, start, cursor) else entered == []
  }

  lemma {:induction false} LaterFlows(entered: seq<nat>, inflight: bool, rows: seq<Row>, later: seq<Row>,
                                      scope: Scope, start: nat, cursor: nat)
    requires Flows(entered, inflight, rows, scope, start, cursor) && rows <= later
    ensures Flows(entered, inflight, later, scope, start, cursor)
    ensures Arrived(inflight, rows, scope, start) <= Arrived(inflight, later, scope, start)
  {
    if inflight {
      IdsStay(rows, later, scope, start, cursor);
      IdsStay(rows, later, scope, start, |rows|);
      IdsSplit(later, scope, start, |rows|, |later|);
    }
  }

  /** What entered is the beginning of what arrived; all of it, when nothing is above the cursor. */
  lemma {:induction false} FlowsArrived(entered: seq<nat>, inflight: bool, rows: seq<Row>, scope: Scope, start: nat,
                                        cursor: nat)
    requires Flows(entered, inflight, rows, scope, start, cursor)
    ensures entered <= Arrived(inflight, rows, scope, start)
    ensures !inflight || NewsTo(rows, scope, cursor, |rows|) == [] ==> entered == Arrived(inflight, rows, scope, start)
  {
    if inflight {
      IdsSplit(rows, scope, start, cursor, |rows|);
      NewsAreUsers(rows, scope, cursor, |rows|);
    }
  }

  lemma {:induction false} LaterSent(log: seq<Event>, first: seq<Message>, trace0: seq<Message>, arrived: seq<nat>,
                                     later: seq<nat>)
    requires AllSent(log, first, trace0, arrived) && arrived <= later
    ensures AllSent(log, first, trace0, later)
  {
    forall i | 0 <= i < |log| ensures Sent(log[i], first, trace0, later) {
      assert Sent(log[i], first, trace0, arrived);
    }
  }

  /** Passes that this many resets can have spent. */
  function Spendable(resets: nat, max: nat): nat {
    if resets == 0 then 0 else Spendable(resets - 1, max) + max
  }

  lemma {:induction false} SpendableIsBounded(resets: nat, max: nat)
    requires resets <= MAX_RESETS
    ensures Spendable(resets, max) <= MAX_RESETS * max
  {
    if resets == 0 {
    } else if resets == 1 {
      assert Spendable(0, max) == 0;
    } else if resets == 2 {
      assert Spendable(1, max) == Spendable(0, max) + max;
    } else {
      assert Spendable(2, max) == Spendable(1, max) + max;
      assert Spendable(1, max) == Spendable(0, max) + max;
    }
  }

  /** The rules alone bound the calls: one per pass, a full run of passes per reset, and the closing one. */
  lemma {:induction false} PassesAreBounded(r: Rules, log: seq<Event>)
    requires Lawful(r, log)
    ensures Since(log) <= r.max && Resets(log) <= MAX_RESETS
    ensures Asks(log) <= Spendable(Resets(log), r.max) + Since(log) + if Ended(log) then 1 else 0
    decreases |log|
  {
    if log != [] {
      var before, e := log[..|log| - 1], log[|log| - 1];
      LawfulBefore(r, log, |log| - 1);
      PassesAreBounded(r, before);
      assert StepAt(r, log, |log| - 1);
    }
  }

  lemma {:induction false} AsksAreBounded(r: Rules, log: seq<Event>)
    requires Lawful(r, log)
    ensures Asks(log) <= (1 + MAX_RESETS) * r.max + 1
  {
    PassesAreBounded(r, log);
    SpendableIsBounded(Resets(log), r.max);
  }

  /** An event that tries no tool leaves the breaker alone. */
  lemma {:induction false} QuietEvent(log: seq<Event>, e: Event, counts: map<Text, nat>, tripped: set<Text>, limit: nat)
    requires Refines(log, counts, tripped, limit) && !Tries(e)
    ensures Refines(log + [e], counts, tripped, limit)
  {
    var grown := log + [e];
    assert grown[..|grown| - 1] == log;
    assert forall tool :: Streak(grown, tool) == Streak(log, tool);
  }

  lemma {:induction false} AllSentGrows(log: seq<Event>, e: Event, first: seq<Message>, trace0: seq<Message>,
                                        arrived: seq<nat>)
    requires AllSent(log, first, trace0, arrived) && Sent(e, first, trace0, arrived)
    ensures AllSent(log + [e], first, trace0, arrived)
  {
    forall i | 0 <= i < |log + [e]| ensures Sent((log + [e])[i], first, trace0, arrived) {
      if i < |log| {
        assert Sent(log[i], first, trace0, arrived);
      }
    }
  }

  /** A schema joined once, by page-in or by re-routing. */
  predicate Joined(schemas: seq<Text>, i: nat, catalogue: set<Text>, rerouted: set<Text>)
    requires i < |schemas|
  {
    schemas[i] !in schemas[..i] && (schemas[i] in catalogue || schemas[i] in rerouted)
  }

  /** The schemas shown are the first ones and what page-in or re-routing added, each once. */
  ghost predicate ShownAs(offered: seq<Text>, schemas: seq<Text>, visible: set<Text>, catalogue: set<Text>,
                          rerouted: set<Text>) {
    && offered <= schemas
    && (forall t {:trigger t in visible} :: t in visible <==> t in schemas)
    && rerouted <= visible
    && (forall i {:trigger Joined(schemas, i, catalogue, rerouted)} | |offered| <= i < |schemas| ::
          Joined(schemas, i, catalogue, rerouted))
  }

  predicate Tells(e: Event, schemas: seq<Text>) {
    e.Asked? ==> e.tools <= schemas
  }

  /** The model was told only of schemas shown. */
  predicate Told(log: seq<Event>, schemas: seq<Text>) {
    forall i {:trigger Tells(log[i], schemas)} | 0 <= i < |log| :: Tells(log[i], schemas)
  }

  lemma {:induction false} ToldGrows(log: seq<Event>, e: Event, schemas: seq<Text>)
    requires Told(log, schemas) && Tells(e, schemas)
    ensures Told(log + [e], schemas)
  {
    forall i | 0 <= i < |log + [e]| ensures Tells((log + [e])[i], schemas) {
      if i < |log| {
        assert Tells(log[i], schemas);
      }
    }
  }

  lemma {:induction false} ToldStays(log: seq<Event>, schemas: seq<Text>, more: seq<Text>)
    requires Told(log, schemas)
    ensures Told(log, schemas + more)
  {
    forall i | 0 <= i < |log| ensures Tells(log[i], schemas + more) {
      assert Tells(log[i], schemas);
    }
  }

  lemma {:induction false} ShowMore(offered: seq<Text>, schemas: seq<Text>, visible: set<Text>,
                                    catalogue: set<Text>, rerouted: set<Text>,
                 name: Text, more: set<Text>)
    requires ShownAs(offered, schemas, visible, catalogue, rerouted) && name !in visible
    requires rerouted <= more <= rerouted + {name} && (name in catalogue || name in more)
    ensures ShownAs(offered, schemas + [name], visible + {name}, catalogue, more)
  {
    var grown := schemas + [name];
    forall i | |offered| <= i < |grown| ensures Joined(grown, i, catalogue, more) {
      if i < |schemas| {
        assert Joined(schemas, i, catalogue, rerouted);
        assert grown[..i] == schemas[..i];
      } else {
        assert grown[..i] == schemas;
      }
    }
  }

  /** A drain moves what was still to come into the conversation. */
  lemma {:induction false} DrainFlows(entered: seq<nat>, rows: seq<Row>, scope: Scope, start: nat, cursor: nat)
    requires Flows(entered, true, rows, scope, start, cursor)
    ensures var news := NewsTo(rows, scope, cursor, |rows|);
            AllUsers(news)
                && Flows(entered + RowsIn(news), true, rows, scope, start, AdvancedTo(rows, scope, cursor, |rows|))
  {
    var next := AdvancedTo(rows, scope, cursor, |rows|);
    NewsAreUsers(rows, scope, cursor, |rows|);
    NothingAfterAdvanced(rows, scope, cursor, |rows|);
    IdsSplit(rows, scope, start, cursor, |rows|);
    IdsSplit(rows, scope, start, next, |rows|);
  }

  /** Every tool of the catalogue that was tried is visible. */
  predicate Paged(log: seq<Event>, catalogue: set<Text>, visible: set<Text>) {
    forall i {:trigger Tries(log[i])} | 0 <= i < |log| ::
      Tries(log[i]) && log[i].call.tool in catalogue ==> log[i].call.tool in visible
  }

  lemma {:induction false} PagedGrows(log: seq<Event>, e: Event, catalogue: set<Text>, visible: set<Text>)
    requires Paged(log, catalogue, visible) && (Tries(e) && e.call.tool in catalogue ==> e.call.tool in visible)
    ensures Paged(log + [e], catalogue, visible)
  {
    var grown := log + [e];
    forall i | 0 <= i < |grown| && Tries(grown[i]) && grown[i].call.tool in catalogue
      ensures grown[i].call.tool in visible
    {
      assert i < |log| ==> Tries(log[i]);
    }
  }

  lemma {:induction false} PagedStays(log: seq<Event>, catalogue: set<Text>, visible: set<Text>, name: Text)
    requires Paged(log, catalogue, visible)
    ensures Paged(log, catalogue, visible + {name})
  {
    forall i | 0 <= i < |log| && Tries(log[i]) && log[i].call.tool in catalogue
      ensures log[i].call.tool in visible + {name}
    {
      assert Tries(log[i]);
    }
  }

  /** The schemas shown are what the model must be told of. */
  lemma {:induction false} ShownEquips(log: seq<Event>, offered: seq<Text>, schemas: seq<Text>, visible: set<Text>,
                                       catalogue: set<Text>, rerouted: set<Text>, r: Rules)
    requires ShownAs(offered, schemas, visible, catalogue, rerouted) && Paged(log, catalogue, visible)
    requires r.offered == offered && r.catalogue == catalogue
    ensures Equips(r, log, schemas)
  {
    forall i | 0 <= i < |log| && Tries(log[i]) && log[i].call.tool in r.catalogue
      ensures log[i].call.tool in schemas
    {
      assert Tries(log[i]);
      assert log[i].call.tool in visible;
    }
  }

  predicate Fails(e: Event) {
    e.Refused? || (e.Ran? && e.verdict.Fatal?)
  }

  function Before(counts: map<Text, nat>, tool: Text): nat {
    if tool in counts then counts[tool] else 0
  }

  function NewCounts(counts: map<Text, nat>, e: Event): map<Text, nat>
    requires Tries(e)
  {
    if Fails(e) then counts[e.call.tool := Before(counts, e.call.tool) + 1]
    else if e.verdict.Success? then counts[e.call.tool := 0]
    else counts
  }

  function NewTripped(counts: map<Text, nat>, tripped: set<Text>, e: Event, threshold: int): set<Text>
    requires Tries(e)
  {
    if Fails(e) && Before(counts, e.call.tool) + 1 >= threshold then tripped + {e.call.tool} else tripped
  }

  /** A try is counted: the breaker stays the history. */
  lemma {:induction false} TriedEvent(log: seq<Event>, e: Event, counts: map<Text, nat>, tripped: set<Text>,
                                      threshold: int)
    requires Refines(log, counts, tripped, Limit(threshold))
    requires Tries(e) && e.call.tool !in tripped
    ensures Refines(log + [e], NewCounts(counts, e), NewTripped(counts, tripped, e, threshold), Limit(threshold))
  {
    var grown := log + [e];
    assert grown[..|grown| - 1] == log;
    assert forall tool {:trigger Streak(log, tool)} | tool != e.call.tool :: Streak(grown, tool) == Streak(log, tool);
    assert Streak(log, e.call.tool) == Before(counts, e.call.tool);
    forall tool: Text
      ensures Streak(grown, tool) == Before(NewCounts(counts, e), tool)
      ensures tool in NewTripped(counts, tripped, e, threshold) <==> Streak(grown, tool) >= Limit(threshold)
    {
      assert Streak(log, tool) == Before(counts, tool);
    }
  }

  lemma {:induction false} AnswersGrow(results: seq<Message>, calls: seq<Call>, k: nat, result: Message)
    requires k < |calls| && Answers(results, calls[..k]) && result.ToolResult? && result.id == calls[k].id
    ensures Answers(results + [result], calls[..k + 1])
  {
  }

  lemma {:induction false} BatchJoins(base: seq<Message>, reply: Reply, results: seq<Message>)
    requires Answers(results, reply.calls)
    ensures Paired(base) ==> Paired(base + [Assistant(reply.text, reply.calls)] + results)
  {
    var block := [Assistant(reply.text, reply.calls)] + results;
    BatchIsPaired(reply.text, reply.calls, results);
    assert base + [Assistant(reply.text, reply.calls)] + results == base + block;
    if Paired(base) {
      PairedConcat(base, block);
    }
  }

  lemma {:induction false} InstructionIsPaired(s: seq<Message>, m: Message)
    requires m.User?
    ensures Paired(s) ==> Paired(s + [m])
  {
    UsersArePaired([m]);
    if Paired(s) {
      PairedConcat(s, [m]);
    }
  }

  /** A message of the turn joins the conversation and its trace. */
  lemma {:induction false} SaidJoins(trace0: seq<Message>, first: seq<Message>, tail: seq<Message>, m: Message)
    requires Own(m)
    ensures trace0 + OwnOf(tail) + [m] == trace0 + OwnOf(tail + [m])
    ensures RowsIn(tail + [m]) == RowsIn(tail)
    ensures first + tail + [m] == first + (tail + [m])
  {
    assert (tail + [m])[..|tail + [m]| - 1] == tail;
  }

  lemma {:induction false} MoreJoins(first: seq<Message>, tail: seq<Message>, more: seq<Message>)
    requires OwnOf(more) == []
    ensures OwnOf(tail + more) == OwnOf(tail)
    ensures RowsIn(tail + more) == RowsIn(tail) + RowsIn(more)
    ensures first + tail + more == first + (tail + more)
  {
    OwnOfConcat(tail, more);
    RowsInConcat(tail, more);
  }

  /** A draft and the messages that overtook it keep the pairing and add no trace. */
  lemma {:induction false} DraftJoins(s: seq<Message>, draft: Text, drained: seq<Message>)
    requires AllUsers(drained)
    ensures var more := (if Blank(draft) then [] else [Assistant(draft, [])]) + drained;
            OwnOf(more) == [] && RowsIn(more) == RowsIn(drained) && (Paired(s) ==> Paired(s + more))
  {
    var prefix := if Blank(draft) then [] else [Assistant(draft, [])];
    UsersOwnNothing(drained);
    UsersArePaired(drained);
    SingleMessage(Assistant(draft, []));
    OwnOfConcat(prefix, drained);
    RowsInConcat(prefix, drained);
    BatchIsPaired(draft, [], []);
    assert [Assistant(draft, [])] + [] == [Assistant(draft, [])];
    PairedConcat(prefix, drained);
    if Paired(s) {
      PairedConcat(s, prefix + drained);
    }
  }

  lemma {:induction false} SingleMessage(m: Message)
    ensures OwnOf([m]) == if Own(m) then [m] else []
    ensures RowsIn([m]) == if m.User? && m.row > 0 then [m.row] else []
  {
    assert [m][..0] == [];
  }
}
