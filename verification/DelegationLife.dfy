/**
 The life of ONE background delegation, as a state machine over atomic segments.

 Every piece of state the queue keeps is keyed by the task id, so the whole queue is the product
 of these lives (module DelegationQueue makes that explicit with a class). A segment is the code
 between two awaits; a step that cannot happen in a state yields None.

 A write travels through a FIFO: `writes` holds what was issued and not yet applied, `settled`
 counts what was. A coroutine that awaits its write holds a ticket, the value `settled` must reach.
 */
module DelegationLife {
  import opened Wrappers

  type Text = string

  datatype Status =
    | Queued | Running | AwaitingInput | Delivering | DeliveryFailed
    | Delivered | Cancelled | Dismissed | Interrupted

  /** States from which the task no longer lives in the process dict. */
  predicate Terminal(s: Status) {
    s.Delivered? || s.Cancelled? || s.Dismissed?
  }

  /** The mutable part of a task; the durable row has the same columns, except the question. */
  datatype Task = Task(
    status: Status,
    result: Option<Text>,
    error: Option<Text>,
    notified: bool,
    finishedAt: Option<nat>,
    used: nat,
    incomplete: bool,
    question: Option<Text>)

  const FRESH_TASK := Task(Queued, None, None, true, None, 0, false, None)

  /** One store update: the columns that each transition names. */
  datatype Write =
    | WRunning
    | WAwaiting(result: Text, stamp: nat, used: nat)
    | WQueued
    | WDelivering(result: Text, at: nat, used: nat)
    | WDelivered
    | WFailed(error: Text)
    | WCancelled(at: nat)
    | WDismissed
    | WNotified
    | WError(error: Text)
    | WIncomplete
    | WNoticed        // the startup notice's mark_notified: a failure only logs
    | WColdDismissed  // cancel of a pause that only the store knows: a failure only logs

  function Apply(w: Write, t: Task): Task {
    match w
    case WRunning => t.(status := Running)
    case WAwaiting(result, stamp, used) =>
      t.(status := AwaitingInput, result := Some(result), finishedAt := Some(stamp), used := used,
         error := None, notified := false)
    case WQueued =>
      t.(status := Queued, result := None, error := None, finishedAt := None, notified := true)
    case WDelivering(result, at, used) =>
      t.(status := Delivering, result := Some(result), finishedAt := Some(at), used := used)
    case WDelivered => t.(status := Delivered)
    case WFailed(error) => t.(status := DeliveryFailed, error := Some(error))
    case WCancelled(at) => t.(status := Cancelled, finishedAt := Some(at))
    case WDismissed => t.(status := Dismissed, notified := true)
    case WColdDismissed => t.(status := Dismissed, notified := true)
    case WNotified => t.(notified := true)
    case WNoticed => t.(notified := true)
    case WError(error) => t.(error := Some(error))
    case WIncomplete => t.(incomplete := true)
  }

  /** A failed hard write puts the id among the unpersisted ones. */
  predicate Hard(w: Write) {
    !w.WNoticed? && !w.WColdDismissed?
  }

  /**
   Where the conversation of a child stands: nothing said in this phase, tool results due, a reply due, a
   final reply given, or the closing message of a child out of iterations.
   */
  datatype Talk = Unsaid | Called | Owed | Final | Concluded

  /** The child has returned or is about to raise: it says nothing more. */
  predicate Silent(talk: Talk) {
    talk.Final? || talk.Concluded?
  }

  /** Where a runner (the coroutine launched for one phase) is. Tickets are writes it awaits. */
  datatype Pc =
    | Waiting                                                // for the semaphore
    | Starting(ticket: nat)
    | Child(pre: nat, passes: nat, budget: nat, whole: bool, talk: Talk) // whole: every step reached the disk
    | Marking(ticket: nat, used: nat)
    | Pausing(stamp: nat, ticket: nat)
    | Asking(stamp: nat, attempt: nat)
    | Asked(ticket: nat)
    | Handing(ticket: nat)
    | Dispatching(attempt: nat)
    | Dispatched
    | Closing(ticket: nat)
    | Done

  /** Tries of one delivery to the parent. */
  const DISPATCH_ATTEMPTS := 3

  datatype Outcome =
    | Resumed | NotAwaiting | AlreadyResuming | TranscriptIncomplete | NoIterationsLeft
    | Refused | Unavailable | NotLive

  /** One call of resume, by the await it is in; `stamp` names the pause it saw. */
  datatype Call =
    | Reopening(stamp: nat, answer: Text)
    | Flagging(stamp: nat, ticket: nat)
    | Requeueing(stamp: nat, ticket: nat)
    | Returned(stamp: nat, outcome: Outcome)

  /** An answer on its way to the next phase; `pre` is what the reopened transcript holds. */
  datatype Answer = Answer(call: nat, text: Text, pre: nat)

  /** The consumer: no process, running, told to stop, gone, store closed. */
  datatype Mode = Down | Live | Stopping | Stopped | Closed

  /** The runners of the task: _handles and _en_entrega name those that still run. */
  datatype Crew = Crew(runners: seq<Pc>, handle: Option<nat>, lingering: set<nat>)

  /**
   The parent's calls. `reservation` is _reanudando with the call that holds it, `answer` is
   _reanudaciones; `taken` (answers a phase took) and `dismissed` (pauses a cancel dropped) are
   history of this process.
   */
  datatype Desk = Desk(reservation: Option<nat>, calls: seq<Call>, answer: Option<Answer>,
                       taken: seq<nat>, dismissed: set<nat>)

  /** How the stored transcript ends: empty, waiting for a reply, or with a final reply. */
  datatype Ending = Empty | Awaited | Replied

  /**
   The stored transcript: its assistant messages, whether the content of some message was stored cut (a
   cut in its tool calls alone leaves no mark), and its end.
   */
  datatype Script = Script(said: nat, cut: bool, ending: Ending)

  const NO_SCRIPT := Script(0, false, Empty)

  /** A resume accepts only a transcript without cut messages that ends in a final reply. */
  predicate Sound(script: Script) {
    !script.cut && script.ending.Replied?
  }

  /** `broken` is _sin_persistir. */
  datatype Disk = Disk(broken: bool, writes: seq<Write>, settled: nat, row: Option<Task>, script: Script)

  /**
   History that survives a crash and that no step reads: successful dispatches of a final result,
   requeues that did not reach the store, child loop passes and pauses.
   */
  datatype Tally = Tally(delivered: nat, lost: nat, passes: nat, pauses: nat)

  datatype Life = Life(
    mode: Mode,
    born: bool,
    max: nat,            // iteration budget of the row
    clock: nat,          // source of pause stamps
    creating: bool,      // the row exists, the task is not in the dict yet
    task: Option<Task>,
    live: bool,          // in _tasks
    entries: nat,        // in _queue
    noticing: bool,      // in a startup notice under way
    crew: Crew,
    desk: Desk,
    disk: Disk,
    tally: Tally)

  const NO_CREW := Crew([], None, {})
  const NO_DESK := Desk(None, [], None, [], {})
  const UNBORN := Life(Down, false, 0, 0, false, None, false, 0, false, NO_CREW, NO_DESK,
                       Disk(false, [], 0, None, NO_SCRIPT), Tally(0, 0, 0, 0))

  // ---------------------------------------------------------------------------
  // The shared mutators
  // ---------------------------------------------------------------------------

  /** Issues a write unless the task is among the unpersisted ones. */
  function Push(d: Disk, w: Write): Disk {
    d.(writes := if d.broken then d.writes else d.writes + [w])
  }

  /** The ticket of the write that Push issues (0, always ready, when it is skipped). */
  function NextTicket(d: Disk): nat {
    if d.broken then 0 else d.settled + |d.writes| + 1
  }

  function Move(crew: Crew, r: nat, pc: Pc): Crew
    requires r < |crew.runners|
  {
    crew.(runners := crew.runners[r := pc])
  }

  /** The only mutator of a live task: the dict first, then the store. The runners end as `crew`. */
  function Transition(l: Life, t: Task, w: Write, crew: Crew): Life {
    var t' := Apply(w, t);
    l.(task := Some(t'),
       live := l.live && !Terminal(t'.status),
       desk := l.desk.(answer := if Terminal(t'.status) then None else l.desk.answer),
       disk := Push(l.disk, w),
       crew := crew)
  }

  predicate Ready(l: Life, ticket: nat) {
    ticket <= l.disk.settled
  }

  function Go(l: Life, r: nat, pc: Pc): Life
    requires r < |l.crew.runners|
  {
    l.(crew := Move(l.crew, r, pc))
  }

  function Answered(desk: Desk, c: nat, stamp: nat, outcome: Outcome): Desk
    requires c < |desk.calls|
  {
    desk.(calls := desk.calls[c := Returned(stamp, outcome)], reservation := None)
  }

  function Return(l: Life, c: nat, stamp: nat, outcome: Outcome): Life
    requires c < |l.desk.calls|
  {
    l.(desk := Answered(l.desk, c, stamp, outcome))
  }

  /** The process runs runners: it is up and stop has not cut them. */
  predicate Up(l: Life) {
    l.mode.Live? || l.mode.Stopping?
  }

  /** Parents can call. */
  predicate Open(l: Life) {
    Up(l) || l.mode.Stopped?
  }

  predicate Is(l: Life, s: Status) {
    l.task.Some? && l.task.value.status == s
  }

  predicate IsLive(l: Life, s: Status) {
    l.live && Is(l, s)
  }

  /** Is the task still in the pause stamped `stamp`? */
  predicate InPause(l: Life, stamp: nat) {
    Is(l, AwaitingInput) && l.task.value.finishedAt == Some(stamp)
  }

  // ---------------------------------------------------------------------------
  // Enqueue and the consumer
  // ---------------------------------------------------------------------------

  datatype EnqueueStep = CreateRow(max: nat) | CreateInMemory(max: nat) | Register

  /** The row first; the dict and the queue after its await. Without a store, memory only. */
  function DoEnqueue(l: Life, s: EnqueueStep): Option<Life> {
    match s
    case CreateRow(max) =>
      if l.born || !Up(l) then None
      else Some(l.(born := true, max := max, creating := true, disk := l.disk.(row := Some(FRESH_TASK))))
    case CreateInMemory(max) =>
      if l.born || !Open(l) then None
      else Some(l.(born := true, max := max, task := Some(FRESH_TASK), live := true, entries := 1,
                   disk := l.disk.(broken := true)))
    case Register =>
      if !l.creating || !Open(l) then None
      else Some(l.(creating := false, task := Some(FRESH_TASK), live := true, entries := l.entries + 1))
  }

  function DoConsume(l: Life): Option<Life> {
    if !l.mode.Live? || l.entries == 0 then None
    else if !l.live then Some(l.(entries := l.entries - 1))
    else Some(l.(entries := l.entries - 1,
                 crew := l.crew.(runners := l.crew.runners + [Waiting], handle := Some(|l.crew.runners|))))
  }

  // ---------------------------------------------------------------------------
  // A runner, by where it is
  // ---------------------------------------------------------------------------

  datatype RunStep =
    | Proceed
    | Note(saved: bool, cut: bool, rest: bool) | Pass(saved: bool, cut: bool, final: bool)
    | Close(saved: bool, cut: bool)
    | Mark(exhausted: bool)
    | Finish(text: Text, now: nat, exhausted: bool) | Rescue(text: Text, now: nat)
    | Pause(text: Text, question: Text)
    | Degrade(text: Text, now: nat)
    | Succeed | Fail(last: bool, error: Text) | Raise(error: Text)

  /** `running` to `delivering`: the result is persisted by the same transition, before the dispatch. */
  function Deliver(l: Life, r: nat, text: Text, now: nat, used: nat): Life
    requires r < |l.crew.runners| && l.task.Some?
  {
    Transition(l, l.task.value, WDelivering(text, now, used), Move(l.crew, r, Handing(NextTicket(l.disk))))
  }

  function CloseWith(l: Life, r: nat, w: Write): Life
    requires r < |l.crew.runners| && l.task.Some?
  {
    Transition(l, l.task.value, w, Move(l.crew, r, Closing(NextTicket(l.disk))))
  }

  function AtWaiting(l: Life, r: nat): Life
    requires r < |l.crew.runners| && l.task.Some?
  {
    if !l.live then Go(l, r, Done)
    else Transition(l, l.task.value, WRunning, Move(l.crew, r, Starting(NextTicket(l.disk))))
  }

  /** The phase takes the answer that waits for it, if any. */
  function AtStarting(l: Life, r: nat, ticket: nat): Option<Life>
    requires r < |l.crew.runners| && l.task.Some?
  {
    if !Ready(l, ticket) then None
    else match l.desk.answer
      case None => Some(Go(l, r, Child(0, 0, l.max, !l.disk.broken, Unsaid)))
      case Some(a) =>
        var budget := if l.task.value.used <= l.max then l.max - l.task.value.used else 0;
        Some(l.(crew := Move(l.crew, r, Child(a.pre, 0, budget, true, Unsaid)),
                desk := l.desk.(answer := None, taken := l.desk.taken + [a.call])))
  }

  /** A message that is no reply is stored: the answer of the parent, or a tool result. */
  function Noted(script: Script, cut: bool): Script {
    script.(cut := script.cut || cut, ending := Awaited)
  }

  /** A reply is stored: final, or with calls that wait for their results. */
  function Said(script: Script, cut: bool, final: bool): Script {
    Script(script.said + 1, script.cut || cut, if final then Replied else Awaited)
  }

  /** What a phase that ends has used: all of it, if it ran out of iterations. */
  function Used(l: Life, pc: Pc, exhausted: bool): nat
    requires pc.Child?
  {
    if exhausted then l.max else pc.pre + pc.passes
  }

  /** A child out of iterations may have left a closing message; nothing else ends after one. */
  predicate Ends(pc: Pc, exhausted: bool)
    requires pc.Child?
  {
    if exhausted then pc.passes >= pc.budget && (pc.talk.Owed? || pc.talk.Concluded?) else !pc.talk.Concluded?
  }

  /** The child said or was told something, in `more` passes: it is stored as long as everything was. */
  function Voiced(l: Life, r: nat, pc: Pc, more: nat, saved: bool, talk: Talk, script: Script): Life
    requires r < |l.crew.runners| && pc.Child?
  {
    var whole := pc.whole && saved;
    l.(crew := Move(l.crew, r, Child(pc.pre, pc.passes + more, pc.budget, whole, talk)),
       disk := l.disk.(script := if whole then script else l.disk.script),
       tally := l.tally.(passes := l.tally.passes + more))
  }

  function AtChild(l: Life, r: nat, pc: Pc, s: RunStep): Option<Life>
    requires r < |l.crew.runners| && l.task.Some? && pc.Child?
  {
    match s
    case Note(saved, cut, rest) =>
      if pc.talk.Owed? || Silent(pc.talk) || (rest && !pc.talk.Called?) then None
      else Some(Voiced(l, r, pc, 0, saved, if rest then Called else Owed, Noted(l.disk.script, cut)))
    case Pass(saved, cut, final) =>
      if pc.passes >= pc.budget || !pc.talk.Owed? then None
      else Some(Voiced(l, r, pc, 1, saved, if final then Final else Called, Said(l.disk.script, cut, final)))
    case Close(saved, cut) =>
      if pc.passes < pc.budget || !pc.talk.Owed? then None
      else Some(Voiced(l, r, pc, 0, saved, Concluded, Said(l.disk.script, cut, true)))
    case Mark(exhausted) =>
      if (pc.whole && l.disk.broken) || !Ends(pc, exhausted) then None
      else Some(l.(task := Some(l.task.value.(incomplete := true)),
                   disk := Push(l.disk, WIncomplete),
                   crew := Move(l.crew, r, Marking(NextTicket(l.disk), Used(l, pc, exhausted)))))
    case Finish(text, now, exhausted) =>
      if (pc.whole || l.disk.broken) && Ends(pc, exhausted)
      then Some(Deliver(l, r, text, now, Used(l, pc, exhausted))) else None
    case Rescue(text, now) => Some(Deliver(l, r, text, now, l.task.value.used))
    case Pause(text, question) => DoPause(l, r, pc, text, question)
    case _ => None
  }

  /**
   The child asked: pause if the transcript is whole, the store works and budget is left. The snapshot
   stores again, in full, what was stored cut.
   */
  function DoPause(l: Life, r: nat, pc: Pc, text: Text, question: Text): Option<Life>
    requires r < |l.crew.runners| && l.task.Some? && pc.Child?
  {
    var used := pc.pre + pc.passes;
    if l.disk.broken || !pc.whole || !pc.talk.Final? || l.max <= used || l.disk.script.said != used
       || !l.disk.script.ending.Replied? then None
    else
      Some(Transition(l.(clock := l.clock + 1, tally := l.tally.(pauses := l.tally.pauses + 1),
                         disk := l.disk.(script := l.disk.script.(cut := false))),
                      l.task.value.(question := Some(question)),
                      WAwaiting(text, l.clock, used),
                      Move(l.crew, r, Pausing(l.clock, NextTicket(l.disk)))))
  }

  function AtMarking(l: Life, r: nat, pc: Pc, s: RunStep): Option<Life>
    requires r < |l.crew.runners| && l.task.Some? && pc.Marking?
  {
    if !Ready(l, pc.ticket) then None
    else match s
      case Finish(text, now, _) => Some(Deliver(l, r, text, now, pc.used))
      case Rescue(text, now) => Some(Deliver(l, r, text, now, l.task.value.used))
      case _ => None
  }

  /** A pause that could not be written, if still current, is delivered as a final result. */
  function AtPausing(l: Life, r: nat, pc: Pc, s: RunStep): Option<Life>
    requires r < |l.crew.runners| && l.task.Some? && pc.Pausing?
  {
    var lostPause := l.disk.broken && InPause(l, pc.stamp);
    if !Ready(l, pc.ticket) then None
    else match s
      case Degrade(text, now) =>
        if !lostPause then None
        else Some(Transition(l, l.task.value.(question := None), WDelivering(text, now, l.task.value.used),
                             Move(l.crew, r, Handing(NextTicket(l.disk)))))
      case Proceed => if lostPause then None else Some(Go(l, r, Asking(pc.stamp, 1)))
      case _ => None
  }

  /** A note about the pause, in the dict and in the store. */
  function Annotated(l: Life, r: nat, t: Task, w: Write): Life
    requires r < |l.crew.runners|
  {
    l.(task := Some(t), disk := Push(l.disk, w), crew := Move(l.crew, r, Asked(NextTicket(l.disk))))
  }

  /** The question is being dispatched: whatever comes back only touches the pause it was asked in. */
  function AtAsking(l: Life, r: nat, pc: Pc, s: RunStep): Option<Life>
    requires r < |l.crew.runners| && l.task.Some? && pc.Asking?
  {
    match s
    case Succeed =>
      if !InPause(l, pc.stamp) then Some(Go(l, r, Asked(0)))
      else Some(Annotated(l, r, l.task.value.(notified := true), WNotified))
    case Fail(last, error) =>
      if pc.attempt < DISPATCH_ATTEMPTS && !last then Some(Go(l, r, Asking(pc.stamp, pc.attempt + 1)))
      else if !InPause(l, pc.stamp) then Some(Go(l, r, Asked(0)))
      else Some(Annotated(l, r, l.task.value.(error := Some(error)), WError(error)))
    case Raise(_) => Some(Go(l, r, Done))
    case _ => None
  }

  function AtDispatching(l: Life, r: nat, pc: Pc, s: RunStep): Option<Life>
    requires r < |l.crew.runners| && l.task.Some? && pc.Dispatching?
  {
    match s
    case Succeed => Some(l.(crew := Move(l.crew, r, Dispatched), tally := l.tally.(delivered := l.tally.delivered + 1)))
    case Fail(last, error) =>
      if pc.attempt < DISPATCH_ATTEMPTS && !last then Some(Go(l, r, Dispatching(pc.attempt + 1)))
      else Some(CloseWith(l, r, WFailed(error)))
    case _ => None
  }

  /** The parent has the result: close, or survive an exception of what follows without retrying. */
  function AtDispatched(l: Life, r: nat, s: RunStep): Option<Life>
    requires r < |l.crew.runners| && l.task.Some?
  {
    match s
    case Proceed => Some(CloseWith(l, r, WDelivered))
    case Raise(error) => Some(CloseWith(l, r, WFailed(error)))
    case _ => None
  }

  /** The done callback forgets only the runner that ended. */
  function AtDone(l: Life, r: nat): Life {
    l.(crew := l.crew.(handle := if l.crew.handle == Some(r) then None else l.crew.handle,
                       lingering := l.crew.lingering - {r}))
  }

  function DoRun(l: Life, r: nat, s: RunStep): Option<Life> {
    if !Up(l) || r >= |l.crew.runners| || l.task.None? then None
    else
      var pc := l.crew.runners[r];
      match pc
      case Waiting => if s.Proceed? then Some(AtWaiting(l, r)) else None
      case Starting(t) => if s.Proceed? then AtStarting(l, r, t) else None
      case Child(_, _, _, _, _) => AtChild(l, r, pc, s)
      case Marking(_, _) => AtMarking(l, r, pc, s)
      case Pausing(_, _) => AtPausing(l, r, pc, s)
      case Asking(_, _) => AtAsking(l, r, pc, s)
      case Asked(t) => if s.Proceed? && Ready(l, t) then Some(Go(l, r, Done)) else None
      case Handing(t) => if s.Proceed? && Ready(l, t) then Some(Go(l, r, Dispatching(1))) else None
      case Dispatching(_) => AtDispatching(l, r, pc, s)
      case Dispatched => AtDispatched(l, r, s)
      case Closing(t) => if s.Proceed? && Ready(l, t) then Some(Go(l, r, Done)) else None
      case Done => if s.Proceed? then Some(AtDone(l, r)) else None
  }

  // ---------------------------------------------------------------------------
  // The parent
  // ---------------------------------------------------------------------------

  /** Cuts the held runner. */
  function Cut(crew: Crew): Crew {
    var h := crew.handle;
    crew.(handle := None,
          runners := if h.Some? && h.value < |crew.runners| then crew.runners[h.value := Done] else crew.runners)
  }

  /** Nothing runs: the task waits for its parent, so a cancel dismisses it. */
  predicate Resting(s: Status) {
    s.AwaitingInput? || s.DeliveryFailed? || s.Interrupted?
  }

  /** The history of dismissed pauses, with the one the task is in. */
  function Dismissing(l: Life): Life {
    if Is(l, AwaitingInput) && l.task.value.finishedAt.Some?
    then l.(desk := l.desk.(dismissed := l.desk.dismissed + {l.task.value.finishedAt.value}))
    else l
  }

  function DoCancel(l: Life, now: nat): Option<Life> {
    if !Open(l) || !l.live || l.task.None? then None
    else if l.task.value.status.Delivering? then Some(l)
    else if Resting(l.task.value.status) then Some(Transition(Dismissing(l), l.task.value, WDismissed, l.crew))
    else Some(Transition(l, l.task.value, WCancelled(now), Cut(l.crew)))
  }

  /** A cancel of a pause that this process did not load. */
  function DoColdDismiss(l: Life): Option<Life> {
    if !Open(l) || l.task.Some? || l.creating || l.disk.broken || l.disk.writes != []
       || l.disk.row.None? || !l.disk.row.value.status.AwaitingInput? then None
    else Some(l.(disk := l.disk.(writes := [WColdDismissed])))
  }

  function NewCall(l: Life, c: Call): Life {
    l.(desk := l.desk.(calls := l.desk.calls + [c]))
  }

  /** The synchronous preconditions of a resume, in order: what it returns when one fails. */
  function RejectsResume(l: Life, refused: bool): Option<Call> {
    if !l.live || l.task.None? then Some(Returned(0, NotLive))
    else
      var t := l.task.value;
      var stamp := if t.finishedAt.Some? then t.finishedAt.value else 0;
      if !t.status.AwaitingInput? then Some(Returned(0, NotAwaiting))
      else if l.desk.reservation.Some? then Some(Returned(stamp, AlreadyResuming))
      else if t.incomplete || l.disk.broken then Some(Returned(stamp, TranscriptIncomplete))
      else if l.max <= t.used then Some(Returned(stamp, NoIterationsLeft))
      else if refused then Some(Returned(stamp, Refused))
      else if l.mode.Stopped? then Some(Returned(stamp, Unavailable))
      else None
  }

  /** Decision and reservation are one segment. */
  function DoResume(l: Life, text: Text, refused: bool): Option<Life> {
    if !Open(l) then None
    else match RejectsResume(l, refused)
      case Some(call) => Some(NewCall(l, call))
      case None =>
        var stamp := if l.task.Some? && l.task.value.finishedAt.Some? then l.task.value.finishedAt.value else 0;
        Some(l.(desk := l.desk.(calls := l.desk.calls + [Reopening(stamp, text)], reservation := Some(|l.desk.calls|))))
  }

  datatype CallStep = Reopened | FoundInconsistent | StoreFailed | Written

  /** The transcript was read: everything that could have changed is checked again. */
  function AtReopening(l: Life, c: nat, call: Call, s: CallStep): Option<Life>
    requires c < |l.desk.calls| && call.Reopening?
  {
    if s.Written? || (s.Reopened? && !Sound(l.disk.script)) || (s.FoundInconsistent? && Sound(l.disk.script)) then None
    else if s.StoreFailed? then Some(Return(l, c, call.stamp, Unavailable))
    else if !IsLive(l, AwaitingInput) then Some(Return(l, c, call.stamp, NotAwaiting))
    else if s.FoundInconsistent? then
      Some(l.(task := Some(l.task.value.(incomplete := true)),
              disk := Push(l.disk, WIncomplete),
              desk := l.desk.(calls := l.desk.calls[c := Flagging(call.stamp, NextTicket(l.disk))])))
    else if l.mode.Stopped? then Some(Return(l, c, call.stamp, Unavailable))
    else Some(Requeue(l, c, call.stamp, call.answer))
  }

  /** `awaiting_input` to `queued`, with the answer ready for the next phase. */
  function Requeue(l: Life, c: nat, stamp: nat, text: Text): Life
    requires c < |l.desk.calls| && l.task.Some?
  {
    var crew := l.crew.(handle := None,
                        lingering := if l.crew.handle.Some? then l.crew.lingering + {l.crew.handle.value}
                                     else l.crew.lingering);
    Transition(l.(desk := l.desk.(answer := Some(Answer(c, text, l.disk.script.said)),
                                  calls := l.desk.calls[c := Requeueing(stamp, NextTicket(l.disk))]),
                  tally := l.tally.(lost := if l.disk.broken then l.tally.lost + 1 else l.tally.lost)),
               l.task.value.(question := None), WQueued, crew)
  }

  /** The requeue is written: a cancel or a stop may have slipped in. */
  function AtRequeueing(l: Life, c: nat, call: Call): Option<Life>
    requires c < |l.desk.calls| && call.Requeueing?
  {
    if !Ready(l, call.ticket) then None
    else if !IsLive(l, Queued) then Some(Return(l, c, call.stamp, NotAwaiting))
    else Some(l.(desk := Answered(l.desk, c, call.stamp, Resumed), entries := l.entries + 1))
  }

  function DoCall(l: Life, c: nat, s: CallStep): Option<Life> {
    if !Open(l) || c >= |l.desk.calls| then None
    else
      var call := l.desk.calls[c];
      match call
      case Reopening(_, _) => AtReopening(l, c, call, s)
      case Flagging(stamp, t) =>
        if s.Written? && Ready(l, t) then Some(Return(l, c, stamp, TranscriptIncomplete)) else None
      case Requeueing(_, _) => if s.Written? then AtRequeueing(l, c, call) else None
      case Returned(_, _) => None
  }

  // ---------------------------------------------------------------------------
  // The store
  // ---------------------------------------------------------------------------

  /** The ticket a runner or a call awaits, if any. */
  function Awaits(pc: Pc): Option<nat> {
    match pc
    case Starting(t) => Some(t)
    case Marking(t, _) => Some(t)
    case Pausing(_, t) => Some(t)
    case Asked(t) => Some(t)
    case Handing(t) => Some(t)
    case Closing(t) => Some(t)
    case _ => None
  }

  function CallAwaits(c: Call): Option<nat> {
    match c
    case Flagging(_, t) => Some(t)
    case Requeueing(_, t) => Some(t)
    case _ => None
  }

  /** Acknowledgements reach the event loop in order: who is ready runs before the next one. */
  predicate NobodyReady(l: Life) {
    && (forall r | 0 <= r < |l.crew.runners| ::
          Awaits(l.crew.runners[r]).Some? ==> !Ready(l, Awaits(l.crew.runners[r]).value))
    && (forall c | 0 <= c < |l.desk.calls| ::
          CallAwaits(l.desk.calls[c]).Some? ==> !Ready(l, CallAwaits(l.desk.calls[c]).value))
  }

  /** The oldest write is applied, or fails. */
  function DoSettle(l: Life, ok: bool): Option<Life> {
    if !Open(l) || l.disk.writes == [] || !NobodyReady(l) then None
    else
      var w := l.disk.writes[0];
      var d := l.disk.(writes := l.disk.writes[1..], settled := l.disk.settled + 1);
      if ok then Some(l.(disk := d.(row := if d.row.Some? then Some(Apply(w, d.row.value)) else None)))
      else Some(l.(disk := d.(broken := d.broken || Hard(w)),
                   tally := l.tally.(lost := if w.WQueued? then l.tally.lost + 1 else l.tally.lost)))
  }

  // ---------------------------------------------------------------------------
  // The startup notice, stop, crash and start
  // ---------------------------------------------------------------------------

  datatype ProcessStep =
    | NoticeBegin | NoticeOk | NoticeFail
    | StopBegin | StopMark | StopSweep(ok: bool, now: nat, used: nat)
    | Crash | Restart(swept: bool, pruned: bool, reread: bool, now: nat, used: nat, recovered: Option<Text>)

  const CUT_DELIVERY: Text := "delivery interrupted by a daemon stop; it may or may not have reached you"

  /** What a stop or a start writes over a row that a cut left half way. */
  function Sweep(t: Task, now: nat, used: nat): Task {
    match t.status
    case Delivering => t.(status := DeliveryFailed, error := Some(CUT_DELIVERY), notified := false)
    case Queued => t.(status := Interrupted, used := used, finishedAt := Some(now), notified := false)
    case Running => t.(status := Interrupted, used := used, finishedAt := Some(now), notified := false)
    case _ => t
  }

  /** What retention may delete. */
  predicate Prunable(t: Task) {
    Terminal(t.status) || t.status.Interrupted? || t.status.AwaitingInput?
  }

  /** What is still a pending matter of the parent, and is loaded at startup. */
  predicate Pending(t: Task) {
    t.status.DeliveryFailed? || t.status.AwaitingInput? || (t.status.Interrupted? && !t.notified)
  }

  /** Only the disk and the history survive the process. */
  function Remains(l: Life): Life {
    UNBORN.(born := l.born, max := l.max, clock := l.clock,
            disk := Disk(false, [], 0, l.disk.row, l.disk.script), tally := l.tally)
  }

  function DoProcess(l: Life, s: ProcessStep): Option<Life> {
    match s
    case NoticeBegin =>
      if !l.mode.Live? || !l.live || l.task.None? || l.task.value.notified || !Pending(l.task.value) then None
      else Some(l.(noticing := true))
    case NoticeOk =>
      if !l.mode.Live? || !l.noticing || l.task.None? then None
      else
        Some(l.(noticing := false, task := Some(l.task.value.(notified := true)),
                live := l.live && !l.task.value.status.Interrupted?,
                disk := l.disk.(writes := if l.disk.row.Some? then l.disk.writes + [WNoticed] else l.disk.writes)))
    case NoticeFail =>
      if !l.noticing then None else Some(l.(noticing := false))
    case StopBegin =>
      if !l.mode.Live? then None else Some(l.(mode := Stopping, noticing := false))
    case StopMark =>
      if !l.mode.Stopping? then None
      else Some(l.(mode := Stopped,
                   desk := l.desk.(answer := None),
                   crew := Crew(seq(|l.crew.runners|, _ => Done), None, {}),
                   task := if IsLive(l, Queued) || IsLive(l, Running)
                           then Some(l.task.value.(status := Interrupted)) else l.task))
    case StopSweep(ok, now, used) =>
      if !l.mode.Stopped? || l.disk.writes != [] || l.creating then None
      else Some(l.(mode := Closed,
                   disk := l.disk.(row := if ok && !l.disk.broken && l.disk.row.Some?
                                          then Some(Sweep(l.disk.row.value, now, used)) else l.disk.row)))
    case Crash => Some(Remains(l))
    case Restart(swept, pruned, reread, now, used, recovered) =>
      if !l.mode.Down? then None else Some(DoRestart(l, swept, pruned, reread, now, used, recovered))
  }

  /** Sweep, prune, rehydrate: each may fail on its own. */
  function DoRestart(l: Life, swept: bool, pruned: bool, reread: bool, now: nat, used: nat,
                     recovered: Option<Text>): Life
  {
    var row1 := if swept && l.disk.row.Some? then Some(Sweep(l.disk.row.value, now, used)) else l.disk.row;
    var row2 := if pruned && row1.Some? && Prunable(row1.value) then None else row1;
    var loads := reread && row2.Some? && Pending(row2.value);
    l.(mode := Live, disk := l.disk.(row := row2),
       live := loads,
       task := if !loads then None
               else if row2.value.status.AwaitingInput? then Some(row2.value.(question := recovered)) else row2)
  }

  // ---------------------------------------------------------------------------
  // All of it
  // ---------------------------------------------------------------------------

  datatype Action =
    | Enqueues(enqueue: EnqueueStep)
    | Consumes
    | Runs(r: nat, run: RunStep)
    | Cancels(now: nat)
    | ColdDismisses
    | Resumes(text: Text, refused: bool)
    | Calls(c: nat, call: CallStep)
    | Settles(ok: bool)
    | Process(process: ProcessStep)

  function Do(l: Life, a: Action): Option<Life> {
    match a
    case Enqueues(s) => DoEnqueue(l, s)
    case Consumes => DoConsume(l)
    case Runs(r, s) => DoRun(l, r, s)
    case Cancels(now) => DoCancel(l, now)
    case ColdDismisses => DoColdDismiss(l)
    case Resumes(text, refused) => DoResume(l, text, refused)
    case Calls(c, s) => DoCall(l, c, s)
    case Settles(ok) => DoSettle(l, ok)
    case Process(s) => DoProcess(l, s)
  }

  /** A run from `l`: every action happens. */
  function Play(l: Life, run: seq<Action>): Option<Life>
    decreases |run|
  {
    if run == [] then Some(l)
    else match Do(l, run[0])
      case None => None
      case Some(l1) => Play(l1, run[1..])
  }
}
