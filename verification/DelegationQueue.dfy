/**
 The queue itself: one object whose dicts hold every delegation. Each method is one segment between
 two awaits, and moves the life of ONE task by one step of DelegationLife; start, stop and a crash
 move every life by the same step. So the invariant of a life is the invariant of the queue.
 */
module DelegationQueue {
  import opened Wrappers
  import opened DelegationLife
  import opened DelegationInvariant
  import opened DelegationProof

  type Id = string

  /** A write of some task, in the one queue of the store. */
  datatype Entry = Entry(id: Id, write: Write)

  function Find<K, V>(m: map<K, V>, k: K): Option<V> {
    if k in m then Some(m[k]) else None
  }

  function Get<K, V>(m: map<K, V>, k: K, default: V): V {
    if k in m then m[k] else default
  }

  /** How often a task stands in the queue. */
  function Count(q: seq<Id>, id: Id): nat {
    if q == [] then 0 else (if q[0] == id then 1 else 0) + Count(q[1..], id)
  }

  /** The writes of one task, in the order of the store. */
  function Of(log: seq<Entry>, id: Id): seq<Write> {
    if log == [] then [] else (if log[0].id == id then [log[0].write] else []) + Of(log[1..], id)
  }

  lemma {:induction false} CountPut(q: seq<Id>, x: Id, id: Id)
    ensures Count(q + [x], id) == Count(q, id) + if x == id then 1 else 0
  {
    if q != [] {
      assert (q + [x])[1..] == q[1..] + [x];
      CountPut(q[1..], x, id);
    }
  }

  lemma {:induction false} OfPut(log: seq<Entry>, e: Entry, id: Id)
    ensures Of(log + [e], id) == Of(log, id) + if e.id == id then [e.write] else []
  {
    var own := if e.id == id then [e.write] else [];
    if log == [] {
      assert (log + [e])[1..] == [];
      assert Of(log + [e], id) == own + [];
    } else {
      var first := if log[0].id == id then [log[0].write] else [];
      assert (log + [e])[1..] == log[1..] + [e];
      OfPut(log[1..], e, id);
      assert first + (Of(log[1..], id) + own) == (first + Of(log[1..], id)) + own;
    }
  }

  lemma {:induction false} CountSome(q: seq<Id>, id: Id)
    ensures id in q <==> Count(q, id) > 0
  {
    if q != [] {
      CountSome(q[1..], id);
    }
  }

  /** A task object: mutated in place, shared by the dict and by the coroutines of its phases. */
  class TaskRecord {
    var status: Status
    var result: Option<Text>
    var error: Option<Text>
    var notified: bool
    var finishedAt: Option<nat>
    var used: nat
    var incomplete: bool
    var question: Option<Text>

    constructor (t: Task)
      ensures Value() == t
    {
      status, result, error, notified := t.status, t.result, t.error, t.notified;
      finishedAt, used, incomplete, question := t.finishedAt, t.used, t.incomplete, t.question;
    }

    function Value(): Task
      reads this
    {
      Task(status, result, error, notified, finishedAt, used, incomplete, question)
    }

    /** Sets the columns that a transition names, and no other. */
    method Set(w: Write)
      modifies this
      ensures Value() == Apply(w, old(Value()))
    {
      match w
      case WRunning => status := Running;
      case WAwaiting(r, stamp, u) =>
        status, result, finishedAt, used, error, notified := AwaitingInput, Some(r), Some(stamp), u, None, false;
      case WQueued =>
        status, result, error, finishedAt, notified := Queued, None, None, None, true;
      case WDelivering(r, at, u) =>
        status, result, finishedAt, used := Delivering, Some(r), Some(at), u;
      case WDelivered => status := Delivered;
      case WFailed(e) => status, error := DeliveryFailed, Some(e);
      case WCancelled(at) => status, finishedAt := Cancelled, Some(at);
      case WDismissed => status, notified := Dismissed, true;
      case WColdDismissed => status, notified := Dismissed, true;
      case WNotified => notified := true;
      case WNoticed => notified := true;
      case WError(e) => error := Some(e);
      case WIncomplete => incomplete := true;
    }
  }

  /** What a cancel of a live task answers. */
  datatype Cancellation = Delivers | Dismisses(result: Option<Text>) | Cuts

  /** What concerns one task but no dict of the queue: its coroutines, its row, its history. */
  datatype Aside = Aside(
    born: bool, max: nat, clock: nat, creating: bool, noticing: bool,
    runners: seq<Pc>, calls: seq<Call>,
    settled: nat, row: Option<Task>, script: Script,
    taken: seq<nat>, dismissed: set<nat>, tally: Tally)

  const NOTHING := Aside(false, 0, 0, false, false, [], [], 0, None, NO_SCRIPT, [], {}, Tally(0, 0, 0, 0))

  function At(asides: map<Id, Aside>, id: Id): Aside {
    if id in asides then asides[id] else NOTHING
  }

  method SweepRows(asides: map<Id, Aside>, skipped: set<Id>, now: nat, used: map<Id, nat>)
    returns (swept: map<Id, Aside>)
    ensures forall id :: At(swept, id) == Swept(At(asides, id), id !in skipped, now, Get(used, id, 0))
  {
    swept := asides;
    var todo := asides.Keys;
    while todo != {}
      invariant todo <= asides.Keys
      invariant forall id | id in todo :: At(swept, id) == At(asides, id)
      invariant forall id | id !in todo ::
                  At(swept, id) == Swept(At(asides, id), id !in skipped, now, Get(used, id, 0))
      decreases |todo|
    {
      var id :| id in todo;
      todo := todo - {id};
      swept := swept[id := Swept(At(swept, id), id !in skipped, now, Get(used, id, 0))];
    }
  }

  class BackgroundQueue {
    var mode: Mode
    var tasks: map<Id, TaskRecord>       // _tasks
    var queue: seq<Id>                   // _queue
    var handles: map<Id, nat>            // _handles
    var lingering: map<Id, set<nat>>     // _en_entrega
    var reserved: map<Id, nat>           // _reanudando, with the call that reserves
    var answers: map<Id, Answer>         // _reanudaciones
    var broken: set<Id>                  // _sin_persistir
    var records: map<Id, TaskRecord>     // the task objects that the dict or a coroutine refers to
    var log: seq<Entry>                  // writes that the store has not acknowledged
    var asides: map<Id, Aside>

    constructor ()
      ensures Valid()
      ensures forall id :: View(id) == UNBORN
      ensures Safe()
    {
      mode, tasks, queue, handles, lingering := Down, map[], [], map[], map[];
      reserved, answers, broken, records, log, asides := map[], map[], {}, map[], [], map[];
    }

    predicate Valid()
      reads `tasks, `records
    {
      && (forall id | id in tasks :: id in records && tasks[id] == records[id])
      && (forall i, j | i in records && j in records && i != j :: records[i] != records[j])
    }

    function Beside(id: Id): Aside
      reads `asides
    {
      At(asides, id)
    }

    function TaskOf(id: Id): Option<Task>
      reads `records, records.Values
    {
      if id in records then Some(records[id].Value()) else None
    }

    /** The life of one task. */
    function View(id: Id): Life
      reads this, records.Values
    {
      var a := Beside(id);
      Life(mode, a.born, a.max, a.clock, a.creating,
           TaskOf(id), id in tasks, Count(queue, id), a.noticing,
           Crew(a.runners, Find(handles, id), Get(lingering, id, {})),
           Desk(Find(reserved, id), a.calls, Find(answers, id), a.taken, a.dismissed),
           Disk(id in broken, Of(log, id), a.settled, a.row, a.script),
           a.tally)
    }

    /** Every delegation satisfies the invariant of its life. */
    ghost predicate Safe()
      reads this, records.Values
    {
      forall id {:trigger Inv(View(id))} :: Inv(View(id))
    }

    // -------------------------------------------------------------------------
    // The shared mutators
    // -------------------------------------------------------------------------

    /** What the view says of a life beside the dicts. */
    lemma BesideTheView(id: Id)
      ensures Besides(View(id), Beside(id)) == View(id)
    {
    }

    method Put(id: Id, a: Aside)
      modifies `asides
      ensures Beside(id) == a
      ensures View(id) == Besides(old(View(id)), a)
      ensures forall j | j != id :: View(j) == old(View(j))
    {
      asides := asides[id := a];
    }

    method Persist(id: Id, w: Write)
      modifies `log
      ensures View(id) == old(View(id)).(disk := Push(old(View(id)).disk, w))
      ensures forall j | j != id :: View(j) == old(View(j))
    {
      if id !in broken {
        forall j ensures Of(log + [Entry(id, w)], j) == Of(log, j) + if id == j then [w] else [] {
          OfPut(log, Entry(id, w), j);
        }
        log := log + [Entry(id, w)];
      }
    }

    method Move(id: Id, r: nat, pc: Pc)
      requires r < |Beside(id).runners|
      modifies `asides
      ensures View(id) == Go(old(View(id)), r, pc)
      ensures forall j | j != id :: View(j) == old(View(j))
    {
      Put(id, Beside(id).(runners := Beside(id).runners[r := pc]));
    }

    /** Sets columns of the record in place. */
    method Alter(id: Id, w: Write)
      requires Valid() && id in records
      modifies records[id]
      ensures View(id) == old(View(id)).(task := Some(Apply(w, old(View(id)).task.value)))
      ensures forall j | j != id :: View(j) == old(View(j))
    {
      records[id].Set(w);
      assert forall j | j in records && j != id :: records[j].Value() == old(records[j].Value());
    }

    /** A task that ended leaves the dict, and takes an answer that nobody used with it. */
    method Purge(id: Id)
      requires Valid() && id in records
      modifies `tasks, `answers
      ensures Valid()
      ensures var l := old(View(id)); View(id) == Purged(l, Terminal(l.task.value.status))
      ensures forall j | j != id :: View(j) == old(View(j))
    {
      if Terminal(records[id].status) {
        tasks := tasks - {id};
        answers := answers - {id};
      }
    }

    /** The only mutator of a live task: the dict first, then the store. */
    method Transit(id: Id, w: Write)
      requires Valid() && id in records
      modifies `tasks, `answers, `log, records[id]
      ensures Valid()
      ensures View(id) == Transition(old(View(id)), old(View(id)).task.value, w, old(View(id)).crew)
      ensures forall j | j != id :: View(j) == old(View(j))
    {
      ghost var l := View(id);
      Alter(id, w);
      Purge(id);
      Persist(id, w);
      PurgedIsTransition(l, w);
    }

    // -------------------------------------------------------------------------
    // Enqueue and the consumer
    // -------------------------------------------------------------------------

    /** The row first: no task exists in the process yet. */
    method CreateRow(id: Id, max: nat)
      requires (mode.Live? || mode.Stopping?) && !Beside(id).born
      modifies `asides
      ensures DoEnqueue(old(View(id)), EnqueueStep.CreateRow(max)) == Some(View(id))
      ensures forall j | j != id :: View(j) == old(View(j))
    {
      Put(id, Beside(id).(born := true, max := max, creating := true, row := Some(FRESH_TASK)));
    }

    method PutInQueue(id: Id)
      modifies `queue
      ensures View(id) == old(View(id)).(entries := old(View(id)).entries + 1)
      ensures forall j | j != id :: View(j) == old(View(j))
    {
      forall j ensures Count(queue + [id], j) == Count(queue, j) + if id == j then 1 else 0 {
        CountPut(queue, id, j);
      }
      queue := queue + [id];
    }

    /** A new task object in the dict and in the queue. */
    method Admit(id: Id)
      requires Valid() && id !in records
      modifies `records, `tasks, `queue
      ensures Valid()
      ensures View(id) == old(View(id)).(task := Some(FRESH_TASK), live := true, entries := old(View(id)).entries + 1)
      ensures forall j | j != id :: View(j) == old(View(j))
    {
      var record := new TaskRecord(FRESH_TASK);
      records := records[id := record];
      tasks := tasks[id := record];
      PutInQueue(id);
    }

    /** The row is created: the dict and the queue. */
    method Register(id: Id)
      requires Valid() && Open(View(id)) && Beside(id).creating && id !in records
      modifies `asides, `records, `tasks, `queue
      ensures Valid()
      ensures DoEnqueue(old(View(id)), EnqueueStep.Register) == Some(View(id))
      ensures forall j | j != id :: View(j) == old(View(j))
    {
      Put(id, Beside(id).(creating := false));
      Admit(id);
    }

    /** No store, or it failed: the task lives in memory only. */
    method CreateInMemory(id: Id, max: nat)
      requires Valid() && Open(View(id)) && !Beside(id).born && id !in records && id !in queue
      modifies `asides, `broken, `records, `tasks, `queue
      ensures Valid()
      ensures DoEnqueue(old(View(id)), EnqueueStep.CreateInMemory(max)) == Some(View(id))
      ensures forall j | j != id :: View(j) == old(View(j))
    {
      CountSome(queue, id);
      Put(id, Beside(id).(born := true, max := max));
      BreakPersistence(id, WQueued);
      Admit(id);
    }

    /** The consumer takes the head of the queue; a task that left the dict meanwhile is skipped. */
    method Consume() returns (id: Id)
      requires mode.Live? && queue != []
      modifies `queue, `asides, `handles
      ensures id == old(queue[0])
      ensures DoConsume(old(View(id))) == Some(View(id))
      ensures forall j | j != id :: View(j) == old(View(j))
    {
      id := queue[0];
      queue := queue[1..];
      if id in tasks {
        Launch(id);
      }
    }

    method Launch(id: Id)
      modifies `asides, `handles
      ensures var l := old(View(id));
              View(id) == l.(crew := l.crew.(runners := l.crew.runners + [Waiting], handle := Some(|l.crew.runners|)))
      ensures forall j | j != id :: View(j) == old(View(j))
    {
      handles := handles[id := |Beside(id).runners|];
      Put(id, Beside(id).(runners := Beside(id).runners + [Waiting]));
    }

    // -------------------------------------------------------------------------
    // A runner
    // -------------------------------------------------------------------------

    function Ticket(id: Id): nat
      reads `broken, `asides, `log
    {
      if id in broken then 0 else Beside(id).settled + |Of(log, id)| + 1
    }

    /** A transition after which the runner awaits its write. */
    method TransitAndMove(id: Id, w: Write, r: nat, pc: Pc)
      requires Valid() && id in records && r < |Beside(id).runners|
      modifies `tasks, `answers, `log, `asides, records[id]
      ensures Valid()
      ensures var l := old(View(id)); View(id) == Transition(l, l.task.value, w, DelegationLife.Move(l.crew, r, pc))
      ensures forall j | j != id :: View(j) == old(View(j))
    {
      Transit(id, w);
      Move(id, r, pc);
    }

    method RunWaiting(id: Id, r: nat)
      requires Valid() && id in records && r < |Beside(id).runners|
      modifies `tasks, `answers, `log, `asides, records[id]
      ensures Valid()
      ensures View(id) == AtWaiting(old(View(id)), r)
      ensures forall j | j != id :: View(j) == old(View(j))
    {
      if id !in tasks {
        Move(id, r, Done);
      } else {
        TransitAndMove(id, WRunning, r, Starting(Ticket(id)));
      }
    }

    method DropAnswer(id: Id)
      modifies `answers
      ensures View(id) == old(View(id)).(desk := old(View(id)).desk.(answer := None))
      ensures forall j | j != id :: View(j) == old(View(j))
    {
      answers := answers - {id};
    }

    method TakeAnswer(id: Id, r: nat)
      requires id in records && id in answers && r < |Beside(id).runners|
      modifies `answers, `asides
      ensures var l := old(View(id)); var a := l.desk.answer.value;
              View(id) == l.(crew := DelegationLife.Move(l.crew, r, Child(a.pre, 0,
                                       if l.task.value.used <= l.max then l.max - l.task.value.used else 0,
                                       true, Unsaid)),
                             desk := l.desk.(answer := None, taken := l.desk.taken + [a.call]))
      ensures forall j | j != id :: View(j) == old(View(j))
    {
      var answer := answers[id];
      var used := records[id].used;
      var budget := if used <= Beside(id).max then Beside(id).max - used else 0;
      DropAnswer(id);
      BesideTheView(id);
      hide View;
      var a := Beside(id);
      Put(id, a.(runners := a.runners[r := Child(answer.pre, 0, budget, true, Unsaid)],
                 taken := a.taken + [answer.call]));
    }

    /** The phase takes the answer that waits for it. */
    method RunStarting(id: Id, r: nat, ticket: nat)
      requires id in records && r < |Beside(id).runners| && ticket <= Beside(id).settled
      modifies `answers, `asides
      ensures AtStarting(old(View(id)), r, ticket) == Some(View(id))
      ensures forall j | j != id :: View(j) == old(View(j))
    {
      if id in answers {
        TakeAnswer(id, r);
      } else {
        Move(id, r, Child(0, 0, Beside(id).max, id !in broken, Unsaid));
      }
    }

    /** The recorder stores what was said, or is broken from here on. */
    method Speak(id: Id, r: nat, pc: Pc, more: nat, saved: bool, talk: Talk, script: Script)
      requires r < |Beside(id).runners| && pc.Child?
      modifies `asides
      ensures View(id) == Voiced(old(View(id)), r, pc, more, saved, talk, script)
      ensures forall j | j != id :: View(j) == old(View(j))
    {
      BesideTheView(id);
      hide View;
      var a := Beside(id);
      var whole := pc.whole && saved;
      Put(id, a.(runners := a.runners[r := Child(pc.pre, pc.passes + more, pc.budget, whole, talk)],
                 tally := a.tally.(passes := a.tally.passes + more),
                 script := if whole then script else a.script));
    }

    /** A message of the child's conversation: told, replied, or its last word when it ran out of iterations. */
    method RunTalk(id: Id, r: nat, pc: Pc, s: RunStep)
      requires id in records && r < |Beside(id).runners| && pc.Child? && (s.Note? || s.Pass? || s.Close?)
      requires AtChild(View(id), r, pc, s).Some?
      modifies `asides
      ensures AtChild(old(View(id)), r, pc, s) == Some(View(id))
      ensures forall j | j != id :: View(j) == old(View(j))
    {
      var script := Beside(id).script;
      match s
      case Note(saved, cut, rest) => Speak(id, r, pc, 0, saved, if rest then Called else Owed, Noted(script, cut));
      case Pass(saved, cut, final) =>
        Speak(id, r, pc, 1, saved, if final then Final else Called, Said(script, cut, final));
      case Close(saved, cut) => Speak(id, r, pc, 0, saved, Concluded, Said(script, cut, true));
    }

    function UsedUp(id: Id, pc: Pc, exhausted: bool): nat
      requires pc.Child?
      reads `asides
    {
      if exhausted then Beside(id).max else pc.pre + pc.passes
    }

    /** A step of the child, or the snapshot, did not reach the disk: the transcript is flagged. */
    method RunMark(id: Id, r: nat, pc: Pc, exhausted: bool)
      requires Valid() && id in records && r < |Beside(id).runners| && pc.Child?
      requires AtChild(View(id), r, pc, Mark(exhausted)).Some?
      modifies `log, `asides, records[id]
      ensures Valid()
      ensures AtChild(old(View(id)), r, pc, Mark(exhausted)) == Some(View(id))
      ensures forall j | j != id :: View(j) == old(View(j))
    {
      var ticket, used := Ticket(id), UsedUp(id, pc, exhausted);
      Alter(id, WIncomplete);
      Persist(id, WIncomplete);
      Move(id, r, Marking(ticket, used));
    }

    /** The result is persisted by the transition that starts its delivery. */
    method Hand(id: Id, r: nat, text: Text, now: nat, used: nat)
      requires Valid() && id in records && r < |Beside(id).runners|
      modifies `tasks, `answers, `log, `asides, records[id]
      ensures Valid()
      ensures View(id) == Deliver(old(View(id)), r, text, now, used)
      ensures forall j | j != id :: View(j) == old(View(j))
    {
      TransitAndMove(id, WDelivering(text, now, used), r, Handing(Ticket(id)));
    }

    /** The question is no column: it is set before the transition. */
    method Ask(id: Id, question: Option<Text>)
      requires Valid() && id in records
      modifies records[id]
      ensures View(id) == old(View(id)).(task := Some(old(View(id)).task.value.(question := question)))
      ensures forall j | j != id :: View(j) == old(View(j))
    {
      records[id].question := question;
      assert forall j | j in records && j != id :: records[j].Value() == old(records[j].Value());
    }

    method RunPause(id: Id, r: nat, pc: Pc, text: Text, question: Text)
      requires Valid() && id in records && r < |Beside(id).runners| && pc.Child?
      requires DoPause(View(id), r, pc, text, question).Some?
      modifies `tasks, `answers, `log, `asides, records[id]
      ensures Valid()
      ensures DoPause(old(View(id)), r, pc, text, question) == Some(View(id))
      ensures forall j | j != id :: View(j) == old(View(j))
    {
      var a := Beside(id);
      ghost var l := View(id);
      Ask(id, Some(question));
      Put(id, a.(clock := a.clock + 1, tally := a.tally.(pauses := a.tally.pauses + 1),
                 script := a.script.(cut := false)));
      PauseIsTransition(l, r, pc, text, question);
      TransitAndMove(id, WAwaiting(text, a.clock, pc.pre + pc.passes), r, Pausing(a.clock, Ticket(id)));
    }

    /** A pause that could not be written is delivered as a final result. */
    method RunDegrade(id: Id, r: nat, pc: Pc, text: Text, now: nat)
      requires Valid() && id in records && r < |Beside(id).runners| && pc.Pausing?
      requires AtPausing(View(id), r, pc, Degrade(text, now)).Some?
      modifies `tasks, `answers, `log, `asides, records[id]
      ensures Valid()
      ensures AtPausing(old(View(id)), r, pc, Degrade(text, now)) == Some(View(id))
      ensures forall j | j != id :: View(j) == old(View(j))
    {
      Ask(id, None);
      Hand(id, r, text, now, records[id].used);
    }

    /** Notes something about the current pause, in memory and then in the store. */
    method Mention(id: Id, r: nat, w: Write)
      requires Valid() && id in records && r < |Beside(id).runners|
      modifies `log, `asides, records[id]
      ensures Valid()
      ensures View(id) == Mentioned(old(View(id)), r, w)
      ensures forall j | j != id :: View(j) == old(View(j))
    {
      var ticket := Ticket(id);
      Alter(id, w);
      Persist(id, w);
      Move(id, r, Asked(ticket));
    }

    /** What comes back of a question touches only the pause it was asked in. */
    method RunAsked(id: Id, r: nat, pc: Pc, w: Write)
      requires Valid() && id in records && r < |Beside(id).runners| && pc.Asking?
      modifies `log, `asides, records[id]
      ensures Valid()
      ensures var l := old(View(id)); View(id) == if InPause(l, pc.stamp) then Mentioned(l, r, w) else Go(l, r,
              Asked(0))
      ensures forall j | j != id :: View(j) == old(View(j))
    {
      if records[id].status.AwaitingInput? && records[id].finishedAt == Some(pc.stamp) {
        Mention(id, r, w);
      } else {
        Move(id, r, Asked(0));
      }
    }

    method RunAsking(id: Id, r: nat, pc: Pc, s: RunStep)
      requires Valid() && id in records && r < |Beside(id).runners| && pc.Asking?
      requires AtAsking(View(id), r, pc, s).Some?
      modifies `log, `asides, records[id]
      ensures Valid()
      ensures AtAsking(old(View(id)), r, pc, s) == Some(View(id))
      ensures forall j | j != id :: View(j) == old(View(j))
    {
      AskingEnds(View(id), r, pc);
      match s
      case Succeed => RunAsked(id, r, pc, WNotified);
      case Fail(last, error) =>
        if pc.attempt < DISPATCH_ATTEMPTS && !last {
          Move(id, r, Asking(pc.stamp, pc.attempt + 1));
        } else {
          RunAsked(id, r, pc, WError(error));
        }
      case Raise(_) => Move(id, r, Done);
    }

    method RunDispatching(id: Id, r: nat, pc: Pc, s: RunStep)
      requires Valid() && id in records && r < |Beside(id).runners| && pc.Dispatching?
      requires AtDispatching(View(id), r, pc, s).Some?
      modifies `tasks, `answers, `log, `asides, records[id]
      ensures Valid()
      ensures AtDispatching(old(View(id)), r, pc, s) == Some(View(id))
      ensures forall j | j != id :: View(j) == old(View(j))
    {
      match s
      case Succeed => RunDispatched(id, r);
      case Fail(last, error) =>
        if pc.attempt < DISPATCH_ATTEMPTS && !last {
          Move(id, r, Dispatching(pc.attempt + 1));
        } else {
          RunClose(id, r, WFailed(error));
        }
    }

    method RunChild(id: Id, r: nat, pc: Pc, s: RunStep)
      requires Valid() && id in records && r < |Beside(id).runners| && pc.Child?
      requires AtChild(View(id), r, pc, s).Some?
      modifies `tasks, `answers, `log, `asides, records[id]
      ensures Valid()
      ensures AtChild(old(View(id)), r, pc, s) == Some(View(id))
      ensures forall j | j != id :: View(j) == old(View(j))
    {
      match s
      case Mark(exhausted) => RunMark(id, r, pc, exhausted);
      case Finish(text, now, exhausted) => Hand(id, r, text, now, UsedUp(id, pc, exhausted));
      case Rescue(text, now) => Hand(id, r, text, now, records[id].used);
      case Pause(text, question) => RunPause(id, r, pc, text, question);
      case Note(_, _, _) | Pass(_, _, _) | Close(_, _) => RunTalk(id, r, pc, s);
    }

    method RunPausing(id: Id, r: nat, pc: Pc, s: RunStep)
      requires Valid() && id in records && r < |Beside(id).runners| && pc.Pausing?
      requires AtPausing(View(id), r, pc, s).Some?
      modifies `tasks, `answers, `log, `asides, records[id]
      ensures Valid()
      ensures AtPausing(old(View(id)), r, pc, s) == Some(View(id))
      ensures forall j | j != id :: View(j) == old(View(j))
    {
      match s
      case Degrade(text, now) => RunDegrade(id, r, pc, text, now);
      case Proceed => Move(id, r, Asking(pc.stamp, 1));
    }

    method RunMarking(id: Id, r: nat, pc: Pc, s: RunStep)
      requires Valid() && id in records && r < |Beside(id).runners| && pc.Marking?
      requires AtMarking(View(id), r, pc, s).Some?
      modifies `tasks, `answers, `log, `asides, records[id]
      ensures Valid()
      ensures AtMarking(old(View(id)), r, pc, s) == Some(View(id))
      ensures forall j | j != id :: View(j) == old(View(j))
    {
      match s
      case Finish(text, now, _) => Hand(id, r, text, now, pc.used);
      case Rescue(text, now) => Hand(id, r, text, now, records[id].used);
    }

    /** One segment of the runner `r` of a task, wherever it is. */
    method Run(id: Id, r: nat, s: RunStep)
      requires Valid() && DoRun(View(id), r, s).Some?
      modifies `tasks, `answers, `log, `asides, `handles, `lingering, records.Values
      ensures Valid()
      ensures DoRun(old(View(id)), r, s) == Some(View(id))
      ensures forall j | j != id :: View(j) == old(View(j))
    {
      var pc := Beside(id).runners[r];
      match pc
      case Waiting => RunWaiting(id, r);
      case Starting(ticket) => RunStarting(id, r, ticket);
      case Child(_, _, _, _, _) => RunChild(id, r, pc, s);
      case Marking(_, _) => RunMarking(id, r, pc, s);
      case Pausing(_, _) => RunPausing(id, r, pc, s);
      case Asking(_, _) => RunAsking(id, r, pc, s);
      case Asked(_) => Move(id, r, Done);
      case Handing(_) => Move(id, r, Dispatching(1));
      case Dispatching(_) => RunDispatching(id, r, pc, s);
      case Dispatched => RunClose(id, r, if s.Proceed? then WDelivered else WFailed(s.error));
      case Closing(_) => Move(id, r, Done);
      case Done => Forget(id, r);
    }

    method RunDispatched(id: Id, r: nat)
      requires id in records && r < |Beside(id).runners|
      modifies `asides
      ensures var l := old(View(id));
              View(id) == l.(crew := DelegationLife.Move(l.crew, r, Dispatched),
                             tally := l.tally.(delivered := l.tally.delivered + 1))
      ensures forall j | j != id :: View(j) == old(View(j))
    {
      var a := Beside(id);
      Put(id, a.(runners := a.runners[r := Dispatched], tally := a.tally.(delivered := a.tally.delivered + 1)));
    }

    method RunClose(id: Id, r: nat, w: Write)
      requires Valid() && id in records && r < |Beside(id).runners|
      modifies `tasks, `answers, `log, `asides, records[id]
      ensures Valid()
      ensures View(id) == CloseWith(old(View(id)), r, w)
      ensures forall j | j != id :: View(j) == old(View(j))
    {
      TransitAndMove(id, w, r, Closing(Ticket(id)));
    }

    /** Forgets only the runner that ended. */
    method Forget(id: Id, r: nat)
      modifies `handles, `lingering
      ensures View(id) == AtDone(old(View(id)), r)
      ensures forall j | j != id :: View(j) == old(View(j))
    {
      if id in handles && handles[id] == r {
        handles := handles - {id};
      }
      if id in lingering {
        lingering := lingering[id := lingering[id] - {r}];
      }
    }

    // -------------------------------------------------------------------------
    // The parent
    // -------------------------------------------------------------------------

    /** The held runner is cut, wherever it is. */
    method CutHandle(id: Id)
      modifies `handles, `asides
      ensures View(id) == old(View(id)).(crew := Cut(old(View(id)).crew))
      ensures forall j | j != id :: View(j) == old(View(j))
    {
      if id in handles {
        var r := handles[id];
        handles := handles - {id};
        if r < |Beside(id).runners| {
          Move(id, r, Done);
        }
      }
    }

    method CutOff(id: Id, now: nat)
      requires Valid() && id in records
      modifies `tasks, `answers, `log, `asides, `handles, records[id]
      ensures Valid()
      ensures var l := old(View(id)); View(id) == Transition(l, l.task.value, WCancelled(now), Cut(l.crew))
      ensures forall j | j != id :: View(j) == old(View(j))
    {
      CutHandle(id);
      Transit(id, WCancelled(now));
    }

    method Dismiss(id: Id)
      requires Valid() && id in records
      modifies `tasks, `answers, `log, `asides, records[id]
      ensures Valid()
      ensures var l := old(View(id)); View(id) == Transition(Dismissing(l), l.task.value, WDismissed, l.crew)
      ensures forall j | j != id :: View(j) == old(View(j))
    {
      var record := records[id];
      if record.status.AwaitingInput? && record.finishedAt.Some? {
        Put(id, Beside(id).(dismissed := Beside(id).dismissed + {record.finishedAt.value}));
      }
      Transit(id, WDismissed);
    }

    /**
     Cuts or dismisses a live task; None when it is not in the dict. A dismissed task hands over the
     result it held.
     */
    method Cancel(id: Id, now: nat) returns (outcome: Option<Cancellation>)
      requires Valid() && Open(View(id))
      modifies `tasks, `answers, `log, `asides, `handles, records.Values
      ensures Valid()
      ensures outcome.None? <==> !old(View(id)).live
      ensures outcome.None? ==> View(id) == old(View(id))
      ensures outcome.Some? ==> DoCancel(old(View(id)), now) == Some(View(id))
      ensures CancelTold(old(View(id)), now, outcome, View(id))
      ensures forall j | j != id :: View(j) == old(View(j))
    {
      CancelAnswers(View(id), now);
      hide CancelTold;
      if id !in tasks {
        return None;
      }
      var record := records[id];
      var result := record.result;
      if record.status.Delivering? {
        return Some(Delivers);
      }
      if Resting(record.status) {
        Dismiss(id);
        return Some(Dismisses(result));
      }
      CutOff(id, now);
      outcome := Some(Cuts);
    }

    method Reserve(id: Id, call: Call)
      modifies `asides, `reserved
      ensures var l := old(View(id));
              View(id) == l.(desk := l.desk.(calls := l.desk.calls + [call], reservation := Some(|l.desk.calls|)))
      ensures forall j | j != id :: View(j) == old(View(j))
    {
      reserved := reserved[id := |Beside(id).calls|];
      Put(id, Beside(id).(calls := Beside(id).calls + [call]));
    }

    /** Decision and reservation in one segment: the new call either returned or reserves the task. */
    method Resume(id: Id, text: Text, refused: bool)
      requires Open(View(id)) && Valid()
      modifies `asides, `reserved
      ensures DoResume(old(View(id)), text, refused) == Some(View(id))
      ensures View(id).desk.calls == old(View(id)).desk.calls + [View(id).desk.calls[|old(View(id)).desk.calls|]]
      ensures ResumeSays(old(View(id)), text, refused, View(id).desk.calls[|old(View(id)).desk.calls|])
      ensures forall j | j != id :: View(j) == old(View(j))
    {
      ResumeAnswers(View(id), text, refused);
      var a := Beside(id);
      var rejection := RejectsResume(View(id), refused);
      if rejection.Some? {
        Put(id, a.(calls := a.calls + [rejection.value]));
      } else {
        Reserve(id, Reopening(if records[id].finishedAt.Some? then records[id].finishedAt.value else 0, text));
      }
    }

    /** The call ends, and with it the reservation. */
    method Answer(id: Id, c: nat, stamp: nat, outcome: Outcome)
      requires c < |Beside(id).calls|
      modifies `asides, `reserved
      ensures View(id) == Return(old(View(id)), c, stamp, outcome)
      ensures forall j | j != id :: View(j) == old(View(j))
    {
      reserved := reserved - {id};
      Put(id, Beside(id).(calls := Beside(id).calls[c := Returned(stamp, outcome)]));
    }

    /** The held runner, still delivering its question, moves aside. */
    method StepAside(id: Id)
      modifies `handles, `lingering
      ensures var l := old(View(id));
              View(id) == l.(crew := l.crew.(handle := None,
                                             lingering := if l.crew.handle.Some?
                                                 then l.crew.lingering + {l.crew.handle.value}
                                                          else l.crew.lingering))
      ensures forall j | j != id :: View(j) == old(View(j))
    {
      if id in handles {
        lingering := lingering[id := Get(lingering, id, {}) + {handles[id]}];
        handles := handles - {id};
      }
    }

    method PutAnswer(id: Id, answer: Answer)
      modifies `answers
      ensures View(id) == old(View(id)).(desk := old(View(id)).desk.(answer := Some(answer)))
      ensures forall j | j != id :: View(j) == old(View(j))
    {
      answers := answers[id := answer];
    }

    /** The answer is ready for the next phase. */
    method Leave(id: Id, c: nat, stamp: nat, text: Text)
      requires c < |Beside(id).calls|
      modifies `answers, `asides
      ensures var l := old(View(id));
              View(id) == l.(desk := l.desk.(answer := Some(DelegationLife.Answer(c, text, l.disk.script.said)),
                                             calls := l.desk.calls[c := Requeueing(stamp, NextTicket(l.disk))]),
                             tally := l.tally.(lost := if l.disk.broken then l.tally.lost + 1 else l.tally.lost))
      ensures forall j | j != id :: View(j) == old(View(j))
    {
      var a := Beside(id);
      PutAnswer(id, DelegationLife.Answer(c, text, a.script.said));
      Put(id, a.(calls := a.calls[c := Requeueing(stamp, Ticket(id))],
                 tally := a.tally.(lost := if id in broken then a.tally.lost + 1 else a.tally.lost)));
    }

    /** Back to `queued` with an answer. */
    method RequeueTask(id: Id, c: nat, stamp: nat, text: Text)
      requires Valid() && id in records && c < |Beside(id).calls|
      modifies `tasks, `answers, `log, `asides, `handles, `lingering, records[id]
      ensures Valid()
      ensures View(id) == Requeue(old(View(id)), c, stamp, text)
      ensures forall j | j != id :: View(j) == old(View(j))
    {
      ghost var l := View(id);
      Leave(id, c, stamp, text);
      Ask(id, None);
      StepAside(id);
      RequeueIsTransition(l, c, stamp, text);
      Transit(id, WQueued);
    }

    /** The transcript was reopened, or not: everything that could have changed is checked again. */
    method CallReopened(id: Id, c: nat, call: Call, s: CallStep)
      requires Valid() && id in records && c < |Beside(id).calls| && call.Reopening?
      requires AtReopening(View(id), c, call, s).Some?
      modifies `tasks, `answers, `log, `asides, `reserved, `handles, `lingering, records[id]
      ensures Valid()
      ensures AtReopening(old(View(id)), c, call, s) == Some(View(id))
      ensures forall j | j != id :: View(j) == old(View(j))
    {
      var waits := id in tasks && records[id].status.AwaitingInput?;
      ReopeningEnds(View(id), c, call, s);
      if s.StoreFailed? {
        Answer(id, c, call.stamp, Unavailable);
      } else if !waits {
        Answer(id, c, call.stamp, NotAwaiting);
      } else if s.FoundInconsistent? {
        Flag(id, c, call.stamp);
      } else if mode.Stopped? {
        Answer(id, c, call.stamp, Unavailable);
      } else {
        RequeueTask(id, c, call.stamp, call.answer);
      }
    }

    method Flag(id: Id, c: nat, stamp: nat)
      requires Valid() && id in records && c < |Beside(id).calls|
      modifies `log, `asides, records[id]
      ensures Valid()
      ensures View(id) == FlaggedBy(old(View(id)), c, stamp)
      ensures forall j | j != id :: View(j) == old(View(j))
    {
      var ticket := Ticket(id);
      Alter(id, WIncomplete);
      Persist(id, WIncomplete);
      Put(id, Beside(id).(calls := Beside(id).calls[c := Flagging(stamp, ticket)]));
    }

    /** The requeue is written: a cancel or a stop may have slipped in. */
    method CallRequeued(id: Id, c: nat, call: Call)
      requires Valid() && id in records && c < |Beside(id).calls| && call.Requeueing?
               && call.ticket <= Beside(id).settled
      modifies `asides, `reserved, `queue
      ensures AtRequeueing(old(View(id)), c, call) == Some(View(id))
      ensures forall j | j != id :: View(j) == old(View(j))
    {
      if id in tasks && records[id].status.Queued? {
        Answer(id, c, call.stamp, Resumed);
        PutInQueue(id);
      } else {
        Answer(id, c, call.stamp, NotAwaiting);
      }
    }

    /** One segment of a call of resume. */
    method Continue(id: Id, c: nat, s: CallStep)
      requires Valid() && id in records && DoCall(View(id), c, s).Some?
      modifies `tasks, `answers, `log, `asides, `reserved, `queue, `handles, `lingering, records[id]
      ensures Valid()
      ensures DoCall(old(View(id)), c, s) == Some(View(id))
      ensures forall j | j != id :: View(j) == old(View(j))
    {
      var call := Beside(id).calls[c];
      match call
      case Reopening(_, _) => CallReopened(id, c, call, s);
      case Flagging(stamp, _) => Answer(id, c, stamp, TranscriptIncomplete);
      case Requeueing(_, _) => CallRequeued(id, c, call);
    }

    // -------------------------------------------------------------------------
    // The store
    // -------------------------------------------------------------------------

    method TakeWrite() returns (e: Entry)
      requires log != []
      modifies `log
      ensures e == old(log[0]) && old(View(e.id)).disk.writes != [] && e.write == old(View(e.id)).disk.writes[0]
      ensures var d := old(View(e.id)).disk; View(e.id) == old(View(e.id)).(disk := d.(writes := d.writes[1..]))
      ensures forall j | j != e.id :: View(j) == old(View(j))
    {
      e := log[0];
      log := log[1..];
    }

    method BreakPersistence(id: Id, w: Write)
      modifies `broken
      ensures var d := old(View(id)).disk; View(id) == old(View(id)).(disk := d.(broken := d.broken || Hard(w)))
      ensures forall j | j != id :: View(j) == old(View(j))
    {
      if Hard(w) {
        broken := broken + {id};
      }
    }

    /** The store takes the oldest write of all. */
    method SettleWell() returns (id: Id)
      requires log != [] && Open(View(log[0].id)) && NobodyReady(View(log[0].id))
      modifies `log, `asides
      ensures id == old(log[0].id)
      ensures DoSettle(old(View(id)), true) == Some(View(id))
      ensures forall j | j != id :: View(j) == old(View(j))
    {
      var e := TakeWrite();
      id := e.id;
      var a := Beside(id);
      Put(id, a.(settled := a.settled + 1, row := if a.row.Some? then Some(Apply(e.write, a.row.value)) else None));
    }

    method CountLost(id: Id, w: Write)
      modifies `asides
      ensures var l := old(View(id));
              View(id) == l.(disk := l.disk.(settled := l.disk.settled + 1),
                             tally := l.tally.(lost := if w.WQueued? then l.tally.lost + 1 else l.tally.lost))
      ensures forall j | j != id :: View(j) == old(View(j))
    {
      var a := Beside(id);
      Put(id, a.(settled := a.settled + 1,
                 tally := a.tally.(lost := if w.WQueued? then a.tally.lost + 1 else a.tally.lost)));
    }

    /** The store fails it: the task is no longer persisted, and the delegation goes on. */
    method SettleBadly() returns (id: Id)
      requires log != [] && Open(View(log[0].id)) && NobodyReady(View(log[0].id))
      modifies `log, `broken, `asides
      ensures id == old(log[0].id)
      ensures DoSettle(old(View(id)), false) == Some(View(id))
      ensures forall j | j != id :: View(j) == old(View(j))
    {
      var e := TakeWrite();
      id := e.id;
      BreakPersistence(id, e.write);
      CountLost(id, e.write);
    }

    /** A row of a pause that this process did not load is dismissed in the store. */
    method DismissCold(id: Id)
      requires DoColdDismiss(View(id)).Some?
      modifies `log
      ensures DoColdDismiss(old(View(id))) == Some(View(id))
      ensures forall j | j != id :: View(j) == old(View(j))
    {
      assert View(id).disk.writes + [WColdDismissed] == [WColdDismissed];
      Persist(id, WColdDismissed);
    }

    // -------------------------------------------------------------------------
    // The startup notice
    // -------------------------------------------------------------------------

    method NoticeBegin(id: Id)
      requires DoProcess(View(id), ProcessStep.NoticeBegin).Some?
      modifies `asides
      ensures DoProcess(old(View(id)), ProcessStep.NoticeBegin) == Some(View(id))
      ensures forall j | j != id :: View(j) == old(View(j))
    {
      Put(id, Beside(id).(noticing := true));
    }

    method NoticeFail(id: Id)
      requires Beside(id).noticing
      modifies `asides
      ensures DoProcess(old(View(id)), ProcessStep.NoticeFail) == Some(View(id))
      ensures forall j | j != id :: View(j) == old(View(j))
    {
      Put(id, Beside(id).(noticing := false));
    }

    /** An interrupted task that was told to its parent is no longer a pending matter. */
    method DropIfInterrupted(id: Id)
      requires Valid() && id in records
      modifies `tasks
      ensures Valid()
      ensures var l := old(View(id)); View(id) == l.(live := l.live && !l.task.value.status.Interrupted?)
      ensures forall j | j != id :: View(j) == old(View(j))
    {
      if records[id].status.Interrupted? {
        tasks := tasks - {id};
      }
    }

    /** mark_notified reaches every row, also of tasks that are no longer persisted. */
    method PersistNotice(id: Id)
      modifies `log
      ensures var d := old(View(id)).disk;
              View(id) == old(View(id)).(disk := d.(writes := if d.row.Some? then d.writes + [WNoticed] else d.writes))
      ensures forall j | j != id :: View(j) == old(View(j))
    {
      if Beside(id).row.Some? {
        forall j ensures Of(log + [Entry(id, WNoticed)], j) == Of(log, j) + if id == j then [WNoticed] else [] {
          OfPut(log, Entry(id, WNoticed), j);
        }
        log := log + [Entry(id, WNoticed)];
      }
    }

    /** The notice was dispatched. */
    method NoticeOk(id: Id)
      requires Valid() && id in records && DoProcess(View(id), ProcessStep.NoticeOk).Some?
      modifies `asides, `tasks, `log, records[id]
      ensures Valid()
      ensures DoProcess(old(View(id)), ProcessStep.NoticeOk) == Some(View(id))
      ensures forall j | j != id :: View(j) == old(View(j))
    {
      Put(id, Beside(id).(noticing := false));
      Alter(id, WNoticed);
      DropIfInterrupted(id);
      PersistNotice(id);
    }

    // -------------------------------------------------------------------------
    // Stop, crash and start: every life at once
    // -------------------------------------------------------------------------

    method StopBegin()
      requires mode.Live?
      modifies `mode, `asides
      ensures forall id :: DoProcess(old(View(id)), ProcessStep.StopBegin) == Some(View(id))
    {
      mode := Stopping;
      asides := map id | id in asides :: asides[id].(noticing := false);
      assert forall id :: Beside(id) == old(Beside(id)).(noticing := false);
    }

    method Interrupt(id: Id)
      requires Valid() && id in tasks
      modifies records[id]
      ensures TaskOf(id) == MarkedTask(old(TaskOf(id)), true)
      ensures forall j | j != id :: TaskOf(j) == old(TaskOf(j))
    {
      if records[id].status.Queued? || records[id].status.Running? {
        records[id].status := Interrupted;
      }
      assert forall j | j in records && j != id :: records[j].Value() == old(records[j].Value());
    }

    /** In the dict only: the store is written when no child is alive. */
    method MarkInterrupted()
      requires Valid()
      modifies records.Values
      ensures Valid()
      ensures forall id :: TaskOf(id) == MarkedTask(old(TaskOf(id)), id in tasks)
    {
      var todo := tasks.Keys;
      while todo != {}
        invariant todo <= tasks.Keys
        invariant forall id | id !in todo :: TaskOf(id) == MarkedTask(old(TaskOf(id)), id in tasks)
        invariant forall id | id in todo :: TaskOf(id) == old(TaskOf(id))
        decreases |todo|
      {
        var id :| id in todo;
        todo := todo - {id};
        Interrupt(id);
      }
    }

    method EndRunners()
      modifies `asides
      ensures forall id :: Beside(id) == Ended(old(Beside(id)))
    {
      asides := map id | id in asides :: Ended(asides[id]);
    }

    /** The runners are cut, and the answers that did not get to run are dropped. */
    method CutRunners()
      modifies `mode, `answers, `handles, `lingering, `asides
      ensures forall id :: View(id) == CutOffAll(old(View(id)))
    {
      EndRunners();
      mode := Stopped;
      answers, handles, lingering := map[], map[], map[];
    }

    method StopMark()
      requires Valid() && mode.Stopping?
      modifies `mode, `answers, `handles, `lingering, `asides, records.Values
      ensures Valid()
      ensures forall id :: DoProcess(old(View(id)), ProcessStep.StopMark) == Some(View(id))
    {
      MarkInterrupted();
      CutRunners();
    }

    /** Closes on disk what a cut left half way; a row that fails, or whose task is unpersisted, stays. */
    method CloseOrphans(failed: set<Id>, now: nat, used: map<Id, nat>)
      modifies `asides
      ensures forall id :: Beside(id) == Swept(old(Beside(id)), id !in failed && id !in broken, now, Get(used, id, 0))
    {
      asides := SweepRows(asides, failed + broken, now, used);
    }

    method StopSweep(failed: set<Id>, now: nat, used: map<Id, nat>)
      requires mode.Stopped? && log == [] && forall id :: !Beside(id).creating
      modifies `mode, `asides
      ensures forall id ::
                DoProcess(old(View(id)), ProcessStep.StopSweep(id !in failed, now, Get(used, id, 0))) == Some(View(id))
    {
      CloseOrphans(failed, now, used);
      mode := Closed;
    }

    method DropCoroutines()
      modifies `asides
      ensures forall id :: Beside(id) == Survives(old(Beside(id)))
    {
      asides := map id | id in asides :: Survives(asides[id]);
    }

    method DropDicts()
      modifies `mode, `tasks, `queue, `handles, `lingering, `reserved, `answers, `broken, `records, `log
      ensures Valid()
      ensures forall id :: View(id) == Fresh(Beside(id))
    {
      mode, tasks, queue, handles, lingering := Down, map[], [], map[], map[];
      reserved, answers, broken, records, log := map[], map[], {}, map[], [];
    }

    /** Only the store survives. */
    method Crash()
      modifies this
      ensures Valid()
      ensures forall id :: DoProcess(old(View(id)), ProcessStep.Crash) == Some(View(id))
    {
      DropCoroutines();
      DropDicts();
      forall id ensures DoProcess(old(View(id)), ProcessStep.Crash) == Some(View(id)) {
        SurvivorIsRemains(old(View(id)), old(Beside(id)));
      }
    }

    /** What retention deletes. */
    method Prune(pruned: set<Id>)
      modifies `asides
      ensures forall id :: Beside(id) == Retains(old(Beside(id)), id in pruned)
    {
      asides := map id | id in asides :: Retains(asides[id], id in pruned);
    }

    /** What is still a matter of the parent comes back; a pause with its question, if the transcript has it. */
    method Rehydrate(recovered: map<Id, Text>)
      requires Valid() && records == map[]
      modifies `records, `tasks
      ensures Valid() && tasks == records
      ensures forall id :: id in records <==> Loads(Beside(id).row)
      ensures forall id | id in records && Loads(Beside(id).row) ::
                records[id].Value() == Loaded(Beside(id).row.value, Find(recovered, id))
    {
      var todo := asides.Keys;
      while todo != {}
        invariant Valid() && tasks == records
        invariant forall id :: id in records <==> id !in todo && Loads(Beside(id).row)
        invariant forall id | id in records :: fresh(records[id])
        invariant forall id | id in records :: records[id].Value() == Loaded(Beside(id).row.value, Find(recovered, id))
        decreases |todo|
      {
        var id :| id in todo;
        todo := todo - {id};
        if Loads(Beside(id).row) {
          var record := new TaskRecord(Loaded(Beside(id).row.value, Find(recovered, id)));
          records := records[id := record];
          tasks := tasks[id := record];
        }
      }
    }

    method Restore(failed: set<Id>, pruned: set<Id>, reread: bool, now: nat, used: map<Id, nat>, recovered: map<Id,
                   Text>)
      requires Valid() && records == map[] && tasks == map[] && broken == {}
      modifies `asides, `records, `tasks
      ensures Valid() && tasks == records
      ensures forall id :: Beside(id) == Retains(Swept(old(Beside(id)), id !in failed, now, Get(used, id, 0)),
              id in pruned)
      ensures forall id :: TaskOf(id) == if reread && Loads(Beside(id).row)
                                         then Some(Loaded(Beside(id).row.value, Find(recovered, id))) else None
    {
      CloseOrphans(failed, now, used);
      Prune(pruned);
      if reread {
        Rehydrate(recovered);
      }
    }

    /**
     Sweeps, prunes and rehydrates, then launches the consumer. Each part may fail on its own: a row
     that cannot be swept stays, and nothing is loaded when the rows cannot be read back.
     */
    method Start(failed: set<Id>, pruned: set<Id>, reread: bool, now: nat, used: map<Id, nat>, recovered: map<Id, Text>)
      requires Valid() && mode.Down? && forall id {:trigger Shape(View(id))} :: Shape(View(id))
      modifies `mode, `asides, `records, `tasks
      ensures Valid()
      ensures forall id :: DoProcess(old(View(id)), Restart(id !in failed, id in pruned, reread, now, Get(used, id, 0),
                                                            Find(recovered, id))) == Some(View(id))
    {
      Rested();
      Restore(failed, pruned, reread, now, used, recovered);
      mode := Live;
      forall id ensures DoProcess(old(View(id)), Restart(id !in failed, id in pruned, reread, now, Get(used, id, 0),
                                                         Find(recovered, id))) == Some(View(id)) {
        assert View(id) == Started(Beside(id), reread, Find(recovered, id));
        StartIsRestart(old(Beside(id)), id !in failed, id in pruned, reread, now, Get(used, id, 0), Find(recovered,
            id));
      }
    }

    /** Between processes only the asides say anything. */
    lemma {:induction false} Rested()
      requires Valid() && mode.Down? && forall id {:trigger Shape(View(id))} :: Shape(View(id))
      ensures records == map[] && tasks == map[] && broken == {}
      ensures forall id :: View(id) == Fresh(Beside(id))
    {
      forall id ensures View(id) == Fresh(Beside(id)) && id !in records && id !in tasks && id !in broken {
        assert Shape(View(id));
      }
    }

    // -------------------------------------------------------------------------
    // All of it
    // -------------------------------------------------------------------------

    /** Any segment of any task: it moves that life as DelegationLife says, and no other. */
    method Step(id: Id, a: Action)
      requires Valid() && Inv(View(id)) && Do(View(id), a).Some?
      requires a.Consumes? ==> queue != [] && queue[0] == id
      requires a.Settles? ==> log != [] && log[0].id == id
      requires a.Process? ==> a.process.NoticeBegin? || a.process.NoticeOk? || a.process.NoticeFail?
      modifies this, records.Values
      ensures Valid()
      ensures Do(old(View(id)), a) == Some(View(id))
      ensures forall j | j != id :: View(j) == old(View(j))
    {
      if a.Runs? {
        Run(id, a.r, a.run);
      } else if a.Cancels? || a.ColdDismisses? || a.Resumes? || a.Calls? {
        ActCaller(id, a);
      } else {
        ActQueue(id, a);
      }
    }

    /** The parent calls. */
    method ActCaller(id: Id, a: Action)
      requires Valid() && Inv(View(id)) && Do(View(id), a).Some?
      requires a.Cancels? || a.ColdDismisses? || a.Resumes? || a.Calls?
      modifies `tasks, `answers, `log, `asides, `reserved, `queue, `handles, `lingering, records.Values
      ensures Valid()
      ensures Do(old(View(id)), a) == Some(View(id))
      ensures forall j | j != id :: View(j) == old(View(j))
    {
      hide CancelTold, ResumeSays;
      hide DoRun, DoSettle, DoProcess, DoEnqueue;
      match a
      case Cancels(now) => var _ := Cancel(id, now);
      case ColdDismisses => DismissCold(id);
      case Resumes(text, refused) => Resume(id, text, refused);
      case Calls(c, s) => ActCall(id, c, s);
    }

    /** The queue itself, its store and the startup notice. */
    method ActQueue(id: Id, a: Action)
      requires Valid() && Inv(View(id)) && Do(View(id), a).Some?
      requires a.Enqueues? || a.Consumes? || a.Settles? || a.Process?
      requires a.Consumes? ==> queue != [] && queue[0] == id
      requires a.Settles? ==> log != [] && log[0].id == id
      requires a.Process? ==> a.process.NoticeBegin? || a.process.NoticeOk? || a.process.NoticeFail?
      modifies this, records.Values
      ensures Valid()
      ensures Do(old(View(id)), a) == Some(View(id))
      ensures forall j | j != id :: View(j) == old(View(j))
    {
      hide DoRun, DoCall, DoCancel, DoResume;
      match a
      case Enqueues(s) => ActEnqueue(id, s);
      case Consumes => var _ := Consume();
      case Settles(ok) => ActSettle(id, ok);
      case Process(s) => ActNotice(id, s);
    }

    /** The segments that can run now. */
    ghost predicate Enabled(id: Id, a: Action)
      reads this, records.Values
    {
      && Do(View(id), a).Some?
      && (a.Consumes? ==> queue != [] && queue[0] == id)
      && (a.Settles? ==> log != [] && log[0].id == id)
      && (a.Process? ==> a.process.NoticeBegin? || a.process.NoticeOk? || a.process.NoticeFail?)
    }

    method StepSafely(id: Id, a: Action)
      requires Valid() && Inv(View(id)) && Enabled(id, a)
      modifies this, records.Values
      ensures Valid()
      ensures Inv(View(id)) && Do(old(View(id)), a) == Some(View(id))
      ensures forall j | j != id :: View(j) == old(View(j))
    {
      ghost var l := View(id);
      Step(id, a);
      Keeps(l, a);
    }

    /**
     Whatever segment of whatever task runs next: that delegation makes the step of its life, every other
     stays as it was, and all of them keep the invariant.
     */
    method Act(id: Id, a: Action)
      requires Valid() && Safe() && Enabled(id, a)
      modifies this, records.Values
      ensures Valid() && Safe()
      ensures Do(old(View(id)), a) == Some(View(id))
      ensures forall j | j != id :: View(j) == old(View(j))
    {
      StepSafely(id, a);
      forall j ensures Inv(View(j)) {
        if j != id {
          assert Inv(old(View(j)));
        }
      }
    }

    /** A stop, a crash or a start moves every life at once. */
    method StepAll(u: Upheaval)
      requires Valid() && Possible(u) && forall id {:trigger Shape(View(id))} :: Shape(View(id))
      modifies this, records.Values
      ensures Valid()
      ensures forall id :: DoProcess(old(View(id)), StepOf(u, id)) == Some(View(id))
    {
      match u
      case StopBegins => StopBegin();
      case StopMarks => StopMark();
      case StopSweeps(failed, now, used) => StopSweep(failed, now, used);
      case Crashes => Crash();
      case Starts(failed, pruned, reread, now, used, recovered) => Start(failed, pruned, reread, now, used, recovered);
    }

    /** When the process can do it: the store is closed last, when nothing writes any more. */
    predicate Possible(u: Upheaval)
      reads `mode, `log, `asides
    {
      match u
      case StopBegins => mode.Live?
      case StopMarks => mode.Stopping?
      case StopSweeps(_, _, _) => mode.Stopped? && log == [] && forall id | id in asides :: !asides[id].creating
      case Crashes => true
      case Starts(_, _, _, _, _, _) => mode.Down?
    }

    /** Then every delegation makes the step of its life, and keeps its invariant. */
    method ActAll(u: Upheaval)
      requires Valid() && Safe() && Possible(u)
      modifies this, records.Values
      ensures Valid() && Safe()
      ensures forall id :: DoProcess(old(View(id)), StepOf(u, id)) == Some(View(id))
    {
      SafeIsShaped();
      StepAll(u);
      forall id ensures Inv(View(id)) {
        SafeStep(old(View(id)), StepOf(u, id), View(id));
      }
    }

    lemma {:induction false} SafeIsShaped()
      requires Safe()
      ensures forall id {:trigger Shape(View(id))} :: Shape(View(id))
    {
      forall id ensures Shape(View(id)) {
        assert Inv(View(id));
      }
    }

    method ActEnqueue(id: Id, s: EnqueueStep)
      requires Valid() && Inv(View(id)) && DoEnqueue(View(id), s).Some?
      modifies `asides, `broken, `records, `tasks, `queue
      ensures Valid()
      ensures DoEnqueue(old(View(id)), s) == Some(View(id))
      ensures forall j | j != id :: View(j) == old(View(j))
    {
      CountSome(queue, id);
      match s
      case CreateRow(max) => CreateRow(id, max);
      case CreateInMemory(max) => CreateInMemory(id, max);
      case Register => Register(id);
    }

    method ActCall(id: Id, c: nat, s: CallStep)
      requires Valid() && Inv(View(id)) && DoCall(View(id), c, s).Some?
      modifies `tasks, `answers, `log, `asides, `reserved, `queue, `handles, `lingering, records.Values
      ensures Valid()
      ensures DoCall(old(View(id)), c, s) == Some(View(id))
      ensures forall j | j != id :: View(j) == old(View(j))
    {
      assert Shape(View(id))
             && Reserved(View(id).desk, Up(View(id)), View(id).task.Some?, Doing(View(id)),
             Held(View(id).crew).Starting?);
      Continue(id, c, s);
    }

    method ActSettle(id: Id, ok: bool)
      requires Valid() && log != [] && log[0].id == id && DoSettle(View(id), ok).Some?
      modifies `log, `broken, `asides
      ensures DoSettle(old(View(id)), ok) == Some(View(id))
      ensures forall j | j != id :: View(j) == old(View(j))
    {
      if ok {
        var _ := SettleWell();
      } else {
        var _ := SettleBadly();
      }
    }

    method ActNotice(id: Id, s: ProcessStep)
      requires Valid() && DoProcess(View(id), s).Some? && (s.NoticeBegin? || s.NoticeOk? || s.NoticeFail?)
      modifies `asides, `tasks, `log, records.Values
      ensures Valid()
      ensures DoProcess(old(View(id)), s) == Some(View(id))
      ensures forall j | j != id :: View(j) == old(View(j))
    {
      match s
      case NoticeBegin => NoticeBegin(id);
      case NoticeOk => NoticeOk(id);
      case NoticeFail => NoticeFail(id);
    }
  }

  /** The runner that was held is done; the others run on. */
  predicate CutAt(before: Crew, after: Crew) {
    && after.handle.None? && after.lingering == before.lingering && |after.runners| == |before.runners|
    && (forall r | 0 <= r < |before.runners| ::
          after.runners[r] == if before.handle == Some(r) then Done else before.runners[r])
  }

  /**
   What a cancel says and does, by the status of the task: a result on its way is left alone; what waits
   for its parent is dismissed, and its result handed over; what is queued or runs is cut.
   */
  predicate CancelTold(l: Life, now: nat, outcome: Option<Cancellation>, m: Life) {
    && (outcome.None? <==> !l.live || l.task.None?)
    && (outcome == Some(Delivers) <==> IsLive(l, Delivering))
    && (outcome.Some? && outcome.value.Dismisses?
        <==> IsLive(l, AwaitingInput) || IsLive(l, DeliveryFailed) || IsLive(l, Interrupted))
    && (outcome.None? || outcome.value.Delivers? ==> m == l)
    && (outcome.Some? && outcome.value.Dismisses? && l.task.Some? ==>
          && outcome.value.result == l.task.value.result
          && m.task == Some(l.task.value.(status := Dismissed, notified := true))
          && !m.live && m.crew == l.crew && m.disk == Push(l.disk, WDismissed))
    && (outcome == Some(Cuts) && l.task.Some? ==>
          && m.task == Some(l.task.value.(status := Cancelled, finishedAt := Some(now)))
          && !m.live && CutAt(l.crew, m.crew) && m.desk.answer.None? && m.disk == Push(l.disk, WCancelled(now)))
  }

  lemma {:induction false} CancelAnswers(l: Life, now: nat)
    ensures !l.live || l.task.None? ==> CancelTold(l, now, None, l)
    ensures DoCancel(l, now).Some? ==>
              var m := DoCancel(l, now).GetOr(l);
              && (l.task.value.status.Delivering? ==> CancelTold(l, now, Some(Delivers), m))
              && (l.task.value.status.AwaitingInput? || l.task.value.status.DeliveryFailed?
                  || l.task.value.status.Interrupted? ==>
                    CancelTold(l, now, Some(Dismisses(l.task.value.result)), m))
              && (!l.task.value.status.Delivering? && !l.task.value.status.AwaitingInput?
                  && !l.task.value.status.DeliveryFailed? && !l.task.value.status.Interrupted? ==>
                    CancelTold(l, now, Some(Cuts), m))
  {
  }

  predicate Says(call: Call, outcome: Outcome) {
    call.Returned? && call.outcome == outcome
  }

  /** Everything that a resume asks for at once. */
  predicate Resumable(l: Life, refused: bool) {
    && IsLive(l, AwaitingInput) && l.desk.reservation.None? && !l.task.value.incomplete && !l.disk.broken
    && l.task.value.used < l.max && !refused && !l.mode.Stopped?
  }

  /** What a new call of resume is told, one line per case: it reserves the pause, or says why not. */
  predicate ResumeSays(l: Life, text: Text, refused: bool, call: Call) {
    && (call.Reopening? <==> Resumable(l, refused))
    && (call.Reopening? ==> call.answer == text && l.task.value.finishedAt in {None, Some(call.stamp)})
    && (Says(call, NotLive) <==> !l.live || l.task.None?)
    && (Says(call, NotAwaiting) <==> l.live && l.task.Some? && !Is(l, AwaitingInput))
    && (Says(call, AlreadyResuming) <==> IsLive(l, AwaitingInput) && l.desk.reservation.Some?)
    && (Says(call, TranscriptIncomplete) <==>
          IsLive(l, AwaitingInput) && l.desk.reservation.None? && (l.task.value.incomplete || l.disk.broken))
    && (Says(call, NoIterationsLeft) <==>
          IsLive(l, AwaitingInput) && l.desk.reservation.None? && !l.task.value.incomplete && !l.disk.broken
          && l.task.value.used >= l.max)
    && (Says(call, Refused) <==>
          IsLive(l, AwaitingInput) && l.desk.reservation.None? && !l.task.value.incomplete && !l.disk.broken
          && l.task.value.used < l.max && refused)
    && (Says(call, Unavailable) <==>
          IsLive(l, AwaitingInput) && l.desk.reservation.None? && !l.task.value.incomplete && !l.disk.broken
          && l.task.value.used < l.max && !refused && l.mode.Stopped?)
  }

  /** A resume adds one call, and a reservation exactly when it may go on. */
  lemma {:induction false} ResumeAnswers(l: Life, text: Text, refused: bool)
    requires Open(l)
    ensures DoResume(l, text, refused).Some?
    ensures var m := DoResume(l, text, refused).GetOr(l);
            && |m.desk.calls| == |l.desk.calls| + 1
            && m.desk.calls == l.desk.calls + [m.desk.calls[|l.desk.calls|]]
            && ResumeSays(l, text, refused, m.desk.calls[|l.desk.calls|])
            && m.desk.reservation == (if Resumable(l, refused) then Some(|l.desk.calls|) else l.desk.reservation)
            && m == l.(desk := l.desk.(calls := m.desk.calls, reservation := m.desk.reservation))
  {
  }

  function Besides(l: Life, a: Aside): Life {
    l.(born := a.born, max := a.max, clock := a.clock, creating := a.creating, noticing := a.noticing,
       crew := l.crew.(runners := a.runners),
       desk := l.desk.(calls := a.calls, taken := a.taken, dismissed := a.dismissed),
       disk := l.disk.(settled := a.settled, row := a.row, script := a.script),
       tally := a.tally)
  }

  function Purged(l: Life, ended: bool): Life {
    l.(live := l.live && !ended, desk := l.desk.(answer := if ended then None else l.desk.answer))
  }

  /** A note on the current pause, after which the runner only awaits its write. */
  function Mentioned(l: Life, r: nat, w: Write): Life
    requires r < |l.crew.runners| && l.task.Some?
  {
    Annotated(l, r, Apply(w, l.task.value), w)
  }

  lemma {:induction false} AskingEnds(l: Life, r: nat, pc: Pc)
    requires r < |l.crew.runners| && l.task.Some? && pc.Asking?
    ensures AtAsking(l, r, pc, Succeed) ==
            Some(if InPause(l, pc.stamp) then Mentioned(l, r, WNotified) else Go(l, r, Asked(0)))
    ensures forall last, error | pc.attempt >= DISPATCH_ATTEMPTS || last ::
              AtAsking(l, r, pc, Fail(last, error)) ==
              Some(if InPause(l, pc.stamp) then Mentioned(l, r, WError(error)) else Go(l, r, Asked(0)))
  {
  }

  /** A transcript that cannot be resumed: flagged, and the call awaits the write. */
  function FlaggedBy(l: Life, c: nat, stamp: nat): Life
    requires c < |l.desk.calls| && l.task.Some?
  {
    l.(task := Some(Apply(WIncomplete, l.task.value)), disk := Push(l.disk, WIncomplete),
       desk := l.desk.(calls := l.desk.calls[c := Flagging(stamp, NextTicket(l.disk))]))
  }

  /** What a pause changes before its transition. */
  lemma {:induction false} PauseIsTransition(l: Life, r: nat, pc: Pc, text: Text, question: Text)
    requires r < |l.crew.runners| && l.task.Some? && pc.Child? && DoPause(l, r, pc, text, question).Some?
    ensures var m := l.(task := Some(l.task.value.(question := Some(question))), clock := l.clock + 1,
                        tally := l.tally.(pauses := l.tally.pauses + 1),
                        disk := l.disk.(script := l.disk.script.(cut := false)));
            DoPause(l, r, pc, text, question) ==
            Some(Transition(m, m.task.value, WAwaiting(text, l.clock, pc.pre + pc.passes),
                            DelegationLife.Move(m.crew, r, Pausing(l.clock, NextTicket(m.disk)))))
  {
  }

  /** What a requeue changes before its transition. */
  lemma {:induction false} RequeueIsTransition(l: Life, c: nat, stamp: nat, text: Text)
    requires c < |l.desk.calls| && l.task.Some?
    ensures var m := l.(task := Some(l.task.value.(question := None)),
                        desk := l.desk.(answer := Some(DelegationLife.Answer(c, text, l.disk.script.said)),
                                        calls := l.desk.calls[c := Requeueing(stamp, NextTicket(l.disk))]),
                        tally := l.tally.(lost := if l.disk.broken then l.tally.lost + 1 else l.tally.lost),
                        crew := l.crew.(handle := None,
                                        lingering := if l.crew.handle.Some?
                                            then l.crew.lingering + {l.crew.handle.value}
                                                     else l.crew.lingering));
            Requeue(l, c, stamp, text) == Transition(m, m.task.value, WQueued, m.crew)
  {
  }

  lemma {:induction false} ReopeningEnds(l: Life, c: nat, call: Call, s: CallStep)
    requires c < |l.desk.calls| && l.task.Some? && call.Reopening? && AtReopening(l, c, call, s).Some?
    ensures AtReopening(l, c, call, s) ==
            Some(if s.StoreFailed? then Return(l, c, call.stamp, Unavailable)
                 else if !IsLive(l, AwaitingInput) then Return(l, c, call.stamp, NotAwaiting)
                 else if s.FoundInconsistent? then FlaggedBy(l, c, call.stamp)
                 else if l.mode.Stopped? then Return(l, c, call.stamp, Unavailable)
                 else Requeue(l, c, call.stamp, call.answer))
  {
  }

  function Ended(a: Aside): Aside {
    a.(runners := seq(|a.runners|, _ => Done))
  }

  function CutOffAll(l: Life): Life {
    l.(mode := Stopped, desk := l.desk.(answer := None), crew := Crew(seq(|l.crew.runners|, _ => Done), None, {}))
  }

  function MarkedTask(t: Option<Task>, live: bool): Option<Task> {
    if live && t.Some? && (t.value.status.Queued?
        || t.value.status.Running?) then Some(t.value.(status := Interrupted)) else t
  }

  function Swept(a: Aside, ok: bool, now: nat, used: nat): Aside {
    a.(row := if ok && a.row.Some? then Some(Sweep(a.row.value, now, used)) else a.row)
  }

  function Survives(a: Aside): Aside {
    Aside(a.born, a.max, a.clock, false, false, [], [], 0, a.row, a.script, [], {}, a.tally)
  }

  function Retains(a: Aside, pruned: bool): Aside {
    a.(row := if pruned && a.row.Some? && Prunable(a.row.value) then None else a.row)
  }

  /** A life without a process. */
  function Fresh(a: Aside): Life {
    Besides(UNBORN, a)
  }

  /** The life after a start, from its aside. */
  function Started(a: Aside, reread: bool, recovered: Option<Text>): Life {
    Fresh(a).(mode := Live, live := reread && Loads(a.row),
              task := if reread && Loads(a.row) then Some(Loaded(a.row.value, recovered)) else None)
  }

  lemma {:induction false} SurvivorIsRemains(l: Life, a: Aside)
    requires l == Besides(l, a)
    ensures DoProcess(l, ProcessStep.Crash) == Some(Fresh(Survives(a)))
  {
  }

  lemma {:induction false} StartIsRestart(a: Aside, swept: bool, pruned: bool, reread: bool, now: nat, used: nat,
                                          recovered: Option<Text>)
    ensures DoProcess(Fresh(a), Restart(swept, pruned, reread, now, used, recovered))
         == Some(Started(Retains(Swept(a, swept, now, used), pruned), reread, recovered))
  {
  }

  predicate Loads(row: Option<Task>) {
    row.Some? && Pending(row.value)
  }

  function Loaded(row: Task, recovered: Option<Text>): Task {
    if row.status.AwaitingInput? then row.(question := recovered) else row
  }

  /** The three parts of a transition, one after the other. */
  lemma {:induction false} PurgedIsTransition(l: Life, w: Write)
    requires l.task.Some?
    ensures var t := Apply(w, l.task.value);
            Transition(l, l.task.value, w, l.crew) ==
            Purged(l.(task := Some(t)), Terminal(t.status)).(disk := Push(l.disk, w))
  {
  }

  /** What happens to the process as a whole. */
  datatype Upheaval =
    | StopBegins | StopMarks | StopSweeps(failed: set<Id>, now: nat, used: map<Id, nat>)
    | Crashes
    | Starts(failed: set<Id>, pruned: set<Id>, reread: bool, now: nat, used: map<Id, nat>, recovered: map<Id, Text>)

  /** What it means for one task. */
  function StepOf(u: Upheaval, id: Id): ProcessStep {
    match u
    case StopBegins => ProcessStep.StopBegin
    case StopMarks => ProcessStep.StopMark
    case StopSweeps(failed, now, used) => ProcessStep.StopSweep(id !in failed, now, Get(used, id, 0))
    case Crashes => ProcessStep.Crash
    case Starts(failed, pruned, reread, now, used, recovered) =>
      Restart(id !in failed, id in pruned, reread, now, Get(used, id, 0), Find(recovered, id))
  }

  lemma {:induction false} SafeStep(l: Life, s: ProcessStep, m: Life)
    requires Inv(l) && DoProcess(l, s) == Some(m)
    ensures Inv(m)
  {
    ProcessKeeps(l, s);
  }
}
