/**
 When exactly can a parent receive two final results? A resume whose requeue never reached the store
 leaves the pause on disk; a restart brings it back. This module finds the exact condition.
 */
module DelegationReplay {
  import opened Wrappers
  import opened DelegationLife
  import opened DelegationInvariant
  import opened DelegationProof

  // ---------------------------------------------------------------------------
  // What a pause left on disk is worth
  // ---------------------------------------------------------------------------

  predicate NoMarkPending(writes: seq<Write>) {
    forall i | 0 <= i < |writes| :: !writes[i].WIncomplete?
  }

  /** Every pause that a store holds or will hold leaves budget. */
  predicate Affordable(max: nat, row: Option<Task>, writes: seq<Write>) {
    && (RowAwaits(row) ==> row.value.used < max)
    && (forall i | 0 <= i < |writes| :: writes[i].WAwaiting? ==> writes[i].used < max)
  }

  /** A transcript flagged on disk is flagged in memory. */
  predicate Flagged(task: Option<Task>, row: Option<Task>, writes: seq<Write>) {
    task.Some? && ((row.Some? && row.value.incomplete) || !NoMarkPending(writes)) ==> task.value.incomplete
  }

  /** A resume in flight reserved a whole transcript. */
  predicate Reopens(desk: Desk, task: Option<Task>, doing: Option<Status>) {
    (desk.reservation.Some? && desk.reservation.value < |desk.calls| && desk.calls[desk.reservation.value].Reopening?
     && doing == Some(AwaitingInput) && task.Some?) ==> !task.value.incomplete
  }

  /** A phase is under way. */
  predicate Beyond(up: bool, doing: Option<Status>) {
    up && (doing == Some(Queued) || doing == Some(Running) || doing == Some(Delivering))
  }

  /** A pause on disk behind a phase under way: still whole, and the store lost the requeue. */
  predicate Left(d: Disk, beyond: bool) {
    beyond && !NoPauseOnDisk(d) ==>
      && (d.row.Some? ==> !d.row.value.incomplete) && NoMarkPending(d.writes)
      && (NoRequeuePending(d.writes) ==> d.broken)
  }

  predicate TicketsIssued(crew: Crew, desk: Desk, d: Disk) {
    && (forall r | 0 <= r < |crew.runners| ::
          Awaits(crew.runners[r]).Some? ==> Awaits(crew.runners[r]).value <= d.settled + |d.writes|)
    && (forall c | 0 <= c < |desk.calls| ::
          CallAwaits(desk.calls[c]).Some? ==> CallAwaits(desk.calls[c]).value <= d.settled + |d.writes|)
  }

  /** An answer waits only behind the transcript that was reopened for it. */
  predicate Intact(desk: Desk, script: Script) {
    desk.answer.Some? ==> Sound(script)
  }

  predicate Rev(l: Life) {
    && Affordable(l.max, l.disk.row, l.disk.writes)
    && Flagged(l.task, l.disk.row, l.disk.writes)
    && Reopens(l.desk, l.task, Doing(l))
    && Left(l.disk, Beyond(Up(l), Doing(l)))
    && TicketsIssued(l.crew, l.desk, l.disk)
    && Intact(l.desk, l.disk.script)
  }

  lemma {:induction false} EnqueueKeepsRev(l: Life, s: EnqueueStep)
    requires Shape(l) && Rev(l) && DoEnqueue(l, s).Some?
    ensures Rev(DoEnqueue(l, s).GetOr(l))
  {
  }

  lemma {:induction false} ConsumeKeepsRev(l: Life)
    requires Rev(l) && DoConsume(l).Some?
    ensures Rev(DoConsume(l).GetOr(l))
  {
  }

  /** A write that says nothing of pauses, requeues or marks. */
  lemma NoteKeepsLeft(d: Disk, w: Write, beyond: bool)
    requires Left(d, beyond) && !w.WAwaiting? && !w.WIncomplete? && !w.WQueued?
    ensures Left(d.(writes := d.writes + [w]), beyond)
  {
    var more := d.writes + [w];
    assert forall i | 0 <= i < |d.writes| :: more[i] == d.writes[i];
    assert NoPausePending(d.writes) ==> NoPausePending(more);
    assert NoRequeuePending(more) ==> NoRequeuePending(d.writes);
  }

  /** A transition that says nothing of pauses or marks. */
  lemma {:induction false} TransitionKeepsRev(l: Life, t: Task, w: Write, crew: Crew)
    requires Rev(l) && l.task.Some?
    requires !w.WAwaiting? && !w.WIncomplete? && !w.WQueued?
    requires t.incomplete == l.task.value.incomplete
    requires Apply(w, t).status != AwaitingInput
    requires Beyond(Up(l), Some(Apply(w, t).status)) ==> Beyond(Up(l), Doing(l)) || NoPauseOnDisk(l.disk)
    requires forall r | 0 <= r < |crew.runners| :: Awaits(crew.runners[r]).Some? ==>
               Awaits(crew.runners[r]).value <= NextTicket(l.disk) || (r < |l.crew.runners|
                   && l.crew.runners[r] == crew.runners[r])
    ensures Rev(Transition(l, t, w, crew))
  {
    var more := l.disk.writes + [w];
    assert forall i | 0 <= i < |l.disk.writes| :: more[i] == l.disk.writes[i];
    assert NoPausePending(l.disk.writes) ==> NoPausePending(more);
    assert NoRequeuePending(more) ==> NoRequeuePending(l.disk.writes);
  }

  lemma {:induction false} SettleKeepsLeft(d: Disk, ok: bool, e: Disk, beyond: bool)
    requires Left(d, beyond) && Ordered(d.writes) && d.writes != []
    requires e.writes == d.writes[1..]
    requires e.broken == if ok then d.broken else d.broken || Hard(d.writes[0])
    requires e.row == if ok && d.row.Some? then Some(Apply(d.writes[0], d.row.value)) else if ok then None else d.row
    ensures Left(e, beyond)
  {
  }

  lemma {:induction false} SettleKeepsRev(l: Life, ok: bool)
    requires Ordered(l.disk.writes) && Rev(l) && DoSettle(l, ok).Some?
    ensures Rev(DoSettle(l, ok).GetOr(l))
  {
    SettleKeepsLeft(l.disk, ok, DoSettle(l, ok).value.disk, Beyond(Up(l), Doing(l)));
  }

  lemma {:induction false} DismissKeepsRev(l: Life)
    requires Rev(l) && l.task.Some?
    ensures Rev(Transition(Dismissing(l), l.task.value, WDismissed, l.crew))
  {
    hide CrewInv;
    TransitionKeepsRev(Dismissing(l), l.task.value, WDismissed, l.crew);
  }

  lemma {:induction false} CutKeepsRev(l: Life, now: nat)
    requires Rev(l) && l.task.Some?
    ensures Rev(Transition(l, l.task.value, WCancelled(now), Cut(l.crew)))
  {
    TransitionKeepsRev(l, l.task.value, WCancelled(now), Cut(l.crew));
  }

  lemma {:induction false} CancelKeepsRev(l: Life, now: nat)
    requires Rev(l) && DoCancel(l, now).Some?
    ensures Rev(DoCancel(l, now).GetOr(l))
  {
    var s := l.task.value.status;
    if Resting(s) {
      DismissKeepsRev(l);
    } else if !s.Delivering? {
      CutKeepsRev(l, now);
    }
  }

  lemma {:induction false} RejectionKeepsRev(l: Life, c: Call)
    requires Rev(l) && c.Returned?
    requires l.desk.reservation.Some? ==> l.desk.reservation.value < |l.desk.calls|
    ensures Rev(NewCall(l, c))
  {
  }

  lemma {:induction false} ReservationKeepsRev(l: Life, c: Call)
    requires Rev(l) && c.Reopening? && l.task.Some? && !l.task.value.incomplete
    ensures Rev(l.(desk := l.desk.(calls := l.desk.calls + [c], reservation := Some(|l.desk.calls|))))
  {
  }

  lemma {:induction false} ResumeKeepsRev(l: Life, text: Text, refused: bool)
    requires Reserved(l.desk, Up(l), l.task.Some?, Doing(l), Held(l.crew).Starting?)
    requires Rev(l) && DoResume(l, text, refused).Some?
    ensures Rev(DoResume(l, text, refused).GetOr(l))
  {
    match RejectsResume(l, refused)
    case Some(call) => RejectionKeepsRev(l, call);
    case None => ReservationKeepsRev(l, Reopening(if l.task.value.finishedAt.Some?
        then l.task.value.finishedAt.value else 0, text));
  }

  lemma {:induction false} ReturnKeepsRev(l: Life, c: nat, stamp: nat, outcome: Outcome)
    requires Rev(l) && c < |l.desk.calls|
    ensures Rev(Return(l, c, stamp, outcome))
  {
  }

  lemma {:induction false} RequeueKeepsRev(l: Life, c: nat, stamp: nat, text: Text)
    requires Rev(l) && c < |l.desk.calls| && l.desk.calls[c].Reopening? && l.desk.reservation == Some(c)
    requires IsLive(l, AwaitingInput) && Sound(l.disk.script)
    ensures Rev(Requeue(l, c, stamp, text))
  {
    if !l.disk.broken {
      assert Requeue(l, c, stamp, text).disk.writes[|l.disk.writes|].WQueued?;
    }
  }

  lemma {:induction false} FlagKeepsTickets(l: Life, c: nat)
    requires TicketsIssued(l.crew, l.desk, l.disk) && c < |l.desk.calls| && l.desk.calls[c].Reopening?
    requires AtReopening(l, c, l.desk.calls[c], FoundInconsistent).Some?
    ensures var m := AtReopening(l, c, l.desk.calls[c], FoundInconsistent).GetOr(l);
            TicketsIssued(m.crew, m.desk, m.disk)
  {
    hide Apply;
  }

  lemma {:induction false} FlagKeepsLeft(l: Life, c: nat)
    requires Left(l.disk, Beyond(Up(l), Doing(l))) && c < |l.desk.calls| && l.desk.calls[c].Reopening?
    requires AtReopening(l, c, l.desk.calls[c], FoundInconsistent).Some?
    ensures var m := AtReopening(l, c, l.desk.calls[c], FoundInconsistent).GetOr(l);
            Left(m.disk, Beyond(Up(m), Doing(m)))
  {
  }

  lemma {:induction false} FlagKeepsRev(l: Life, c: nat, answer: Text)
    requires Rev(l) && c < |l.desk.calls| && l.desk.calls[c].Reopening? && l.desk.reservation == Some(c)
    requires AtReopening(l, c, l.desk.calls[c], FoundInconsistent).Some?
    ensures Rev(AtReopening(l, c, l.desk.calls[c], FoundInconsistent).GetOr(l))
  {
    FlagKeepsTickets(l, c);
    FlagKeepsLeft(l, c);
  }

  lemma {:induction false} CallKeepsRev(l: Life, c: nat, s: CallStep)
    requires Inv(l) && Rev(l) && DoCall(l, c, s).Some?
    ensures Rev(DoCall(l, c, s).GetOr(l))
  {
    hide DiskInv, Owned, Placed;
    var call := l.desk.calls[c];
    match call
    case Reopening(stamp, text) =>
      if s.StoreFailed? {
        ReturnKeepsRev(l, c, stamp, Unavailable);
      } else if s.FoundInconsistent? {
        FlagKeepsRev(l, c, text);
      } else if !IsLive(l, AwaitingInput) {
        ReturnKeepsRev(l, c, stamp, NotAwaiting);
      } else if l.mode.Stopped? {
        ReturnKeepsRev(l, c, stamp, Unavailable);
      } else {
        RequeueKeepsRev(l, c, stamp, text);
      }
    case Flagging(stamp, _) => ReturnKeepsRev(l, c, stamp, TranscriptIncomplete);
    case Requeueing(stamp, _) => ReturnKeepsRev(l, c, stamp, if IsLive(l, Queued) then Resumed else NotAwaiting);
  }

  lemma {:induction false} NoticeKeepsRev(l: Life, s: ProcessStep)
    requires Rev(l) && DoProcess(l, s).Some? && (s.NoticeBegin? || s.NoticeOk? || s.NoticeFail?)
    ensures Rev(DoProcess(l, s).GetOr(l))
  {
    NoteKeepsLeft(l.disk, WNoticed, Beyond(Up(l), Doing(l)));
    var more := l.disk.writes + [WNoticed];
    assert forall i | 0 <= i < |l.disk.writes| :: more[i] == l.disk.writes[i];
  }

  lemma {:induction false} StopKeepsRev(l: Life, s: ProcessStep)
    requires Rev(l) && DoProcess(l, s).Some? && (s.StopBegin? || s.StopMark?)
    ensures Rev(DoProcess(l, s).GetOr(l))
  {
  }

  lemma {:induction false} SweepKeepsRev(l: Life, s: ProcessStep)
    requires Rev(l) && DoProcess(l, s).Some? && (s.StopSweep? || s.Crash?)
    ensures Rev(DoProcess(l, s).GetOr(l))
  {
  }

  lemma {:induction false} StartKeepsAwaiting(row: Task, now: nat, used: nat)
    ensures RowAwaits(Some(Sweep(row, now, used))) ==> Sweep(row, now, used) == row
    ensures Sweep(row, now, used).incomplete == row.incomplete
  {
  }

  lemma {:induction false} ProcessKeepsRev(l: Life, s: ProcessStep)
    requires Shape(l) && Rev(l) && DoProcess(l, s).Some?
    ensures Rev(DoProcess(l, s).GetOr(l))
  {
    hide Rev;
    match s
    case Restart(swept, pruned, reread, now, used, recovered) =>
      if l.disk.row.Some? {
        StartKeepsAwaiting(l.disk.row.value, now, used);
      }
      RestartKeepsRev(l, swept, pruned, reread, now, used, recovered);
    case StopSweep(_, _, _) => SweepKeepsRev(l, s);
    case Crash => SweepKeepsRev(l, s);
    case StopBegin => StopKeepsRev(l, s);
    case StopMark => StopKeepsRev(l, s);
    case _ => NoticeKeepsRev(l, s);
  }

  lemma {:induction false} RestartKeepsRev(l: Life, swept: bool, pruned: bool, reread: bool, now: nat, used: nat,
                                           recovered: Option<Text>)
    requires Shape(l) && Rev(l) && l.mode.Down?
    ensures Rev(DoRestart(l, swept, pruned, reread, now, used, recovered))
  {
    assert l.disk.writes == [] && l.crew == NO_CREW && l.desk == NO_DESK;
  }

  lemma {:induction false} SpeakingKeepsRev(l: Life, r: nat, pc: Pc, more: nat, saved: bool, talk: Talk, script: Script)
    requires Rev(l) && r < |l.crew.runners| && pc.Child? && l.desk.answer.None?
    ensures Rev(Voiced(l, r, pc, more, saved, talk, script))
  {
  }

  lemma {:induction false} MarkKeepsRev(l: Life, r: nat, exhausted: bool)
    requires Inv(l) && Rev(l) && Up(l) && r < |l.crew.runners| && l.task.Some? && l.crew.runners[r].Child?
    requires AtChild(l, r, l.crew.runners[r], Mark(exhausted)).Some?
    ensures Rev(AtChild(l, r, l.crew.runners[r], Mark(exhausted)).GetOr(l))
  {
  }

  lemma {:induction false} PauseKeepsRev(l: Life, r: nat, pc: Pc, text: Text, question: Text)
    requires Rev(l) && r < |l.crew.runners| && l.task.Some? && pc.Child? && l.desk.reservation.None?
    requires DoPause(l, r, pc, text, question).Some?
    ensures Rev(DoPause(l, r, pc, text, question).GetOr(l))
  {
  }

  lemma {:induction false} ChildKeepsRev(l: Life, r: nat, pc: Pc, s: RunStep)
    requires Inv(l) && Rev(l) && Up(l) && r < |l.crew.runners| && l.task.Some? && l.crew.runners[r] == pc && pc.Child?
    requires AtChild(l, r, pc, s).Some?
    ensures Rev(AtChild(l, r, pc, s).GetOr(l))
  {
    hide Rev;
    match s
    case Note(saved, cut, rest) =>
      SpeakingKeepsRev(l, r, pc, 0, saved, if rest then Called else Owed, Noted(l.disk.script, cut));
    case Pass(saved, cut, final) =>
      SpeakingKeepsRev(l, r, pc, 1, saved, if final then Final else Called, Said(l.disk.script, cut, final));
    case Close(saved, cut) => SpeakingKeepsRev(l, r, pc, 0, saved, Concluded, Said(l.disk.script, cut, true));
    case Mark(exhausted) => MarkKeepsRev(l, r, exhausted);
    case Finish(text, now, exhausted) => RunTransitionKeepsRev(l, r, WDelivering(text, now, Used(l, pc, exhausted)),
        Handing(NextTicket(l.disk)));
    case Rescue(text, now) => RunTransitionKeepsRev(l, r, WDelivering(text, now, l.task.value.used),
        Handing(NextTicket(l.disk)));
    case Pause(text, question) => PauseKeepsRev(l, r, pc, text, question);
  }

  lemma {:induction false} MoveKeepsRev(l: Life, r: nat, pc: Pc)
    requires Rev(l) && r < |l.crew.runners|
    requires Awaits(pc).Some? ==> Awaits(pc).value <= l.disk.settled + |l.disk.writes|
    ensures Rev(Go(l, r, pc))
  {
  }

  /** A runner closes a delivery or hands a result over. */
  lemma {:induction false} RunTransitionKeepsRev(l: Life, r: nat, w: Write, pc: Pc)
    requires Rev(l) && l.task.Some? && r < |l.crew.runners|
    requires w.WFailed? || w.WDelivered? || (Beyond(Up(l), Doing(l)) && (w.WDelivering? || w.WRunning?))
    requires Awaits(pc) == Some(NextTicket(l.disk))
    ensures Rev(Transition(l, l.task.value, w, Move(l.crew, r, pc)))
  {
    TransitionKeepsRev(l, l.task.value, w, Move(l.crew, r, pc));
  }

  lemma {:induction false} StartKeepsRev(l: Life, r: nat, ticket: nat)
    requires Rev(l) && l.task.Some? && r < |l.crew.runners| && AtStarting(l, r, ticket).Some?
    ensures Rev(AtStarting(l, r, ticket).GetOr(l))
  {
  }

  lemma {:induction false} DegradeKeepsRev(l: Life, r: nat, text: Text, now: nat)
    requires Inv(l) && Rev(l) && Up(l) && l.task.Some? && r < |l.crew.runners| && l.crew.runners[r].Pausing?
    requires AtPausing(l, r, l.crew.runners[r], Degrade(text, now)).Some?
    ensures Rev(AtPausing(l, r, l.crew.runners[r], Degrade(text, now)).GetOr(l))
  {
    TransitionKeepsRev(l, l.task.value.(question := None), WDelivering(text, now, l.task.value.used),
                       Move(l.crew, r, Handing(NextTicket(l.disk))));
  }

  lemma {:induction false} NoteKeepsRev(l: Life, r: nat, t: Task, w: Write)
    requires Rev(l) && l.task.Some? && r < |l.crew.runners| && (w.WNotified? || w.WError?)
    requires t.incomplete == l.task.value.incomplete && t.status == l.task.value.status
    ensures Rev(Annotated(l, r, t, w))
  {
    NoteKeepsLeft(l.disk, w, Beyond(Up(l), Doing(l)));
    var more := l.disk.writes + [w];
    assert forall i | 0 <= i < |l.disk.writes| :: more[i] == l.disk.writes[i];
  }

  lemma {:induction false} AskingKeepsRev(l: Life, r: nat, pc: Pc, s: RunStep)
    requires Rev(l) && l.task.Some? && r < |l.crew.runners| && pc.Asking? && AtAsking(l, r, pc, s).Some?
    ensures Rev(AtAsking(l, r, pc, s).GetOr(l))
  {
    hide Rev;
    match s
    case Succeed =>
      if InPause(l, pc.stamp) {
        NoteKeepsRev(l, r, l.task.value.(notified := true), WNotified);
      } else {
        MoveKeepsRev(l, r, Pc.Asked(0));
      }
    case Fail(last, error) =>
      if pc.attempt < DISPATCH_ATTEMPTS && !last {
        MoveKeepsRev(l, r, Asking(pc.stamp, pc.attempt + 1));
      } else if InPause(l, pc.stamp) {
        NoteKeepsRev(l, r, l.task.value.(error := Some(error)), WError(error));
      } else {
        MoveKeepsRev(l, r, Pc.Asked(0));
      }
    case Raise(_) => MoveKeepsRev(l, r, Done);
  }

  lemma {:induction false} DispatchingKeepsRev(l: Life, r: nat, pc: Pc, s: RunStep)
    requires Rev(l) && l.task.Some? && r < |l.crew.runners| && pc.Dispatching? && AtDispatching(l, r, pc, s).Some?
    ensures Rev(AtDispatching(l, r, pc, s).GetOr(l))
  {
    match s
    case Succeed => MoveKeepsRev(l, r, Dispatched);
    case Fail(last, error) =>
      if pc.attempt < DISPATCH_ATTEMPTS && !last {
        MoveKeepsRev(l, r, Dispatching(pc.attempt + 1));
      } else {
        RunTransitionKeepsRev(l, r, WFailed(error), Closing(NextTicket(l.disk)));
      }
  }

  lemma {:induction false} MarkingKeepsRev(l: Life, r: nat, pc: Pc, s: RunStep)
    requires Rev(l) && l.task.Some? && r < |l.crew.runners| && pc.Marking? && AtMarking(l, r, pc, s).Some?
    requires Beyond(Up(l), Doing(l))
    ensures Rev(AtMarking(l, r, pc, s).GetOr(l))
  {
    var used := if s.Finish? then pc.used else l.task.value.used;
    RunTransitionKeepsRev(l, r, WDelivering(s.text, s.now, used), Handing(NextTicket(l.disk)));
  }

  lemma {:induction false} WaitingKeepsRev(l: Life, r: nat)
    requires Inv(l) && Rev(l) && Up(l) && r < |l.crew.runners| && l.task.Some? && l.crew.runners[r].Waiting?
    ensures Rev(AtWaiting(l, r))
  {
    if l.live {
      RunTransitionKeepsRev(l, r, WRunning, Starting(NextTicket(l.disk)));
    } else {
      MoveKeepsRev(l, r, Done);
    }
  }

  lemma {:induction false} PausingKeepsRev(l: Life, r: nat, s: RunStep)
    requires Inv(l) && Rev(l) && Up(l) && l.task.Some? && r < |l.crew.runners| && l.crew.runners[r].Pausing?
    requires AtPausing(l, r, l.crew.runners[r], s).Some?
    ensures Rev(AtPausing(l, r, l.crew.runners[r], s).GetOr(l))
  {
    hide Inv, Rev;
    match s
    case Degrade(text, now) => DegradeKeepsRev(l, r, text, now);
    case Proceed => MoveKeepsRev(l, r, Asking(l.crew.runners[r].stamp, 1));
  }

  lemma {:induction false} DispatchedKeepsRev(l: Life, r: nat, s: RunStep)
    requires Rev(l) && l.task.Some? && r < |l.crew.runners| && AtDispatched(l, r, s).Some?
    ensures Rev(AtDispatched(l, r, s).GetOr(l))
  {
    RunTransitionKeepsRev(l, r, if s.Proceed? then WDelivered else WFailed(s.error), Closing(NextTicket(l.disk)));
  }

  lemma {:induction false} MoverKeepsRev(l: Life, r: nat, s: RunStep)
    requires Rev(l) && DoRun(l, r, s).Some?
    requires var pc := l.crew.runners[r]; pc.Asked? || pc.Handing? || pc.Closing? || pc.Done?
    ensures Rev(DoRun(l, r, s).GetOr(l))
  {
    hide AtAsking, AtPausing, AtDispatching, AtMarking;
    var pc := l.crew.runners[r];
    if pc.Asked? || pc.Closing? {
      MoveKeepsRev(l, r, Done);
    } else if pc.Handing? {
      MoveKeepsRev(l, r, Dispatching(1));
    }
  }

  lemma {:induction false} DispatcherKeepsRev(l: Life, r: nat, s: RunStep)
    requires Inv(l) && Rev(l) && DoRun(l, r, s).Some?
    requires var pc := l.crew.runners[r]; pc.Marking? || pc.Dispatching? || pc.Dispatched?
    ensures Rev(DoRun(l, r, s).GetOr(l))
  {
    hide DiskInv, Reserved, Stamped;
    var pc := l.crew.runners[r];
    match pc
    case Marking(_, _) => MarkingKeepsRev(l, r, pc, s);
    case Dispatching(_) => DispatchingKeepsRev(l, r, pc, s);
    case Dispatched => DispatchedKeepsRev(l, r, s);
  }

  lemma {:induction false} RunKeepsRev(l: Life, r: nat, s: RunStep)
    requires Inv(l) && Rev(l) && DoRun(l, r, s).Some?
    ensures Rev(DoRun(l, r, s).GetOr(l))
  {
    hide AtChild, AtPausing, AtAsking, AtDispatching, DiskInv, Reserved, Stamped;
    var pc := l.crew.runners[r];
    if pc.Waiting? {
      WaitingKeepsRev(l, r);
    } else if pc.Starting? {
      StartKeepsRev(l, r, pc.ticket);
    } else if pc.Child? {
      ChildKeepsRev(l, r, pc, s);
    } else if pc.Pausing? {
      PausingKeepsRev(l, r, s);
    } else if pc.Asking? {
      AskingKeepsRev(l, r, pc, s);
    } else if pc.Marking? || pc.Dispatching? || pc.Dispatched? {
      DispatcherKeepsRev(l, r, s);
    } else {
      MoverKeepsRev(l, r, s);
    }
  }

  lemma {:induction false} KeepsRev(l: Life, a: Action)
    requires Inv(l) && Rev(l) && Do(l, a).Some?
    ensures Rev(Do(l, a).GetOr(l))
  {
    hide DoRun, DoCall, DoCancel, DoSettle, DoProcess;
    match a
    case Enqueues(s) => EnqueueKeepsRev(l, s);
    case Consumes => ConsumeKeepsRev(l);
    case Runs(r, s) => RunKeepsRev(l, r, s);
    case Cancels(now) => CancelKeepsRev(l, now);
    case ColdDismisses =>
    case Resumes(text, refused) => ResumeKeepsRev(l, text, refused);
    case Calls(c, s) => CallKeepsRev(l, c, s);
    case Settles(ok) => SettleKeepsRev(l, ok);
    case Process(s) => ProcessKeepsRev(l, s);
  }

  lemma {:induction false} PlayKeepsRev(l: Life, run: seq<Action>)
    requires Inv(l) && Rev(l) && Play(l, run).Some?
    ensures Rev(Play(l, run).GetOr(l))
    decreases |run|
  {
    hide Do, DiskInv, Reserved, Stamped;
    if run != [] {
      Keeps(l, run[0]);
      KeepsRev(l, run[0]);
      PlayKeepsRev(Do(l, run[0]).value, run[1..]);
    }
  }
}
