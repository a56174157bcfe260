/** One lemma per kind of step: it keeps the invariant. */
module DelegationSteps {
  import opened Wrappers
  import opened DelegationLife
  import opened DelegationInvariant

  lemma RowIsCreated(l: Life, max: nat)
    requires Inv(l)
    requires DoEnqueue(l, CreateRow(max)).Some?
    ensures Inv(DoEnqueue(l, CreateRow(max)).GetOr(l))
  {
    hide Reserved, Stamped, Questioned;
  }

  lemma MemoryTaskIsCreated(l: Life, max: nat)
    requires Inv(l)
    requires DoEnqueue(l, CreateInMemory(max)).Some?
    ensures Inv(DoEnqueue(l, CreateInMemory(max)).GetOr(l))
  {
  }

  lemma TaskIsRegistered(l: Life)
    requires Inv(l)
    requires DoEnqueue(l, Register).Some?
    ensures Inv(DoEnqueue(l, Register).GetOr(l))
  {
  }

  lemma ConsumerTakesEntryCrew(l: Life)
    requires CrewInv(l)
    requires DoConsume(l).Some?
    ensures CrewInv(DoConsume(l).GetOr(l))
  {
    hide DiskInv, Reserved, Stamped;
  }

  lemma ConsumerTakesEntryDisk(l: Life)
    requires Inv(l)
    requires DoConsume(l).Some?
    ensures DiskInv(DoConsume(l).GetOr(l))
  {
    hide Reserved, Stamped, Questioned;
  }

  lemma RunnerEntersCrew(l: Life, r: nat)
    requires CrewInv(l)
    requires r < |l.crew.runners| && l.task.Some? && Up(l) && l.crew.runners[r].Waiting?
    ensures CrewInv(AtWaiting(l, r))
  {
  }

  lemma RunnerEntersDisk(l: Life, r: nat)
    requires Inv(l)
    requires r < |l.crew.runners| && l.task.Some? && Up(l) && l.crew.runners[r].Waiting?
    ensures DiskInv(AtWaiting(l, r))
  {
    hide Reserved, Stamped, Questioned;
  }

  lemma ChildStartsOrder(l: Life, r: nat)
    requires Inv(l)
    requires r < |l.crew.runners| && l.task.Some? && Up(l) && l.crew.runners[r].Starting?
             && AtStarting(l, r, l.crew.runners[r].ticket).Some?
    ensures OrderInv(AtStarting(l, r, l.crew.runners[r].ticket).GetOr(l))
  {
    hide Reserved, Stamped, Questioned;
  }

  lemma ChildStartsAccount(l: Life, r: nat)
    requires Inv(l)
    requires r < |l.crew.runners| && l.task.Some? && Up(l) && l.crew.runners[r].Starting?
             && AtStarting(l, r, l.crew.runners[r].ticket).Some?
    ensures AccountInv(AtStarting(l, r, l.crew.runners[r].ticket).GetOr(l))
  {
    hide Lined;
  }

  lemma ChildStartsDisk(l: Life, r: nat)
    requires Inv(l)
    requires r < |l.crew.runners| && l.task.Some? && Up(l) && l.crew.runners[r].Starting?
             && AtStarting(l, r, l.crew.runners[r].ticket).Some?
    ensures DiskInv(AtStarting(l, r, l.crew.runners[r].ticket).GetOr(l))
  {
    ChildStartsOrder(l, r);
    ChildStartsAccount(l, r);
  }

  lemma ChildSpeaksCrew(l: Life, r: nat, more: nat, saved: bool, talk: Talk, script: Script)
    requires CrewInv(l)
    requires r < |l.crew.runners| && l.task.Some? && Up(l) && l.crew.runners[r].Child?
    ensures CrewInv(Voiced(l, r, l.crew.runners[r], more, saved, talk, script))
  {
    hide DiskInv, Reserved, Stamped;
  }

  lemma ChildSpeaksDisk(l: Life, r: nat, more: nat, saved: bool, talk: Talk, script: Script)
    requires Inv(l)
    requires r < |l.crew.runners| && l.task.Some? && Up(l) && l.crew.runners[r].Child?
    requires more == 0 || l.crew.runners[r].passes + more <= l.crew.runners[r].budget
    requires talk.Final? ==> more > 0
    ensures DiskInv(Voiced(l, r, l.crew.runners[r], more, saved, talk, script))
  {
  }

  lemma TranscriptIsMarkedCrew(l: Life, r: nat, exhausted: bool)
    requires CrewInv(l)
    requires r < |l.crew.runners| && l.task.Some? && Up(l) && l.crew.runners[r].Child?
    requires AtChild(l, r, l.crew.runners[r], Mark(exhausted)).Some?
    ensures CrewInv(AtChild(l, r, l.crew.runners[r], Mark(exhausted)).GetOr(l))
  {
    hide DiskInv, Reserved, Stamped;
  }

  lemma TranscriptIsMarkedDisk(l: Life, r: nat, exhausted: bool)
    requires Inv(l)
    requires r < |l.crew.runners| && l.task.Some? && Up(l) && l.crew.runners[r].Child?
    requires AtChild(l, r, l.crew.runners[r], Mark(exhausted)).Some?
    ensures DiskInv(AtChild(l, r, l.crew.runners[r], Mark(exhausted)).GetOr(l))
  {
    hide Apply;
  }

  lemma ResultIsHandedOverCrew(l: Life, r: nat, text: Text, now: nat, used: nat)
    requires CrewInv(l)
    requires r < |l.crew.runners| && l.task.Some? && Up(l) && (l.crew.runners[r].Child? || l.crew.runners[r].Marking?)
    ensures CrewInv(Deliver(l, r, text, now, used))
  {
  }

  lemma ResultIsHandedOverOrder(l: Life, r: nat, text: Text, now: nat, used: nat)
    requires Inv(l)
    requires r < |l.crew.runners| && l.task.Some? && Up(l) && (l.crew.runners[r].Child? || l.crew.runners[r].Marking?)
    ensures OrderInv(Deliver(l, r, text, now, used))
  {
    hide Reserved, Stamped, Questioned;
  }

  lemma ResultIsHandedOverAccount(l: Life, r: nat, text: Text, now: nat, used: nat)
    requires Inv(l)
    requires r < |l.crew.runners| && l.task.Some? && Up(l) && (l.crew.runners[r].Child? || l.crew.runners[r].Marking?)
    ensures AccountInv(Deliver(l, r, text, now, used))
  {
    hide Reserved, Stamped, Questioned;
  }

  lemma ResultIsHandedOverDisk(l: Life, r: nat, text: Text, now: nat, used: nat)
    requires Inv(l)
    requires r < |l.crew.runners| && l.task.Some? && Up(l) && (l.crew.runners[r].Child? || l.crew.runners[r].Marking?)
    ensures DiskInv(Deliver(l, r, text, now, used))
  {
    ResultIsHandedOverOrder(l, r, text, now, used);
    ResultIsHandedOverAccount(l, r, text, now, used);
  }

  lemma ChildPausesCrew(l: Life, r: nat, text: Text, q: Text)
    requires CrewInv(l)
    requires r < |l.crew.runners| && l.task.Some? && Up(l) && l.crew.runners[r].Child?
             && DoPause(l, r, l.crew.runners[r], text, q).Some?
    ensures CrewInv(DoPause(l, r, l.crew.runners[r], text, q).GetOr(l))
  {
    hide DiskInv;
  }

  lemma ChildPausesDisk(l: Life, r: nat, text: Text, q: Text)
    requires Inv(l)
    requires r < |l.crew.runners| && l.task.Some? && Up(l) && l.crew.runners[r].Child?
             && DoPause(l, r, l.crew.runners[r], text, q).Some?
    ensures DiskInv(DoPause(l, r, l.crew.runners[r], text, q).GetOr(l))
  {
    hide Reserved, Stamped, Questioned;
  }

  lemma PauseDegradesCrew(l: Life, r: nat, text: Text, now: nat)
    requires Inv(l)
    requires r < |l.crew.runners| && l.task.Some? && Up(l) && l.crew.runners[r].Pausing?
             && AtPausing(l, r, l.crew.runners[r], Degrade(text, now)).Some?
    ensures CrewInv(AtPausing(l, r, l.crew.runners[r], Degrade(text, now)).GetOr(l))
  {
  }

  lemma PauseDegradesDisk(l: Life, r: nat, text: Text, now: nat)
    requires Inv(l)
    requires r < |l.crew.runners| && l.task.Some? && Up(l) && l.crew.runners[r].Pausing?
             && AtPausing(l, r, l.crew.runners[r], Degrade(text, now)).Some?
    ensures DiskInv(AtPausing(l, r, l.crew.runners[r], Degrade(text, now)).GetOr(l))
  {
  }

  lemma PauseDegrades(l: Life, r: nat, text: Text, now: nat)
    requires Inv(l)
    requires r < |l.crew.runners| && l.task.Some? && Up(l) && l.crew.runners[r].Pausing?
             && AtPausing(l, r, l.crew.runners[r], Degrade(text, now)).Some?
    ensures Inv(AtPausing(l, r, l.crew.runners[r], Degrade(text, now)).GetOr(l))
  {
    hide Reserved, Stamped, Questioned;
    PauseDegradesCrew(l, r, text, now);
    PauseDegradesDisk(l, r, text, now);
  }

  lemma AskerMovesDisk(l: Life, r: nat, pc: Pc)
    requires Inv(l)
    requires r < |l.crew.runners| && l.task.Some? && Up(l) && !Working(l.crew.runners[r])
             && !l.crew.runners[r].Done? && (pc.Asked? || pc.Done? || (pc.Asking? && (l.crew.runners[r].Pausing?
             || l.crew.runners[r].Asking?) && pc.stamp == l.crew.runners[r].stamp))
    ensures DiskInv(Go(l, r, pc))
  {
    hide CrewInv;
  }

  lemma DispatchBegins(l: Life, r: nat, pc: Pc)
    requires Inv(l)
    requires r < |l.crew.runners| && l.task.Some? && Up(l) && ((l.crew.runners[r].Handing?
             || l.crew.runners[r].Dispatching?) && pc.Dispatching?)
    ensures Inv(Go(l, r, pc))
  {
    hide Apply;
  }

  lemma DispatchSucceeds(l: Life, r: nat)
    requires Inv(l)
    requires r < |l.crew.runners| && l.task.Some? && Up(l) && l.crew.runners[r].Dispatching?
    ensures Inv(AtDispatching(l, r, l.crew.runners[r], Succeed).GetOr(l))
  {
    hide Apply;
  }

  lemma DeliveryClosesCrew(l: Life, r: nat, w: Write)
    requires CrewInv(l)
    requires r < |l.crew.runners| && l.task.Some? && Up(l) && (l.crew.runners[r].Dispatching?
             || l.crew.runners[r].Dispatched?) && (w.WFailed? || w.WDelivered?)
    ensures CrewInv(CloseWith(l, r, w))
  {
  }

  lemma DeliveryClosesOrder(l: Life, r: nat, w: Write)
    requires Inv(l)
    requires r < |l.crew.runners| && l.task.Some? && Up(l) && (l.crew.runners[r].Dispatching?
             || l.crew.runners[r].Dispatched?) && (w.WFailed? || w.WDelivered?)
    ensures OrderInv(CloseWith(l, r, w))
  {
    hide Reserved, Stamped, Questioned;
  }

  lemma DeliveryClosesAccount(l: Life, r: nat, w: Write)
    requires Inv(l)
    requires r < |l.crew.runners| && l.task.Some? && Up(l) && (l.crew.runners[r].Dispatching?
             || l.crew.runners[r].Dispatched?) && (w.WFailed? || w.WDelivered?)
    ensures AccountInv(CloseWith(l, r, w))
  {
  }

  lemma DeliveryClosesDisk(l: Life, r: nat, w: Write)
    requires Inv(l)
    requires r < |l.crew.runners| && l.task.Some? && Up(l) && (l.crew.runners[r].Dispatching?
             || l.crew.runners[r].Dispatched?) && (w.WFailed? || w.WDelivered?)
    ensures DiskInv(CloseWith(l, r, w))
  {
    DeliveryClosesOrder(l, r, w);
    DeliveryClosesAccount(l, r, w);
  }

  lemma RunnerEndsCrew(l: Life, r: nat)
    requires Inv(l)
    requires r < |l.crew.runners| && l.task.Some? && Up(l) && l.crew.runners[r].Closing?
    ensures CrewInv(Go(l, r, Done))
  {
    hide DiskInv, Reserved, Stamped;
  }

  lemma RunnerEndsDisk(l: Life, r: nat)
    requires Inv(l)
    requires r < |l.crew.runners| && l.task.Some? && Up(l) && l.crew.runners[r].Closing?
    ensures DiskInv(Go(l, r, Done))
  {
    hide CrewInv;
  }

  lemma RunnerEnds(l: Life, r: nat)
    requires Inv(l)
    requires r < |l.crew.runners| && l.task.Some? && Up(l) && l.crew.runners[r].Closing?
    ensures Inv(Go(l, r, Done))
  {
    hide Reserved, Stamped, Questioned;
    RunnerEndsCrew(l, r);
    RunnerEndsDisk(l, r);
  }

  lemma RunnerIsForgottenCrew(l: Life, r: nat)
    requires CrewInv(l)
    requires r < |l.crew.runners| && l.task.Some? && Up(l) && l.crew.runners[r].Done?
    ensures CrewInv(AtDone(l, r))
  {
    hide DiskInv, Reserved, Stamped;
  }

  lemma RunnerIsForgottenDisk(l: Life, r: nat)
    requires Inv(l)
    requires r < |l.crew.runners| && l.task.Some? && Up(l) && l.crew.runners[r].Done?
    ensures DiskInv(AtDone(l, r))
  {
    hide CrewInv;
  }

  lemma ColdPauseIsDismissed(l: Life)
    requires Inv(l)
    requires DoColdDismiss(l).Some?
    ensures Inv(DoColdDismiss(l).GetOr(l))
  {
    hide Reserved, Stamped, Questioned;
  }

  lemma ResumeIsRejectedCrew(l: Life, c: Call)
    requires CrewInv(l)
    requires c.Returned? && !Won(c) && !l.mode.Down?
    ensures CrewInv(NewCall(l, c))
  {
    hide Owned, Placed;
  }

  lemma ResumeIsRejectedDisk(l: Life, c: Call)
    requires Inv(l)
    requires c.Returned? && !Won(c) && !l.mode.Down?
    ensures DiskInv(NewCall(l, c))
  {
    hide CrewInv;
  }

  lemma ResumeLosesCrew(l: Life, c: nat, stamp: nat, o: Outcome)
    requires Inv(l)
    requires c < |l.desk.calls| && !l.desk.calls[c].Returned? && !o.Resumed? && Open(l)
             && (l.desk.calls[c].Requeueing? ==> !IsLive(l, Queued))
    ensures CrewInv(Return(l, c, stamp, o))
  {
    hide DiskInv;
  }

  lemma ResumeLosesDisk(l: Life, c: nat, stamp: nat, o: Outcome)
    requires Inv(l)
    requires c < |l.desk.calls| && !l.desk.calls[c].Returned? && !o.Resumed? && Open(l)
             && (l.desk.calls[c].Requeueing? ==> !IsLive(l, Queued))
    ensures DiskInv(Return(l, c, stamp, o))
  {
    hide Stamped, Questioned;
  }

  lemma ResumeLoses(l: Life, c: nat, stamp: nat, o: Outcome)
    requires Inv(l)
    requires c < |l.desk.calls| && !l.desk.calls[c].Returned? && !o.Resumed? && Open(l)
             && (l.desk.calls[c].Requeueing? ==> !IsLive(l, Queued))
    ensures Inv(Return(l, c, stamp, o))
  {
    hide DiskInv, Reserved, Stamped;
    ResumeLosesCrew(l, c, stamp, o);
    ResumeLosesDisk(l, c, stamp, o);
  }

  lemma ResumeWins(l: Life, c: nat)
    requires Inv(l)
    requires c < |l.desk.calls| && l.desk.calls[c].Requeueing? && IsLive(l, Queued) && Open(l)
             && Ready(l, l.desk.calls[c].ticket)
    ensures Inv(AtRequeueing(l, c, l.desk.calls[c]).GetOr(l))
  {
    hide Owned;
  }

  lemma ResumeFlagsTranscriptCrew(l: Life, c: nat)
    requires CrewInv(l)
    requires c < |l.desk.calls| && l.desk.calls[c].Reopening? && Open(l) && IsLive(l, AwaitingInput)
    requires AtReopening(l, c, l.desk.calls[c], FoundInconsistent).Some?
    ensures CrewInv(AtReopening(l, c, l.desk.calls[c], FoundInconsistent).GetOr(l))
  {
    hide Owned;
  }

  lemma WriteIsAppliedCrew(l: Life)
    requires CrewInv(l)
    requires DoSettle(l, true).Some?
    ensures CrewInv(DoSettle(l, true).GetOr(l))
  {
    hide Reserved, Stamped, Questioned;
  }

  lemma WriteIsAppliedAccount(l: Life)
    requires Inv(l)
    requires DoSettle(l, true).Some?
    ensures AccountInv(DoSettle(l, true).GetOr(l))
  {
  }

  lemma WriteFailsCrew(l: Life)
    requires CrewInv(l)
    requires DoSettle(l, false).Some?
    ensures CrewInv(DoSettle(l, false).GetOr(l))
  {
    hide Reserved, Stamped, Questioned;
  }

  lemma WriteFailsAccount(l: Life)
    requires Inv(l)
    requires DoSettle(l, false).Some?
    ensures AccountInv(DoSettle(l, false).GetOr(l))
  {
    hide CrewInv;
  }

  lemma NoticeBegins(l: Life)
    requires Inv(l)
    requires DoProcess(l, NoticeBegin).Some?
    ensures Inv(DoProcess(l, NoticeBegin).GetOr(l))
  {
    hide Reserved, Stamped, Questioned;
  }

  lemma NoticeSucceedsCrew(l: Life)
    requires CrewInv(l)
    requires DoProcess(l, NoticeOk).Some?
    ensures CrewInv(DoProcess(l, NoticeOk).GetOr(l))
  {
  }

  lemma NoticeSucceedsAccount(l: Life)
    requires Inv(l)
    requires DoProcess(l, NoticeOk).Some?
    ensures AccountInv(DoProcess(l, NoticeOk).GetOr(l))
  {
  }

  lemma NoticeFails(l: Life)
    requires Inv(l)
    requires DoProcess(l, NoticeFail).Some?
    ensures Inv(DoProcess(l, NoticeFail).GetOr(l))
  {
    hide Reserved, Stamped, Questioned;
  }

  lemma StopBeginsCrew(l: Life)
    requires Inv(l)
    requires DoProcess(l, StopBegin).Some?
    ensures CrewInv(DoProcess(l, StopBegin).GetOr(l))
  {
    hide DiskInv, Stamped, Questioned, Reserved, Placed;
  }

  lemma StopBeginsDisk(l: Life)
    requires Inv(l)
    requires DoProcess(l, StopBegin).Some?
    ensures DiskInv(DoProcess(l, StopBegin).GetOr(l))
  {
    hide CrewInv;
  }

  lemma StopBegins(l: Life)
    requires Inv(l)
    requires DoProcess(l, StopBegin).Some?
    ensures Inv(DoProcess(l, StopBegin).GetOr(l))
  {
    hide DoCall, DoCancel, DoSettle, DoProcess, DiskInv, Reserved, Stamped;
    StopBeginsCrew(l);
    StopBeginsDisk(l);
  }

  lemma StopCutsRunnersCrew(l: Life)
    requires CrewInv(l)
    requires DoProcess(l, StopMark).Some?
    ensures CrewInv(DoProcess(l, StopMark).GetOr(l))
  {
  }

  lemma StopCutsRunnersDisk(l: Life)
    requires Inv(l)
    requires DoProcess(l, StopMark).Some?
    ensures DiskInv(DoProcess(l, StopMark).GetOr(l))
  {
    hide CrewInv;
  }

  lemma ProcessDies(l: Life)
    requires Inv(l)
    requires DoProcess(l, Crash).Some?
    ensures Inv(DoProcess(l, Crash).GetOr(l))
  {
  }

  lemma StopSweepsCrew(l: Life, ok: bool, now: nat, used: nat)
    requires Inv(l)
    requires DoProcess(l, StopSweep(ok, now, used)).Some?
    ensures CrewInv(DoProcess(l, StopSweep(ok, now, used)).GetOr(l))
  {
    hide DiskInv, Stamped, Questioned, Reserved, Placed;
  }

  lemma StopSweepsDisk(l: Life, ok: bool, now: nat, used: nat)
    requires Inv(l)
    requires DoProcess(l, StopSweep(ok, now, used)).Some?
    ensures DiskInv(DoProcess(l, StopSweep(ok, now, used)).GetOr(l))
  {
    hide CrewInv;
  }

  lemma StopSweeps(l: Life, ok: bool, now: nat, used: nat)
    requires Inv(l)
    requires DoProcess(l, StopSweep(ok, now, used)).Some?
    ensures Inv(DoProcess(l, StopSweep(ok, now, used)).GetOr(l))
  {
    hide DoCall, DoCancel, DoSettle, DoProcess, DiskInv, Reserved, Stamped;
    StopSweepsCrew(l, ok, now, used);
    StopSweepsDisk(l, ok, now, used);
  }

  lemma ProcessStartsCrew(l: Life, s: bool, p: bool, rr: bool, now: nat, used: nat, q: Option<Text>)
    requires Inv(l)
    requires l.mode.Down?
    ensures CrewInv(DoRestart(l, s, p, rr, now, used, q))
  {
  }

  lemma ProcessStartsDisk(l: Life, s: bool, p: bool, rr: bool, now: nat, used: nat, q: Option<Text>)
    requires Inv(l)
    requires l.mode.Down?
    ensures DiskInv(DoRestart(l, s, p, rr, now, used, q))
  {
    hide Reserved, Stamped, Questioned;
  }

  lemma ProcessStarts(l: Life, s: bool, p: bool, rr: bool, now: nat, used: nat, q: Option<Text>)
    requires Inv(l)
    requires l.mode.Down?
    ensures Inv(DoRestart(l, s, p, rr, now, used, q))
  {
    hide Reserved, Stamped, Questioned;
    ProcessStartsCrew(l, s, p, rr, now, used, q);
    ProcessStartsDisk(l, s, p, rr, now, used, q);
  }

  // ---------------------------------------------------------------------------
  // Steps on parts of a life
  // ---------------------------------------------------------------------------

  /** A write that changes no pause joins the queue. */
  lemma LinedNote(d: Disk, w: Write, up: bool, doing: Option<Status>, pause: Option<nat>, held: Pc,
                  requeue: Option<nat>)
    requires Lined(d, up, doing, pause, held, requeue)
    requires !w.WAwaiting? && !w.WQueued?
    requires !Hard(w) || (doing != Some(Queued) && !held.Child? && !held.Starting?)
    ensures Lined(d.(writes := d.writes + [w]), up, doing, pause, held, requeue)
  {
    hide Apply;
  }

  /** The oldest write is applied while nobody is ready. */
  lemma LinedApplied(d: Disk, up: bool, doing: Option<Status>, pause: Option<nat>, held: Pc, requeue: Option<nat>)
    requires Lined(d, up, doing, pause, held, requeue)
    requires d.writes != [] && (d.row.Some? || d.broken || doing.None?)
    requires up ==> (Awaits(held).Some? ==> d.settled < Awaits(held).value) && (requeue.Some? ==>
             d.settled < requeue.value)
    ensures Lined(d.(writes := d.writes[1..], settled := d.settled + 1,
                     row := if d.row.Some? then Some(Apply(d.writes[0], d.row.value)) else None),
                  up, doing, pause, held, requeue)
  {
    hide CrewInv;
  }

  /** The oldest write fails while nobody is ready. */
  lemma LinedFailed(d: Disk, up: bool, doing: Option<Status>, pause: Option<nat>, held: Pc, requeue: Option<nat>)
    requires Lined(d, up, doing, pause, held, requeue)
    requires d.writes != [] && (d.row.Some? || d.broken || doing.None?)
    requires up ==> (Awaits(held).Some? ==> d.settled < Awaits(held).value) && (requeue.Some? ==>
             d.settled < requeue.value)
    ensures Lined(d.(writes := d.writes[1..], settled := d.settled + 1, broken := d.broken || Hard(d.writes[0])),
                  up, doing, pause, held, requeue)
  {
    hide Apply;
  }

  lemma StoredApplied(row: Task, writes: seq<Write>, clock: nat)
    requires Stored(Some(row), writes, clock) && writes != []
    ensures Stored(Some(Apply(writes[0], row)), writes[1..], clock)
  {
  }

  lemma OwnedCut(crew: Crew, up: bool, doing: Option<Status>, over: bool, pause: Option<nat>)
    requires Owned(crew, up, doing, over, pause)
    ensures Owned(Cut(crew), up, None, true, None)
  {
  }

  /** The working runner moves within its phase. */
  lemma OwnedWorker(crew: Crew, r: nat, pc: Pc, up: bool, doing: Option<Status>, over: bool, pause: Option<nat>)
    requires Owned(crew, up, doing, over, pause)
    requires r < |crew.runners| && Executing(crew.runners[r]) && Executing(pc)
    ensures Owned(Move(crew, r, pc), up, doing, over, pause)
  {
  }

  lemma OwnedAsker(crew: Crew, r: nat, pc: Pc, up: bool, doing: Option<Status>, over: bool, pause: Option<nat>)
    requires Owned(crew, up, doing, over, pause)
    requires r < |crew.runners| && !Working(crew.runners[r]) && !crew.runners[r].Done?
    requires pc.Asked? || pc.Done?
             || (pc.Asking? && (crew.runners[r].Pausing? || crew.runners[r].Asking?)
                 && pc.stamp == crew.runners[r].stamp)
    ensures Owned(Move(crew, r, pc), up, doing, over, pause)
  {
    hide Apply;
  }

  // ---------------------------------------------------------------------------
  // Steps that need them
  // ---------------------------------------------------------------------------

  lemma AskerMovesCrew(l: Life, r: nat, pc: Pc)
    requires CrewInv(l)
    requires r < |l.crew.runners| && l.task.Some? && Up(l) && !Working(l.crew.runners[r]) && !l.crew.runners[r].Done?
    requires pc.Asked? || pc.Done?
             || (pc.Asking? && (l.crew.runners[r].Pausing? || l.crew.runners[r].Asking?)
                 && pc.stamp == l.crew.runners[r].stamp)
    ensures CrewInv(Go(l, r, pc))
  {
    OwnedAsker(l.crew, r, pc, Up(l), Doing(l), Over(l), PauseOf(l));
  }

  lemma TaskIsDismissedCrew(l: Life)
    requires CrewInv(l)
    requires IsLive(l, AwaitingInput) || IsLive(l, DeliveryFailed) || IsLive(l, Interrupted)
    ensures CrewInv(Transition(Dismissing(l), l.task.value, WDismissed, l.crew))
  {
  }

  lemma TaskIsDismissedOrder(l: Life)
    requires Inv(l)
    requires IsLive(l, AwaitingInput) || IsLive(l, DeliveryFailed) || IsLive(l, Interrupted)
    ensures OrderInv(Transition(Dismissing(l), l.task.value, WDismissed, l.crew))
  {
    hide Reserved, Stamped, Questioned;
  }

  lemma TaskIsDismissedAccount(l: Life)
    requires Inv(l)
    requires IsLive(l, AwaitingInput) || IsLive(l, DeliveryFailed) || IsLive(l, Interrupted)
    ensures AccountInv(Transition(Dismissing(l), l.task.value, WDismissed, l.crew))
  {
    hide Reserved, Stamped, Questioned;
  }

  lemma TaskIsDismissedDisk(l: Life)
    requires Inv(l)
    requires IsLive(l, AwaitingInput) || IsLive(l, DeliveryFailed) || IsLive(l, Interrupted)
    ensures DiskInv(Transition(Dismissing(l), l.task.value, WDismissed, l.crew))
  {
    TaskIsDismissedOrder(l);
    TaskIsDismissedAccount(l);
  }

  lemma TaskIsCutOffCrew(l: Life, now: nat)
    requires CrewInv(l)
    requires IsLive(l, Queued) || IsLive(l, Running)
    ensures CrewInv(Transition(l, l.task.value, WCancelled(now), Cut(l.crew)))
  {
    OwnedCut(l.crew, Up(l), Doing(l), Over(l), PauseOf(l));
  }

  lemma TaskIsCutOffDisk(l: Life, now: nat)
    requires Inv(l)
    requires IsLive(l, Queued) || IsLive(l, Running)
    ensures DiskInv(Transition(l, l.task.value, WCancelled(now), Cut(l.crew)))
  {
    hide CrewInv;
  }

  lemma ResumeReservesCrew(l: Life, text: Text)
    requires CrewInv(l) && IsLive(l, AwaitingInput) && l.desk.reservation.None?
    ensures CrewInv(l.(desk := l.desk.(calls := l.desk.calls + [Reopening(l.task.value.finishedAt.value, text)],
                                       reservation := Some(|l.desk.calls|))))
  {
  }

  lemma ResumeReservesDisk(l: Life, text: Text)
    requires Inv(l) && IsLive(l, AwaitingInput) && l.desk.reservation.None?
    ensures DiskInv(l.(desk := l.desk.(calls := l.desk.calls + [Reopening(l.task.value.finishedAt.value, text)],
                                       reservation := Some(|l.desk.calls|))))
  {
    hide CrewInv;
  }

  lemma ResumeFlagsTranscriptDisk(l: Life, c: nat)
    requires Inv(l)
    requires c < |l.desk.calls| && l.desk.calls[c].Reopening? && Open(l) && IsLive(l, AwaitingInput)
    requires AtReopening(l, c, l.desk.calls[c], FoundInconsistent).Some?
    ensures DiskInv(AtReopening(l, c, l.desk.calls[c], FoundInconsistent).GetOr(l))
  {
    LinedNote(l.disk, WIncomplete, Up(l), Doing(l), PauseOf(l), Held(l.crew), RequeueTicket(l.desk));
  }

  lemma NoticeSucceedsOrder(l: Life)
    requires Inv(l)
    requires DoProcess(l, NoticeOk).Some?
    ensures OrderInv(DoProcess(l, NoticeOk).GetOr(l))
  {
    hide Reserved, Stamped, Questioned;
    LinedNote(l.disk, WNoticed, Up(l), Doing(l), PauseOf(l), Held(l.crew), RequeueTicket(l.desk));
  }

  lemma WriteIsAppliedStored(l: Life)
    requires Inv(l)
    requires DoSettle(l, true).Some?
    ensures var m := DoSettle(l, true).GetOr(l); Stored(m.disk.row, m.disk.writes, m.clock)
  {
    if l.disk.row.Some? {
      StoredApplied(l.disk.row.value, l.disk.writes, l.clock);
    }
  }

  lemma WriteIsAppliedOrder(l: Life)
    requires Inv(l)
    requires DoSettle(l, true).Some?
    ensures OrderInv(DoSettle(l, true).GetOr(l))
  {
    hide Owned;
    WriteIsAppliedStored(l);
    WriteFindsNobodyReady(l, true);
    LinedApplied(l.disk, Up(l), Doing(l), PauseOf(l), Held(l.crew), RequeueTicket(l.desk));
  }

  /** Who waits for a write waits for one that is still to come. */
  lemma WriteFindsNobodyReady(l: Life, ok: bool)
    requires CrewInv(l) && DoSettle(l, ok).Some?
    ensures Awaits(Held(l.crew)).Some? ==> l.disk.settled < Awaits(Held(l.crew)).value
    ensures RequeueTicket(l.desk).Some? ==> l.disk.settled < RequeueTicket(l.desk).value
  {
    if RequeueTicket(l.desk).Some? {
      var c := l.desk.reservation.value;
      assert CallAwaits(l.desk.calls[c]).Some?;
    }
  }

  lemma WriteFailsOrder(l: Life)
    requires Inv(l)
    requires DoSettle(l, false).Some?
    ensures OrderInv(DoSettle(l, false).GetOr(l))
  {
    hide Lined, Righted, Budgeted;
    WriteFindsNobodyReady(l, false);
    LinedFailed(l.disk, Up(l), Doing(l), PauseOf(l), Held(l.crew), RequeueTicket(l.desk));
  }

  lemma ResumeRequeuesCrew(l: Life, c: nat)
    requires CrewInv(l)
    requires c < |l.desk.calls| && l.desk.calls[c].Reopening? && Up(l) && IsLive(l, AwaitingInput)
    ensures CrewInv(Requeue(l, c, l.desk.calls[c].stamp, l.desk.calls[c].answer))
  {
  }

  lemma ResumeRequeuesDisk(l: Life, c: nat)
    requires Inv(l)
    requires c < |l.desk.calls| && l.desk.calls[c].Reopening? && Up(l) && IsLive(l, AwaitingInput)
    ensures DiskInv(Requeue(l, c, l.desk.calls[c].stamp, l.desk.calls[c].answer))
  {
    var m := Requeue(l, c, l.desk.calls[c].stamp, l.desk.calls[c].answer);
    if !l.disk.broken {
      assert m.disk.writes[|l.disk.writes|].WQueued?;
    }
  }

  lemma ChildStartsCrew(l: Life, r: nat)
    requires CrewInv(l)
    requires r < |l.crew.runners| && l.task.Some? && Up(l) && l.crew.runners[r].Starting?
             && AtStarting(l, r, l.crew.runners[r].ticket).Some?
    ensures CrewInv(AtStarting(l, r, l.crew.runners[r].ticket).GetOr(l))
  {
    hide Apply;
    OwnedWorker(l.crew, r, AtStarting(l, r, l.crew.runners[r].ticket).value.crew.runners[r], Up(l), Doing(l),
        Over(l), PauseOf(l));
  }
}
