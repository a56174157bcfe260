/** Every step of every run keeps the invariant, and what that means for a delegation. */
module DelegationProof {
  import opened Wrappers
  import opened DelegationLife
  import opened DelegationInvariant
  import opened DelegationSteps

  // ---------------------------------------------------------------------------
  // Every step keeps the invariant
  // ---------------------------------------------------------------------------

  lemma EnqueueKeeps(l: Life, s: EnqueueStep)
    requires Inv(l) && DoEnqueue(l, s).Some?
    ensures Inv(DoEnqueue(l, s).GetOr(l))
  {
    hide DiskInv, Reserved, Stamped;
    match s
    case CreateRow(max) => RowIsCreated(l, max);
    case CreateInMemory(max) => MemoryTaskIsCreated(l, max);
    case Register => TaskIsRegistered(l);
  }

  lemma HandingKeeps(l: Life, r: nat, text: Text, now: nat, used: nat)
    requires Inv(l) && Up(l) && l.task.Some? && r < |l.crew.runners|
    requires l.crew.runners[r].Child? || l.crew.runners[r].Marking?
    ensures Inv(Deliver(l, r, text, now, used))
  {
    ResultIsHandedOverCrew(l, r, text, now, used);
    ResultIsHandedOverDisk(l, r, text, now, used);
  }

  lemma SpeakingKeeps(l: Life, r: nat, more: nat, saved: bool, talk: Talk, script: Script)
    requires Inv(l) && Up(l) && l.task.Some? && r < |l.crew.runners| && l.crew.runners[r].Child?
    requires more == 0 || l.crew.runners[r].passes + more <= l.crew.runners[r].budget
    requires talk.Final? ==> more > 0
    ensures Inv(Voiced(l, r, l.crew.runners[r], more, saved, talk, script))
  {
    hide DiskInv, Reserved, Stamped;
    ChildSpeaksCrew(l, r, more, saved, talk, script);
    ChildSpeaksDisk(l, r, more, saved, talk, script);
  }

  lemma MarkKeeps(l: Life, r: nat, exhausted: bool)
    requires Inv(l) && Up(l) && l.task.Some? && r < |l.crew.runners| && l.crew.runners[r].Child?
    requires AtChild(l, r, l.crew.runners[r], Mark(exhausted)).Some?
    ensures Inv(AtChild(l, r, l.crew.runners[r], Mark(exhausted)).GetOr(l))
  {
    TranscriptIsMarkedCrew(l, r, exhausted);
    TranscriptIsMarkedDisk(l, r, exhausted);
  }

  lemma PauseKeeps(l: Life, r: nat, text: Text, question: Text)
    requires Inv(l) && Up(l) && l.task.Some? && r < |l.crew.runners| && l.crew.runners[r].Child?
    requires DoPause(l, r, l.crew.runners[r], text, question).Some?
    ensures Inv(DoPause(l, r, l.crew.runners[r], text, question).GetOr(l))
  {
    ChildPausesCrew(l, r, text, question);
    ChildPausesDisk(l, r, text, question);
  }

  lemma ChildKeeps(l: Life, r: nat, s: RunStep)
    requires Inv(l) && Up(l) && l.task.Some? && r < |l.crew.runners| && l.crew.runners[r].Child?
    requires AtChild(l, r, l.crew.runners[r], s).Some?
    ensures Inv(AtChild(l, r, l.crew.runners[r], s).GetOr(l))
  {
    hide CrewInv, DiskInv;
    var pc := l.crew.runners[r];
    match s
    case Note(saved, cut, rest) =>
      SpeakingKeeps(l, r, 0, saved, if rest then Called else Owed, Noted(l.disk.script, cut));
    case Pass(saved, cut, final) =>
      SpeakingKeeps(l, r, 1, saved, if final then Final else Called, Said(l.disk.script, cut, final));
    case Close(saved, cut) =>
      SpeakingKeeps(l, r, 0, saved, Concluded, Said(l.disk.script, cut, true));
    case Mark(exhausted) => MarkKeeps(l, r, exhausted);
    case Pause(text, question) => PauseKeeps(l, r, text, question);
    case Finish(text, now, exhausted) =>
      assert AtChild(l, r, pc, s) == Some(Deliver(l, r, text, now, Used(l, pc, exhausted)));
      HandingKeeps(l, r, text, now, Used(l, pc, exhausted));
    case Rescue(text, now) =>
      assert AtChild(l, r, pc, s) == Some(Deliver(l, r, text, now, l.task.value.used));
      HandingKeeps(l, r, text, now, l.task.value.used);
  }

  lemma MarkingKeeps(l: Life, r: nat, s: RunStep)
    requires Inv(l) && Up(l) && l.task.Some? && r < |l.crew.runners| && l.crew.runners[r].Marking?
    requires AtMarking(l, r, l.crew.runners[r], s).Some?
    ensures Inv(AtMarking(l, r, l.crew.runners[r], s).GetOr(l))
  {
    hide DiskInv, Reserved, Stamped;
    var pc := l.crew.runners[r];
    var used := if s.Finish? then pc.used else l.task.value.used;
    assert AtMarking(l, r, pc, s) == Some(Deliver(l, r, s.text, s.now, used));
    HandingKeeps(l, r, s.text, s.now, used);
  }

  lemma MoveKeeps(l: Life, r: nat, pc: Pc)
    requires Inv(l) && Up(l) && l.task.Some? && r < |l.crew.runners|
    requires !Working(l.crew.runners[r]) && !l.crew.runners[r].Done?
    requires pc.Asked? || pc.Done?
             || (pc.Asking? && (l.crew.runners[r].Pausing? || l.crew.runners[r].Asking?)
                 && pc.stamp == l.crew.runners[r].stamp)
    ensures Inv(Go(l, r, pc))
  {
    AskerMovesCrew(l, r, pc);
    AskerMovesDisk(l, r, pc);
  }

  lemma PausingKeeps(l: Life, r: nat, s: RunStep)
    requires Inv(l) && Up(l) && l.task.Some? && r < |l.crew.runners| && l.crew.runners[r].Pausing?
    requires AtPausing(l, r, l.crew.runners[r], s).Some?
    ensures Inv(AtPausing(l, r, l.crew.runners[r], s).GetOr(l))
  {
    hide DiskInv, Reserved, Stamped;
    match s
    case Degrade(text, now) => PauseDegrades(l, r, text, now);
    case Proceed => MoveKeeps(l, r, Asking(l.crew.runners[r].stamp, 1));
  }

  /** A note on the current pause, then the asker moves on. */
  lemma NoteKeeps(l: Life, r: nat, t: Task, w: Write)
    requires Inv(l) && Up(l) && l.task.Some? && r < |l.crew.runners|
    requires l.crew.runners[r].Asking? && InPause(l, l.crew.runners[r].stamp)
    requires w.WNotified? || w.WError?
    requires t == l.task.value.(notified := t.notified, error := t.error)
    ensures Inv(l.(task := Some(t), disk := Push(l.disk, w), crew := Move(l.crew, r, Asked(NextTicket(l.disk)))))
  {
    hide DiskInv, Reserved, Stamped;
    var l1 := l.(task := Some(t));
    TaskIsAnnotated(l, t);
    NoteIsPushed(l1, w);
    MoveKeeps(l1.(disk := Push(l.disk, w)), r, Asked(NextTicket(l.disk)));
  }

  lemma TaskIsAnnotated(l: Life, t: Task)
    requires Inv(l) && l.task.Some?
    requires t == l.task.value.(notified := t.notified, error := t.error)
    ensures Inv(l.(task := Some(t)))
  {
    hide Stamped, Questioned;
  }

  lemma NoteIsPushed(l: Life, w: Write)
    requires Inv(l) && IsLive(l, AwaitingInput) && Held(l.crew).Asking?
    requires w.WNotified? || w.WError?
    ensures Inv(l.(disk := Push(l.disk, w)))
  {
    hide Reserved, Stamped, Questioned;
    LinedNote(l.disk, w, Up(l), Doing(l), PauseOf(l), Held(l.crew), RequeueTicket(l.desk));
  }

  lemma AskSucceedsKeeps(l: Life, r: nat)
    requires Inv(l) && Up(l) && l.task.Some? && r < |l.crew.runners| && l.crew.runners[r].Asking?
    ensures Inv(AtAsking(l, r, l.crew.runners[r], Succeed).GetOr(l))
  {
    hide Inv;
    if InPause(l, l.crew.runners[r].stamp) {
      NoteKeeps(l, r, l.task.value.(notified := true), WNotified);
    } else {
      MoveKeeps(l, r, Pc.Asked(0));
    }
  }

  lemma AskGivesUpKeeps(l: Life, r: nat, error: Text)
    requires Inv(l) && Up(l) && l.task.Some? && r < |l.crew.runners| && l.crew.runners[r].Asking?
    ensures Inv(AtAsking(l, r, l.crew.runners[r], Fail(true, error)).GetOr(l))
  {
    hide Inv;
    if InPause(l, l.crew.runners[r].stamp) {
      NoteKeeps(l, r, l.task.value.(error := Some(error)), WError(error));
    } else {
      MoveKeeps(l, r, Pc.Asked(0));
    }
  }

  lemma AskFailsKeeps(l: Life, r: nat, last: bool, error: Text)
    requires Inv(l) && Up(l) && l.task.Some? && r < |l.crew.runners| && l.crew.runners[r].Asking?
    ensures Inv(AtAsking(l, r, l.crew.runners[r], Fail(last, error)).GetOr(l))
  {
    hide Inv;
    var pc := l.crew.runners[r];
    if pc.attempt < DISPATCH_ATTEMPTS && !last {
      assert AtAsking(l, r, pc, Fail(last, error)) == Some(Go(l, r, Asking(pc.stamp, pc.attempt + 1)));
      MoveKeeps(l, r, Asking(pc.stamp, pc.attempt + 1));
    } else {
      assert AtAsking(l, r, pc, Fail(last, error)) == AtAsking(l, r, pc, Fail(true, error));
      AskGivesUpKeeps(l, r, error);
    }
  }

  lemma AskingKeeps(l: Life, r: nat, s: RunStep)
    requires Inv(l) && Up(l) && l.task.Some? && r < |l.crew.runners| && l.crew.runners[r].Asking?
    requires AtAsking(l, r, l.crew.runners[r], s).Some?
    ensures Inv(AtAsking(l, r, l.crew.runners[r], s).GetOr(l))
  {
    hide DiskInv, Reserved, Stamped;
    match s
    case Succeed => AskSucceedsKeeps(l, r);
    case Fail(last, error) => AskFailsKeeps(l, r, last, error);
    case Raise(_) => MoveKeeps(l, r, Done);
  }

  lemma CloseKeeps(l: Life, r: nat, w: Write)
    requires Inv(l) && Up(l) && l.task.Some? && r < |l.crew.runners|
    requires l.crew.runners[r].Dispatching? || l.crew.runners[r].Dispatched?
    requires w.WFailed? || w.WDelivered?
    ensures Inv(CloseWith(l, r, w))
  {
    DeliveryClosesCrew(l, r, w);
    DeliveryClosesDisk(l, r, w);
  }

  lemma DispatchFailsKeeps(l: Life, r: nat, last: bool, error: Text)
    requires Inv(l) && Up(l) && l.task.Some? && r < |l.crew.runners| && l.crew.runners[r].Dispatching?
    ensures Inv(AtDispatching(l, r, l.crew.runners[r], Fail(last, error)).GetOr(l))
  {
    hide Inv;
    var pc := l.crew.runners[r];
    if pc.attempt < DISPATCH_ATTEMPTS && !last {
      assert AtDispatching(l, r, pc, Fail(last, error)) == Some(Go(l, r, Dispatching(pc.attempt + 1)));
      DispatchBegins(l, r, Dispatching(pc.attempt + 1));
    } else {
      assert AtDispatching(l, r, pc, Fail(last, error)) == Some(CloseWith(l, r, WFailed(error)));
      CloseKeeps(l, r, WFailed(error));
    }
  }

  lemma DispatchingKeeps(l: Life, r: nat, s: RunStep)
    requires Inv(l) && Up(l) && l.task.Some? && r < |l.crew.runners| && l.crew.runners[r].Dispatching?
    requires AtDispatching(l, r, l.crew.runners[r], s).Some?
    ensures Inv(AtDispatching(l, r, l.crew.runners[r], s).GetOr(l))
  {
    hide DiskInv, Reserved, Stamped;
    match s
    case Succeed => DispatchSucceeds(l, r);
    case Fail(last, error) => DispatchFailsKeeps(l, r, last, error);
  }

  lemma DispatchedKeeps(l: Life, r: nat, s: RunStep)
    requires Inv(l) && Up(l) && l.task.Some? && r < |l.crew.runners| && l.crew.runners[r].Dispatched?
    requires AtDispatched(l, r, s).Some?
    ensures Inv(AtDispatched(l, r, s).GetOr(l))
  {
    hide DiskInv, Reserved, Stamped;
    CloseKeeps(l, r, if s.Proceed? then WDelivered else WFailed(s.error));
  }

  lemma QuietRunKeeps(l: Life, r: nat, s: RunStep)
    requires Inv(l) && DoRun(l, r, s).Some?
    requires var pc := l.crew.runners[r]; pc.Asked? || pc.Handing? || pc.Closing? || pc.Done?
    ensures Inv(DoRun(l, r, s).GetOr(l))
  {
    hide AtChild, AtPausing, AtAsking, AtDispatching, CrewInv, DiskInv;
    match l.crew.runners[r]
    case Asked(_) => MoveKeeps(l, r, Done);
    case Handing(_) => DispatchBegins(l, r, Dispatching(1));
    case Closing(_) => RunnerEnds(l, r);
    case Done => RunnerIsForgottenCrew(l, r); RunnerIsForgottenDisk(l, r);
  }

  lemma StartKeeps(l: Life, r: nat, s: RunStep)
    requires Inv(l) && DoRun(l, r, s).Some?
    requires var pc := l.crew.runners[r]; pc.Waiting? || pc.Starting?
    ensures Inv(DoRun(l, r, s).GetOr(l))
  {
    hide AtChild, AtPausing, AtAsking, AtDispatching, CrewInv, DiskInv;
    match l.crew.runners[r]
    case Waiting => RunnerEntersCrew(l, r); RunnerEntersDisk(l, r);
    case Starting(_) => ChildStartsCrew(l, r); ChildStartsDisk(l, r);
  }

  lemma RunKeeps(l: Life, r: nat, s: RunStep)
    requires Inv(l) && DoRun(l, r, s).Some?
    ensures Inv(DoRun(l, r, s).GetOr(l))
  {
    hide Inv, AtChild, AtMarking, AtPausing, AtAsking, AtDispatching, AtDispatched, AtStarting, AtWaiting;
    match l.crew.runners[r]
    case Waiting => StartKeeps(l, r, s);
    case Starting(_) => StartKeeps(l, r, s);
    case Child(_, _, _, _, _) => ChildKeeps(l, r, s);
    case Marking(_, _) => MarkingKeeps(l, r, s);
    case Pausing(_, _) => PausingKeeps(l, r, s);
    case Asking(_, _) => AskingKeeps(l, r, s);
    case Dispatching(_) => DispatchingKeeps(l, r, s);
    case Dispatched => DispatchedKeeps(l, r, s);
    case _ => QuietRunKeeps(l, r, s);
  }

  lemma CancelKeeps(l: Life, now: nat)
    requires Inv(l) && DoCancel(l, now).Some?
    ensures Inv(DoCancel(l, now).GetOr(l))
  {
    hide DiskInv, Reserved, Stamped;
    if Resting(l.task.value.status) {
      TaskIsDismissedCrew(l);
      TaskIsDismissedDisk(l);
    } else if !l.task.value.status.Delivering? {
      TaskIsCutOffCrew(l, now);
      TaskIsCutOffDisk(l, now);
    }
  }

  lemma ResumeKeeps(l: Life, text: Text, refused: bool)
    requires Inv(l) && DoResume(l, text, refused).Some?
    ensures Inv(DoResume(l, text, refused).GetOr(l))
  {
    hide DiskInv, Reserved, Stamped;
    match RejectsResume(l, refused)
    case Some(call) =>
      ResumeIsRejectedCrew(l, call);
      ResumeIsRejectedDisk(l, call);
    case None =>
      ResumeReservesCrew(l, text);
      ResumeReservesDisk(l, text);
  }

  lemma CallKeeps(l: Life, c: nat, s: CallStep)
    requires Inv(l) && DoCall(l, c, s).Some?
    ensures Inv(DoCall(l, c, s).GetOr(l))
  {
    hide DiskInv, Reserved, Stamped;
    var call := l.desk.calls[c];
    match call
    case Reopening(stamp, text) =>
      if s.StoreFailed? {
        ResumeLoses(l, c, stamp, Unavailable);
      } else if !IsLive(l, AwaitingInput) {
        ResumeLoses(l, c, stamp, NotAwaiting);
      } else if s.FoundInconsistent? {
        ResumeFlagsTranscriptCrew(l, c);
        ResumeFlagsTranscriptDisk(l, c);
      } else if l.mode.Stopped? {
        ResumeLoses(l, c, stamp, Unavailable);
      } else {
        ResumeRequeuesCrew(l, c);
        ResumeRequeuesDisk(l, c);
      }
    case Flagging(stamp, _) => ResumeLoses(l, c, stamp, TranscriptIncomplete);
    case Requeueing(stamp, _) =>
      if IsLive(l, Queued) {
        ResumeWins(l, c);
      } else {
        ResumeLoses(l, c, stamp, NotAwaiting);
      }
  }

  lemma SettleKeeps(l: Life, ok: bool)
    requires Inv(l) && DoSettle(l, ok).Some?
    ensures Inv(DoSettle(l, ok).GetOr(l))
  {
    hide Reserved, Stamped, Questioned;
    if ok {
      WriteIsAppliedCrew(l);
      WriteIsAppliedOrder(l);
      WriteIsAppliedAccount(l);
    } else {
      WriteFailsCrew(l);
      WriteFailsOrder(l);
      WriteFailsAccount(l);
    }
  }

  lemma ProcessKeeps(l: Life, s: ProcessStep)
    requires Inv(l) && DoProcess(l, s).Some?
    ensures Inv(DoProcess(l, s).GetOr(l))
  {
    hide CrewInv;
    match s
    case NoticeBegin => NoticeBegins(l);
    case NoticeOk =>
      NoticeSucceedsCrew(l);
      NoticeSucceedsOrder(l);
      NoticeSucceedsAccount(l);
    case NoticeFail => NoticeFails(l);
    case StopBegin => StopBegins(l);
    case StopMark =>
      StopCutsRunnersCrew(l);
      StopCutsRunnersDisk(l);
    case StopSweep(ok, now, used) => StopSweeps(l, ok, now, used);
    case Crash => ProcessDies(l);
    case Restart(swept, pruned, reread, now, used, recovered) =>
      ProcessStarts(l, swept, pruned, reread, now, used, recovered);
  }

  lemma Keeps(l: Life, a: Action)
    requires Inv(l) && Do(l, a).Some?
    ensures Inv(Do(l, a).GetOr(l))
  {
    hide DoRun, DoCancel, DoResume, DoCall, DoSettle, DoProcess, DoEnqueue, DoConsume, DoColdDismiss;
    match a
    case Enqueues(s) => EnqueueKeeps(l, s);
    case Consumes => ConsumerTakesEntryCrew(l); ConsumerTakesEntryDisk(l);
    case Runs(r, s) => RunKeeps(l, r, s);
    case Cancels(now) => CancelKeeps(l, now);
    case ColdDismisses => ColdPauseIsDismissed(l);
    case Resumes(text, refused) => ResumeKeeps(l, text, refused);
    case Calls(c, s) => CallKeeps(l, c, s);
    case Settles(ok) => SettleKeeps(l, ok);
    case Process(s) => ProcessKeeps(l, s);
  }

  /** A life that some run reaches from before it is born. */
  predicate Reached(l: Life, run: seq<Action>) {
    Play(UNBORN, run) == Some(l)
  }

  lemma {:induction false} PlayKeeps(l: Life, run: seq<Action>)
    requires Inv(l) && Play(l, run).Some?
    ensures Inv(Play(l, run).GetOr(l))
    decreases |run|
  {
    hide Do, DiskInv, Reserved, Stamped;
    if run != [] {
      Keeps(l, run[0]);
      PlayKeeps(Do(l, run[0]).value, run[1..]);
    }
  }

  lemma UnbornIsKept()
    ensures Inv(UNBORN)
  {
  }

  /** The invariant holds after every run, with any number of crashes and restarts. */
  lemma RunsKeepInvariant(l: Life, run: seq<Action>)
    requires Reached(l, run)
    ensures Inv(l)
  {
    hide Do;
    UnbornIsKept();
    PlayKeeps(UNBORN, run);
  }
}
