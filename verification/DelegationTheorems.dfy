/** What the invariant means for a delegation, over every run with any number of crashes. */
module DelegationTheorems {
  import opened Wrappers
  import opened DelegationLife
  import opened DelegationInvariant
  import opened DelegationProof

  // ---------------------------------------------------------------------------
  // No task gets stuck
  // ---------------------------------------------------------------------------

  function One(b: bool): nat {
    if b then 1 else 0
  }

  /** Nothing of this task will move by itself. */
  predicate Quiescent(l: Life) {
    l.entries == 0 && l.desk.reservation.None? && forall r | 0 <= r < |l.crew.runners| :: l.crew.runners[r].Done?
  }

  /**
   With the process up: a running or delivering task is in the hands of the runner that cancel and
   stop know; a queued one is in exactly one place; every runner is known to stop.
   */
  lemma NoTaskIsStuck(l: Life, run: seq<Action>)
    requires Reached(l, run) && Up(l)
    ensures IsLive(l, Running) ==> Executing(Held(l.crew))
    ensures IsLive(l, Delivering) ==> HandingOver(Held(l.crew))
    ensures IsLive(l, Queued) ==> l.entries + One(Held(l.crew).Waiting?) + One(RequeueTicket(l.desk).Some?) == 1
    ensures forall r | 0 <= r < |l.crew.runners| ::
              !l.crew.runners[r].Done? ==> l.crew.handle == Some(r) || r in l.crew.lingering
    ensures l.live && Quiescent(l) ==> IsLive(l, AwaitingInput) || IsLive(l, DeliveryFailed) || IsLive(l, Interrupted)
  {
    hide Do, DiskInv, Reserved, Stamped;
    RunsKeepInvariant(l, run);
  }

  // ---------------------------------------------------------------------------
  // Cancel and questions
  // ---------------------------------------------------------------------------

  /** Cancelling a re-queued task never cuts a runner that is delivering an earlier question. */
  lemma CancelSparesQuestions(l: Life, run: seq<Action>, now: nat, r: nat)
    requires Reached(l, run) && DoCancel(l, now).Some?
    requires r < |l.crew.runners| && (l.crew.runners[r].Pausing? || l.crew.runners[r].Asking?
             || l.crew.runners[r].Asked?)
    ensures DoCancel(l, now).GetOr(l).crew.runners[r] == l.crew.runners[r]
    ensures DoCancel(l, now).GetOr(l).crew.handle == l.crew.handle || r in DoCancel(l, now).GetOr(l).crew.lingering
  {
    hide Do, DiskInv, Reserved, Stamped;
    RunsKeepInvariant(l, run);
  }

  // ---------------------------------------------------------------------------
  // Resume and cancel on one pause
  // ---------------------------------------------------------------------------

  /** A pause is resumed at most once and never also dismissed; an answer is taken at most once. */
  lemma PauseIsSpentOnce(l: Life, run: seq<Action>)
    requires Reached(l, run)
    ensures forall c, d | 0 <= c < d < |l.desk.calls| ::
              Won(l.desk.calls[c]) && Won(l.desk.calls[d]) ==> l.desk.calls[c].stamp != l.desk.calls[d].stamp
    ensures forall c | 0 <= c < |l.desk.calls| :: Won(l.desk.calls[c]) ==> l.desk.calls[c].stamp !in l.desk.dismissed
    ensures forall c | c in l.desk.taken :: c < |l.desk.calls| && Won(l.desk.calls[c])
    ensures forall i, j | 0 <= i < j < |l.desk.taken| :: l.desk.taken[i] != l.desk.taken[j]
  {
    hide Do, DiskInv, Owned, Placed;
    RunsKeepInvariant(l, run);
  }

  /** A call returns `resumed` exactly when it adds a queue entry, and its own answer waits there. */
  lemma EntryIffResumed(l: Life, run: seq<Action>, c: nat, s: CallStep, m: Life)
    requires Reached(l, run) && Up(l) && DoCall(l, c, s) == Some(m)
    ensures c < |m.desk.calls|
    ensures m.entries != l.entries <==> Won(m.desk.calls[c])
    ensures Won(m.desk.calls[c]) ==> m.entries == 1 && m.desk.answer.Some? && m.desk.answer.value.call == c
  {
    hide DiskInv, Stamped, Questioned;
    RunsKeepInvariant(l, run);
    hide Play;
  }

  predicate Ends(call: Call, outcome: Outcome) {
    call.Returned? && call.outcome == outcome
  }

  /** How a call of resume goes on from `call` to `next`: what each state and each answer of the store leads to. */
  predicate GoesOn(l: Life, call: Call, s: CallStep, next: Call) {
    var waits := IsLive(l, AwaitingInput);
    && (Ends(next, Unavailable) <==>
          call.Reopening? && (s.StoreFailed? || (waits && s.Reopened? && l.mode.Stopped?)))
    && (Ends(next, NotAwaiting) <==>
          (call.Reopening? && !s.StoreFailed? && !waits) || (call.Requeueing? && !IsLive(l, Queued)))
    && (Ends(next, TranscriptIncomplete) <==> call.Flagging?)
    && (Ends(next, Resumed) <==> call.Requeueing? && IsLive(l, Queued))
    && (next.Flagging? <==> call.Reopening? && waits && s.FoundInconsistent?)
    && (next.Requeueing? <==> call.Reopening? && waits && s.Reopened? && !l.mode.Stopped?)
  }

  /**
   The pause is checked again after the transcript was read, and the requeued task after its write; a call
   that ends without the answer going on leaves the task and the store as they were.
   */
  lemma CallAnswers(l: Life, c: nat, s: CallStep)
    requires DoCall(l, c, s).Some?
    ensures var m := DoCall(l, c, s).GetOr(l);
            && c < |l.desk.calls| && |m.desk.calls| == |l.desk.calls|
            && m.desk.calls == l.desk.calls[c := m.desk.calls[c]]
            && GoesOn(l, l.desk.calls[c], s, m.desk.calls[c])
            && (m.desk.calls[c].Returned? ==> m.task == l.task && m.disk == l.disk && m.crew == l.crew)
            && (m.desk.calls[c].Flagging? ==> m.task == Some(l.task.value.(incomplete := true)) && m.crew == l.crew)
            && (m.desk.calls[c].Requeueing? ==>
                  IsLive(m, Queued) && m.crew.handle.None?
                  && m.desk.answer == Some(Answer(c, l.desk.calls[c].answer, l.disk.script.said)))
  {
  }

  // ---------------------------------------------------------------------------
  // One result, one budget
  // ---------------------------------------------------------------------------

  /**
   Over every run, with dispatch retries, rescues, stops, crashes and restarts: one final result
   reaches the parent, plus at most one for each requeue that did not reach the store.
   */
  lemma ResultsAreBounded(l: Life, run: seq<Action>)
    requires Reached(l, run)
    ensures l.tally.delivered <= 1 + l.tally.lost
  {
    hide Do, CrewInv;
    RunsKeepInvariant(l, run);
  }

  /**
   If every requeue reached the store, all phases together stay within the row's budget, every
   pause stores the exact count and the task pauses fewer times than it has iterations.
   */
  lemma BudgetIsKept(l: Life, run: seq<Action>)
    requires Reached(l, run) && l.tally.lost == 0
    ensures l.tally.passes <= l.max
    ensures l.tally.pauses == 0 || l.tally.pauses <= l.max - 1
    ensures Is(l, AwaitingInput) ==> l.task.value.used == l.tally.passes
    ensures RowAwaits(l.disk.row) ==> l.disk.row.value.used == l.tally.passes
  {
    hide Do, CrewInv;
    RunsKeepInvariant(l, run);
  }

  // ---------------------------------------------------------------------------
  // Crash recovery
  // ---------------------------------------------------------------------------

  predicate Unfinished(t: Task) {
    t.status.Queued? || t.status.Running? || t.status.Delivering?
  }

  /** What becomes of a row that a cut left half way, and of any other: nothing. */
  predicate Closed(before: Task, after: Task, now: nat, used: nat) {
    && (!Unfinished(before) ==> after == before)
    && (before.status.Delivering? ==>
          after == before.(status := DeliveryFailed, error := Some(CUT_DELIVERY), notified := false))
    && (before.status.Queued? || before.status.Running? ==>
          after == before.(status := Interrupted, used := used, finishedAt := Some(now), notified := false))
  }

  /**
   From a crash in ANY state, a start that succeeds leaves no row half way, keeps every persisted
   result, and loads exactly the rows that are still a matter of the parent; retention takes no row of a
   delivery that failed or was cut.
   */
  lemma CrashLosesNothing(l: Life, pruned: bool, now: nat, used: nat, recovered: Option<Text>)
    ensures
      var m := DoRestart(Remains(l), true, pruned, true, now, used, recovered);
      && (m.disk.row.Some? ==>
            && l.disk.row.Some?
            && !Unfinished(m.disk.row.value)
            && m.disk.row.value.result == l.disk.row.value.result
            && Closed(l.disk.row.value, m.disk.row.value, now, used))
      && (m.disk.row.None? <==> l.disk.row.None? || (pruned && !l.disk.row.value.status.DeliveryFailed?
                                                     && !l.disk.row.value.status.Delivering?))
      && (m.live <==> m.disk.row.Some?
                      && (m.disk.row.value.status.DeliveryFailed? || m.disk.row.value.status.AwaitingInput?
                          || (m.disk.row.value.status.Interrupted? && !m.disk.row.value.notified)))
      && (m.live ==> m.task.Some? && m.task.value.(question := None) == m.disk.row.value.(question := None))
      && (m.live && Is(m, AwaitingInput) ==> m.task.value.question == recovered)
      && m.desk == NO_DESK && m.crew == NO_CREW && m.entries == 0
  {
  }

  /** A stop cuts every runner, and what was queued or ran is interrupted in the dict; nothing is written yet. */
  lemma StopInterrupts(l: Life, run: seq<Action>)
    requires Reached(l, run) && DoProcess(l, StopMark).Some?
    ensures var m := DoProcess(l, StopMark).GetOr(l);
            && m.mode.Stopped? && m.crew.handle.None? && m.crew.lingering == {} && m.desk.answer.None?
            && (forall r | 0 <= r < |m.crew.runners| :: m.crew.runners[r].Done?)
            && !IsLive(m, Queued) && !IsLive(m, Running) && m.live == l.live && m.disk == l.disk
            && (IsLive(l, Queued) || IsLive(l, Running) ==>
                  m.task == Some(l.task.value.(status := Interrupted)) && IsLive(m, Interrupted))
            && (!IsLive(l, Queued) && !IsLive(l, Running) ==> m.task == l.task)
  {
    hide Play, Do;
  }

  /** A stop that writes what it cut leaves the row as a start would; without a store, or a failure, as it was. */
  lemma StopClosesRow(l: Life, ok: bool, now: nat, used: nat)
    requires DoProcess(l, StopSweep(ok, now, used)).Some?
    ensures var m := DoProcess(l, StopSweep(ok, now, used)).GetOr(l);
            && m.mode.Closed? && (m.disk.row.Some? <==> l.disk.row.Some?)
            && (l.disk.row.Some? ==>
                  if ok && !l.disk.broken then Closed(l.disk.row.value, m.disk.row.value, now, used)
                  else m.disk.row == l.disk.row)
  {
  }

  /** A pause that this process did not load is dismissed where it is: in the store. */
  lemma ColdPauseIsDismissed(l: Life, run: seq<Action>)
    requires Reached(l, run) && DoColdDismiss(l).Some?
    ensures var m := DoColdDismiss(l).GetOr(l);
            && l.disk.row.Some? && l.disk.row.value.status.AwaitingInput? && l.task.None?
            && m.task.None? && m.disk.row == l.disk.row && |m.disk.writes| == 1
            && Apply(m.disk.writes[0], l.disk.row.value)
                 == l.disk.row.value.(status := Dismissed, notified := true)
  {
  }

  predicate RowCut(row: Option<Task>) {
    row.Some? && row.value.status.Interrupted? && !row.value.notified
  }

  /** Only a dismissal or a notice is on its way to the row. */
  predicate OnlyFarewells(writes: seq<Write>) {
    forall i | 0 <= i < |writes| :: writes[i].WDismissed? || writes[i].WNoticed?
  }

  predicate Ended(l: Life) {
    Is(l, Interrupted) || Is(l, Dismissed)
  }

  /** While the row says interrupted, nobody who could bring the task back holds it. */
  predicate Undisturbed(l: Life) {
    l.disk.row.Some? && l.disk.row.value.status.Interrupted? ==>
      OnlyFarewells(l.disk.writes) && (Open(l) ==> !l.creating && (l.task.None? || Ended(l)))
  }

  lemma NobodyWorks(l: Life, r: nat)
    requires Owned(l.crew, Up(l), Doing(l), Over(l), PauseOf(l)) && Ended(l) && r < |l.crew.runners|
    ensures var pc := l.crew.runners[r]; !pc.Waiting? && !Executing(pc) && !HandingOver(pc)
  {
  }

  /** Whatever runner is left over moves only itself. */
  lemma RunsLeaveEnded(l: Life, r: nat, s: RunStep)
    requires Owned(l.crew, Up(l), Doing(l), Over(l), PauseOf(l)) && Ended(l) && DoRun(l, r, s).Some?
    ensures var m := DoRun(l, r, s).GetOr(l);
            m.disk == l.disk && m.task == l.task && m.mode == l.mode && m.creating == l.creating
  {
    hide Owned, AtChild, AtMarking, AtDispatching, AtDispatched, AtWaiting, AtStarting, Push;
    NobodyWorks(l, r);
  }

  predicate Works(w: Write) {
    !w.WDismissed? && !w.WNoticed? && !w.WColdDismissed?
  }

  /** A step that leaves the row to the store and says no farewell. */
  predicate WorksOn(d: Disk, e: Disk) {
    && e.row == d.row
    && (e.writes == d.writes
        || (|e.writes| == |d.writes| + 1 && d.writes <= e.writes && Works(e.writes[|d.writes|])))
  }

  lemma ChildWorksOn(l: Life, r: nat, pc: Pc, s: RunStep)
    requires r < |l.crew.runners| && l.task.Some? && pc.Child? && AtChild(l, r, pc, s).Some?
    ensures WorksOn(l.disk, AtChild(l, r, pc, s).GetOr(l).disk)
  {
    hide Apply;
  }

  lemma AskerWorksOn(l: Life, r: nat, pc: Pc, s: RunStep)
    requires r < |l.crew.runners| && l.task.Some?
    ensures pc.Pausing? && AtPausing(l, r, pc, s).Some? ==> WorksOn(l.disk, AtPausing(l, r, pc, s).GetOr(l).disk)
    ensures pc.Asking? && AtAsking(l, r, pc, s).Some? ==> WorksOn(l.disk, AtAsking(l, r, pc, s).GetOr(l).disk)
  {
  }

  lemma DispatcherWorksOn(l: Life, r: nat, pc: Pc, s: RunStep)
    requires r < |l.crew.runners| && l.task.Some?
    ensures pc.Marking? && AtMarking(l, r, pc, s).Some? ==> WorksOn(l.disk, AtMarking(l, r, pc, s).GetOr(l).disk)
    ensures pc.Dispatching? && AtDispatching(l, r, pc, s).Some? ==>
            WorksOn(l.disk, AtDispatching(l, r, pc, s).GetOr(l).disk)
    ensures AtDispatched(l, r, s).Some? ==> WorksOn(l.disk, AtDispatched(l, r, s).GetOr(l).disk)
  {
    hide Apply;
  }

  /** Runners never write the row themselves, nor close an interruption. */
  lemma RunsWorkOn(l: Life, r: nat, s: RunStep)
    requires DoRun(l, r, s).Some?
    ensures WorksOn(l.disk, DoRun(l, r, s).GetOr(l).disk)
  {
    hide AtChild, AtPausing, AtAsking, AtDispatching;
    var pc := l.crew.runners[r];
    match pc
    case Child(_, _, _, _, _) => ChildWorksOn(l, r, pc, s);
    case Pausing(_, _) => AskerWorksOn(l, r, pc, s);
    case Asking(_, _) => AskerWorksOn(l, r, pc, s);
    case Marking(_, _) => DispatcherWorksOn(l, r, pc, s);
    case Dispatching(_) => DispatcherWorksOn(l, r, pc, s);
    case Dispatched => DispatcherWorksOn(l, r, pc, s);
    case _ =>
  }

  lemma CallsWorkOn(l: Life, c: nat, s: CallStep)
    requires DoCall(l, c, s).Some?
    ensures WorksOn(l.disk, DoCall(l, c, s).GetOr(l).disk)
  {
  }

  lemma CallsLeaveEnded(l: Life, c: nat, s: CallStep)
    requires Ended(l) && DoCall(l, c, s).Some?
    ensures var m := DoCall(l, c, s).GetOr(l);
            m.disk == l.disk && m.task == l.task && m.mode == l.mode && m.creating == l.creating
  {
    hide Apply;
  }

  lemma CancelKeepsUndisturbed(l: Life, now: nat)
    requires Shape(l) && Undisturbed(l) && DoCancel(l, now).Some?
    ensures Undisturbed(DoCancel(l, now).GetOr(l))
  {
  }

  lemma SettleKeepsUndisturbed(l: Life, ok: bool)
    requires Undisturbed(l) && DoSettle(l, ok).Some?
    ensures Undisturbed(DoSettle(l, ok).GetOr(l))
  {
  }

  lemma ProcessKeepsUndisturbed(l: Life, s: ProcessStep)
    requires Inv(l) && Undisturbed(l) && DoProcess(l, s).Some?
    ensures Undisturbed(DoProcess(l, s).GetOr(l))
  {
    hide DiskInv, Reserved, Stamped;
  }

  lemma UndisturbedKept(l: Life, a: Action)
    requires Inv(l) && Undisturbed(l) && Do(l, a).Some?
    ensures Undisturbed(Do(l, a).GetOr(l))
  {
    hide DoCancel, DoSettle, DoProcess, DiskInv, Stamped;
    match a
    case Enqueues(_) =>
    case Consumes =>
    case Runs(r, s) =>
      RunsWorkOn(l, r, s);
      if Ended(l) {
        RunsLeaveEnded(l, r, s);
      }
    case Cancels(now) => CancelKeepsUndisturbed(l, now);
    case ColdDismisses =>
    case Resumes(_, _) =>
    case Calls(c, s) =>
      CallsWorkOn(l, c, s);
      if Ended(l) {
        CallsLeaveEnded(l, c, s);
      }
    case Settles(ok) => SettleKeepsUndisturbed(l, ok);
    case Process(s) => ProcessKeepsUndisturbed(l, s);
  }

  lemma {:induction false} UndisturbedAlong(l: Life, run: seq<Action>)
    requires Inv(l) && Undisturbed(l) && Play(l, run).Some?
    ensures Undisturbed(Play(l, run).GetOr(l))
    decreases |run|
  {
    hide Do, DiskInv, Reserved, Stamped;
    if run != [] {
      UndisturbedKept(l, run[0]);
      Keeps(l, run[0]);
      UndisturbedAlong(Do(l, run[0]).value, run[1..]);
    }
  }

  predicate EndsNotice(l: Life, a: Action) {
    || (a.Settles? && a.ok && l.disk.writes != [] && (l.disk.writes[0].WDismissed? || l.disk.writes[0].WNoticed?))
    || (a.Process? && a.process.Restart? && a.process.pruned)
  }

  lemma SettleKeepsNotice(l: Life, ok: bool)
    requires Undisturbed(l) && RowCut(l.disk.row) && DoSettle(l, ok).Some?
    ensures RowCut(DoSettle(l, ok).GetOr(l).disk.row) || EndsNotice(l, Settles(ok))
  {
  }

  lemma ProcessKeepsNotice(l: Life, s: ProcessStep)
    requires RowCut(l.disk.row) && DoProcess(l, s).Some?
    ensures RowCut(DoProcess(l, s).GetOr(l).disk.row) || EndsNotice(l, Process(s))
  {
  }

  /** A row is created once. */
  lemma RowBirth(l: Life, s: EnqueueStep)
    requires Shape(l) && l.disk.row.Some? && DoEnqueue(l, s).Some?
    ensures DoEnqueue(l, s).GetOr(l).disk.row == l.disk.row
  {
  }

  lemma CancelKeepsNotice(l: Life, a: Action)
    requires (a.Consumes? || a.Cancels? || a.ColdDismisses? || a.Resumes?) && Do(l, a).Some?
    ensures Do(l, a).GetOr(l).disk.row == l.disk.row
  {
  }

  lemma StepKeepsNotice(l: Life, a: Action)
    requires Shape(l) && Undisturbed(l) && RowCut(l.disk.row) && Do(l, a).Some?
    ensures RowCut(Do(l, a).GetOr(l).disk.row) || EndsNotice(l, a)
  {
    hide DoRun, DoCall, DoCancel, DoSettle, DoProcess;
    match a
    case Enqueues(s) => RowBirth(l, s);
    case Runs(r, s) => RunsWorkOn(l, r, s);
    case Calls(c, s) => CallsWorkOn(l, c, s);
    case Settles(ok) => SettleKeepsNotice(l, ok);
    case Process(s) => ProcessKeepsNotice(l, s);
    case _ => CancelKeepsNotice(l, a);
  }

  /** A notice that nobody got stays pending: only a dismissal, a delivered notice or retention ends it. */
  lemma InterruptedStaysPending(l: Life, run: seq<Action>, a: Action)
    requires Reached(l, run) && RowCut(l.disk.row) && Do(l, a).Some?
    ensures RowCut(Do(l, a).GetOr(l).disk.row) || EndsNotice(l, a)
  {
    hide Do, DiskInv;
    UnbornIsKept();
    UndisturbedAlong(UNBORN, run);
    RunsKeepInvariant(l, run);
    StepKeepsNotice(l, a);
  }

  /** And those writes are issued only by a cancel and by a notice whose dispatch succeeded. */
  lemma WhoEndsAnInterruption(l: Life, a: Action)
    requires Do(l, a).Some?
    ensures var m := Do(l, a).GetOr(l);
            |m.disk.writes| > |l.disk.writes| ==>
              && (m.disk.writes[|l.disk.writes|].WDismissed? ==> a.Cancels?)
              && (m.disk.writes[|l.disk.writes|].WNoticed? ==> a == Process(NoticeOk))
  {
    match a
    case Runs(r, s) => RunsWorkOn(l, r, s);
    case Calls(c, s) => CallsWorkOn(l, c, s);
    case _ =>
  }
}
