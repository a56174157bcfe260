/**
 The startup notice marks what it told without looking at the pause again. This module says exactly
 when it marks a question that it did not tell, and gives a run in which it happens.
 */
module DelegationNotice {
  import opened Wrappers
  import opened DelegationLife
  import opened DelegationInvariant
  import opened DelegationProof
  import opened DelegationTwice

  // ---------------------------------------------------------------------------
  // A pause ends for good, or by a resume
  // ---------------------------------------------------------------------------

  /** Everything but the end of the process, which ends the notice too. */
  predicate Within(a: Action) {
    a.Process? ==> !a.process.Crash? && !a.process.Restart?
  }

  predicate AllWithin(run: seq<Action>) {
    forall i | 0 <= i < |run| :: Within(run[i])
  }

  /** Some call of resume has spent this pause. */
  predicate Spent(desk: Desk, stamp: nat) {
    exists c | 0 <= c < |desk.calls| :: Claims(desk.calls[c]) && desk.calls[c].stamp == stamp
  }

  /** Some call of resume answered `resumed` for this pause. */
  predicate Resolved(desk: Desk, stamp: nat) {
    exists c | 0 <= c < |desk.calls| :: Won(desk.calls[c]) && desk.calls[c].stamp == stamp
  }

  /** From here the task does not come back to its child in this process. */
  predicate Leaving(l: Life) {
    l.task.Some? && (l.task.value.status.Delivering? || l.task.value.status.DeliveryFailed?
                     || l.task.value.status.Interrupted? || Terminal(l.task.value.status))
  }

  /** A resume inside its write has taken the task out of the pause. */
  predicate WriteMeansLeft(l: Life) {
    RequeueTicket(l.desk).Some? ==> !Is(l, AwaitingInput)
  }

  predicate Since(l: Life, stamp: nat) {
    l.task.Some? && (InPause(l, stamp) || Spent(l.desk, stamp) || Leaving(l))
  }

  // How a segment of a runner moves the task, by where the runner is.

  predicate SameStay(l: Life, m: Life) {
    m.task.Some? && l.task.Some? && m.task.value.status == l.task.value.status
    && m.task.value.finishedAt == l.task.value.finishedAt
  }

  predicate SameDesk(l: Life, m: Life) {
    m.desk.calls == l.desk.calls && m.desk.reservation == l.desk.reservation
  }

  predicate StaysOrLeaves(l: Life, m: Life) {
    SameDesk(l, m) && (SameStay(l, m) || Leaving(m))
  }

  lemma ChildSparesDesk(l: Life, r: nat, pc: Pc, s: RunStep)
    requires r < |l.crew.runners| && l.task.Some? && pc.Child? && AtChild(l, r, pc, s).Some?
    ensures SameDesk(l, AtChild(l, r, pc, s).GetOr(l)) && AtChild(l, r, pc, s).GetOr(l).task.Some?
  {
  }

  lemma AskerStaysOrLeaves(l: Life, r: nat, pc: Pc, s: RunStep)
    requires r < |l.crew.runners| && l.task.Some?
    ensures pc.Pausing? && AtPausing(l, r, pc, s).Some? ==> StaysOrLeaves(l, AtPausing(l, r, pc, s).GetOr(l))
    ensures pc.Asking? && AtAsking(l, r, pc, s).Some? ==> StaysOrLeaves(l, AtAsking(l, r, pc, s).GetOr(l))
  {
  }

  lemma DispatcherStaysOrLeaves(l: Life, r: nat, pc: Pc, s: RunStep)
    requires r < |l.crew.runners| && l.task.Some?
    ensures pc.Marking? && AtMarking(l, r, pc, s).Some? ==> StaysOrLeaves(l, AtMarking(l, r, pc, s).GetOr(l))
    ensures pc.Dispatching? && AtDispatching(l, r, pc, s).Some? ==>
              StaysOrLeaves(l, AtDispatching(l, r, pc, s).GetOr(l))
    ensures AtDispatched(l, r, s).Some? ==> StaysOrLeaves(l, AtDispatched(l, r, s).GetOr(l))
  {
  }

  lemma StarterStays(l: Life, r: nat, ticket: nat)
    requires r < |l.crew.runners| && l.task.Some? && AtStarting(l, r, ticket).Some?
    ensures StaysOrLeaves(l, AtStarting(l, r, ticket).GetOr(l))
  {
  }

  /** Out of `queued` a runner takes the task to `running`; only out of `running` does it pause. */
  predicate Moves(l: Life, m: Life) {
    && SameDesk(l, m) && m.task.Some?
    && (SameStay(l, m) || Leaving(m) || Doing(l) == Some(Running) || (Doing(l) == Some(Queued) && Is(m, Running)))
  }

  lemma RunMoves(l: Life, r: nat, s: RunStep)
    requires Owned(l.crew, Up(l), Doing(l), Over(l), PauseOf(l)) && DoRun(l, r, s).Some?
    ensures Moves(l, DoRun(l, r, s).GetOr(l))
  {
    hide AtChild, AtPausing, AtAsking, AtDispatching;
    var pc := l.crew.runners[r];
    match pc
    case Child(_, _, _, _, _) => ChildSparesDesk(l, r, pc, s);
    case Pausing(_, _) => AskerStaysOrLeaves(l, r, pc, s);
    case Asking(_, _) => AskerStaysOrLeaves(l, r, pc, s);
    case Marking(_, _) => DispatcherStaysOrLeaves(l, r, pc, s);
    case Dispatching(_) => DispatcherStaysOrLeaves(l, r, pc, s);
    case Dispatched => DispatcherStaysOrLeaves(l, r, pc, s);
    case Starting(t) => StarterStays(l, r, t);
    case _ =>
  }

  lemma MovesKeepLeft(l: Life, m: Life)
    requires CrewInv(l) && WriteMeansLeft(l) && Moves(l, m)
    ensures WriteMeansLeft(m)
  {
  }

  lemma MovesKeepSince(l: Life, m: Life, stamp: nat)
    requires Since(l, stamp) && Moves(l, m)
    ensures Since(m, stamp)
  {
  }

  lemma CallKeepsLeft(l: Life, c: nat, s: CallStep)
    requires CrewInv(l) && WriteMeansLeft(l) && DoCall(l, c, s).Some?
    ensures WriteMeansLeft(DoCall(l, c, s).GetOr(l))
  {
    hide Stamped, Questioned;
  }

  lemma ResumeKeepsLeft(l: Life, text: Text, refused: bool)
    requires CrewInv(l) && WriteMeansLeft(l) && DoResume(l, text, refused).Some?
    ensures WriteMeansLeft(DoResume(l, text, refused).GetOr(l))
  {
    hide Owned;
  }

  lemma CancelMoves(l: Life, now: nat)
    requires l.task.Some? && DoCancel(l, now).Some?
    ensures Moves(l, DoCancel(l, now).GetOr(l))
  {
    if Is(l, Delivering) {
      assert DoCancel(l, now).value == l;
    } else {
      assert !DoCancel(l, now).value.live;
    }
  }

  lemma SettleMoves(l: Life, ok: bool)
    requires l.task.Some? && DoSettle(l, ok).Some?
    ensures Moves(l, DoSettle(l, ok).GetOr(l))
  {
  }

  lemma ProcessMoves(l: Life, s: ProcessStep)
    requires l.task.Some? && !s.Crash? && !s.Restart? && DoProcess(l, s).Some?
    ensures Moves(l, DoProcess(l, s).GetOr(l))
  {
  }

  /** The actors that neither run the task nor resume it. */
  lemma OthersMove(l: Life, a: Action)
    requires Shape(l) && l.task.Some? && Within(a) && Do(l, a).Some?
    requires !a.Runs? && !a.Calls? && !a.Resumes?
    ensures Moves(l, Do(l, a).GetOr(l))
  {
    hide DoRun, DoCall, DoCancel, DoSettle, DoProcess;
    match a
    case Cancels(now) => CancelMoves(l, now);
    case Settles(ok) => SettleMoves(l, ok);
    case Process(s) => ProcessMoves(l, s);
    case _ =>
  }

  /** Without a task nobody resumes. */
  lemma UntasksKeepLeft(l: Life, a: Action)
    requires Shape(l) && (l.task.None? || !Within(a)) && Do(l, a).Some?
    requires !a.Runs? && !a.Calls? && !a.Resumes?
    ensures WriteMeansLeft(Do(l, a).GetOr(l))
  {
  }

  lemma StepKeepsLeft(l: Life, a: Action)
    requires CrewInv(l) && WriteMeansLeft(l) && Do(l, a).Some?
    ensures WriteMeansLeft(Do(l, a).GetOr(l))
  {
    hide DoRun, DoCall, DoCancel, DoSettle, DoProcess, DiskInv, Reserved, Stamped;
    var m := Do(l, a).value;
    match a
    case Runs(r, s) =>
      RunMoves(l, r, s);
      MovesKeepLeft(l, m);
    case Calls(c, s) => CallKeepsLeft(l, c, s);
    case Resumes(text, refused) => ResumeKeepsLeft(l, text, refused);
    case _ =>
      if l.task.Some? && Within(a) {
        OthersMove(l, a);
        MovesKeepLeft(l, m);
      } else {
        UntasksKeepLeft(l, a);
      }
  }

  lemma {:induction false} PlayKeepsLeft(l: Life, run: seq<Action>)
    requires Inv(l) && WriteMeansLeft(l) && Play(l, run).Some?
    ensures WriteMeansLeft(Play(l, run).GetOr(l))
    decreases |run|
  {
    hide Do, DiskInv, Reserved, Stamped;
    if run != [] {
      StepKeepsLeft(l, run[0]);
      Keeps(l, run[0]);
      PlayKeepsLeft(Do(l, run[0]).value, run[1..]);
    }
  }

  /** A call that spent its pause says so, or the task was cancelled or stopped meanwhile. */
  lemma CallKeepsSpent(l: Life, c: nat, s: CallStep, d: nat)
    requires CrewInv(l) && WriteMeansLeft(l) && DoCall(l, c, s).Some?
    requires d < |l.desk.calls| && Claims(l.desk.calls[d])
    ensures var m := DoCall(l, c, s).GetOr(l);
            |m.desk.calls| == |l.desk.calls| && m.task.Some?
            && (Leaving(m) || (Claims(m.desk.calls[d]) && m.desk.calls[d].stamp == l.desk.calls[d].stamp))
  {
  }

  /** A call moves the task out of a pause only by spending it. */
  lemma CallSpendsPause(l: Life, c: nat, s: CallStep, stamp: nat)
    requires CrewInv(l) && DoCall(l, c, s).Some? && c < |l.desk.calls| && InPause(l, stamp)
    ensures var m := DoCall(l, c, s).GetOr(l);
            && c < |m.desk.calls| && m.task.Some?
            && (InPause(m, stamp) || (Claims(m.desk.calls[c]) && m.desk.calls[c].stamp == stamp))
  {
  }

  lemma CallLetsLeave(l: Life, c: nat, s: CallStep)
    requires Leaving(l) && DoCall(l, c, s).Some?
    ensures Leaving(DoCall(l, c, s).GetOr(l))
  {
  }

  lemma CallKeepsSince(l: Life, c: nat, s: CallStep, stamp: nat)
    requires CrewInv(l) && WriteMeansLeft(l) && Since(l, stamp) && DoCall(l, c, s).Some?
    ensures Since(DoCall(l, c, s).GetOr(l), stamp)
  {
    if InPause(l, stamp) {
      CallSpendsPause(l, c, s, stamp);
    } else if Leaving(l) {
      CallLetsLeave(l, c, s);
    } else {
      var d :| 0 <= d < |l.desk.calls| && Claims(l.desk.calls[d]) && l.desk.calls[d].stamp == stamp;
      CallKeepsSpent(l, c, s, d);
    }
  }

  lemma ResumeKeepsSince(l: Life, text: Text, refused: bool, stamp: nat)
    requires Since(l, stamp) && DoResume(l, text, refused).Some?
    ensures Since(DoResume(l, text, refused).GetOr(l), stamp)
  {
    var m := DoResume(l, text, refused).value;
    assert forall c | 0 <= c < |l.desk.calls| :: m.desk.calls[c] == l.desk.calls[c];
  }

  lemma StepKeepsSince(l: Life, a: Action, stamp: nat)
    requires CrewInv(l) && WriteMeansLeft(l) && Since(l, stamp) && Within(a) && Do(l, a).Some?
    ensures Since(Do(l, a).GetOr(l), stamp)
  {
    hide DoRun, DoCall, DoCancel, DoSettle, DoProcess, DiskInv, Reserved, Stamped;
    var m := Do(l, a).value;
    match a
    case Runs(r, s) =>
      RunMoves(l, r, s);
      MovesKeepSince(l, m, stamp);
    case Calls(c, s) => CallKeepsSince(l, c, s, stamp);
    case Resumes(text, refused) => ResumeKeepsSince(l, text, refused, stamp);
    case _ =>
      OthersMove(l, a);
      MovesKeepSince(l, m, stamp);
  }

  lemma {:induction false} PlayKeepsSince(l: Life, run: seq<Action>, stamp: nat)
    requires Inv(l) && WriteMeansLeft(l) && Since(l, stamp) && AllWithin(run) && Play(l, run).Some?
    ensures Since(Play(l, run).GetOr(l), stamp)
    decreases |run|
  {
    hide Do, CrewInv, DiskInv;
    if run != [] {
      assert Within(run[0]);
      assert forall i | 0 <= i < |run[1..]| :: run[1..][i] == run[i + 1];
      StepKeepsSince(l, run[0], stamp);
      StepKeepsLeft(l, run[0]);
      Keeps(l, run[0]);
      PlayKeepsSince(Do(l, run[0]).value, run[1..], stamp);
    }
  }

  // ---------------------------------------------------------------------------
  // The exact condition
  // ---------------------------------------------------------------------------

  lemma NothingLeftUnborn()
    ensures Inv(UNBORN) && WriteMeansLeft(UNBORN)
  {
  }

  lemma {:induction false} SinceTheNotice(l: Life, before: seq<Action>, run: seq<Action>, stamp: nat)
    requires Reached(l, before) && InPause(l, stamp)
    requires AllWithin(run) && Play(l, run).Some?
    ensures var m := Play(l, run).GetOr(l); CrewInv(m) && WriteMeansLeft(m) && Since(m, stamp)
  {
    hide Do, DiskInv, Reserved, Stamped;
    NothingLeftUnborn();
    PlayKeeps(UNBORN, before);
    PlayKeepsLeft(UNBORN, before);
    PlayKeepsSince(l, run, stamp);
    PlayKeepsLeft(l, run);
    PlayKeeps(l, run);
  }

  lemma PausesTell(l: Life, stamp: nat)
    requires CrewInv(l) && WriteMeansLeft(l) && Since(l, stamp) && Is(l, AwaitingInput)
    ensures !InPause(l, stamp) <==> Resolved(l.desk, stamp)
  {
    if Spent(l.desk, stamp) {
      var c :| 0 <= c < |l.desk.calls| && Claims(l.desk.calls[c]) && l.desk.calls[c].stamp == stamp;
      assert Won(l.desk.calls[c]);
    }
  }

  lemma NoticeTells(l: Life, stamp: nat)
    requires CrewInv(l) && WriteMeansLeft(l) && Since(l, stamp) && DoProcess(l, NoticeOk).Some?
    ensures var m := DoProcess(l, NoticeOk).GetOr(l);
            && m.task.Some? && m.task.value.notified
            && (Is(m, AwaitingInput) ==> (!InPause(m, stamp) <==> Resolved(m.desk, stamp)))
  {
    if Is(l, AwaitingInput) {
      PausesTell(l, stamp);
    }
  }

  /**
   The notice tells the pause `stamp`; whatever happens while it is under way, what it then marks as
   told is the same pause, unless that one was resumed meanwhile: then, and only then, it is another.
   */
  lemma {:induction false} NoticeMarksExactly(l: Life, before: seq<Action>, run: seq<Action>, stamp: nat)
    requires Reached(l, before) && l.noticing && InPause(l, stamp)
    requires AllWithin(run) && Play(l, run).Some? && Do(Play(l, run).GetOr(l), Process(NoticeOk)).Some?
    ensures var m := Do(Play(l, run).GetOr(l), Process(NoticeOk)).GetOr(Play(l, run).GetOr(l));
            && m.task.Some? && m.task.value.notified
            && (Is(m, AwaitingInput) ==> (!InPause(m, stamp) <==> Resolved(m.desk, stamp)))
  {
    hide DoRun, DoCall, DoCancel, DoSettle, DoProcess, CrewInv;
    SinceTheNotice(l, before, run, stamp);
    NoticeTells(Play(l, run).value, stamp);
  }

  // ---------------------------------------------------------------------------
  // It does happen
  // ---------------------------------------------------------------------------

  const ASKED_AGAIN := Script(1, false, Awaited)
  const ASKING_AGAIN := Task(AwaitingInput, Some([]), None, false, Some(1), 2, false, Some([]))
  const ASKING_AGAIN_ROW := Task(AwaitingInput, Some([]), None, false, Some(1), 2, false, None)

  /** After a restart: the question of the first pause is in the notice. */
  const NOTICING :=
    Life(Live, true, 3, 1, false, Some(ASKING), true, 0, true, NO_CREW, NO_DESK,
         Disk(false, [], 0, Some(ASKING_ROW), ONE_REPLY), Tally(0, 0, 1, 1))

  const REQUEUED_MEANWHILE :=
    NOTICING.(task := Some(REQUEUED), entries := 1,
              desk := Desk(None, [Returned(0, Resumed)], Some(Answer(0, [], 1)), [], {}),
              disk := Disk(false, [], 1, Some(Task(Queued, None, None, true, None, 1, false, None)), ONE_REPLY))

  const RUNNING_MEANWHILE :=
    NOTICING.(task := Some(RERUNNING), crew := Crew([Child(1, 0, 2, true, Owed)], Some(0), {}),
              desk := Desk(None, [Returned(0, Resumed)], None, [0], {}),
              disk := Disk(false, [], 2, Some(RERUNNING), ASKED_AGAIN))

  const PAUSING_MEANWHILE :=
    RUNNING_MEANWHILE.(task := Some(ASKING_AGAIN), clock := 2, crew := Crew([Pausing(1, 3)], Some(0), {}),
                       disk := Disk(false, [WAwaiting([], 1, 2)], 2, Some(RERUNNING), TWO_REPLIES),
                           tally := Tally(0, 0, 2, 2))

  const PAUSED_MEANWHILE :=
    RUNNING_MEANWHILE.(task := Some(ASKING_AGAIN), clock := 2, crew := Crew([Asking(1, 1)], Some(0), {}),
                       disk := Disk(false, [], 3, Some(ASKING_AGAIN_ROW), TWO_REPLIES), tally := Tally(0, 0, 2, 2))

  /** The second question was given up, and the notice of the first marked it. */
  const SILENCED :=
    PAUSED_MEANWHILE.(task := Some(ASKING_AGAIN.(error := Some([]), notified := true)), noticing := false,
                      crew := Crew([Asked(4)], Some(0), {}),
                      disk := Disk(false, [WError([]), WNoticed], 3, Some(ASKING_AGAIN_ROW), TWO_REPLIES))

  const LONG_FIRST_PHASE :=
    FIRST_PHASE.(max := 3, crew := Crew([Child(0, 0, 3, true, Owed)], Some(0), {}))

  const LONG_PAUSING :=
    LONG_FIRST_PHASE.(task := Some(ASKING), clock := 1, crew := Crew([Pausing(0, 2)], Some(0), {}),
                      disk := Disk(false, [WAwaiting([], 0, 1)], 1, Some(RUNNING), ONE_REPLY), tally := Tally(0, 0,
                          1, 1))

  const CUT_IN_PAUSE :=
    UNBORN.(born := true, max := 3, clock := 1, disk := Disk(false, [], 0, Some(ASKING_ROW), ONE_REPLY),
            tally := Tally(0, 0, 1, 1))

  lemma {:induction false} LongRegisteredIsReachable()
    ensures Reachable(REGISTERED.(max := 3))
  {
    assert Reached(UNBORN, []);
    var wake := Process(Restart(false, false, false, 0, 0, None));
    Reaches(UNBORN, wake);
    var l1 := Do(UNBORN, wake).value;
    Reaches(l1, Enqueues(CreateRow(3)));
    var l2 := Do(l1, Enqueues(CreateRow(3))).value;
    Reaches(l2, Enqueues(Register));
    assert Do(l2, Enqueues(Register)).value == REGISTERED.(max := 3);
  }

  lemma {:induction false} LongFirstPhaseIsReachable()
    ensures Reachable(LONG_FIRST_PHASE)
  {
    LongRegisteredIsReachable();
    Reaches(REGISTERED.(max := 3), Consumes);
    var l1 := Do(REGISTERED.(max := 3), Consumes).value;
    Reaches(l1, Runs(0, Proceed));
    var l2 := Do(l1, Runs(0, Proceed)).value;
    Reaches(l2, Settles(true));
    var l3 := Do(l2, Settles(true)).value;
    Reaches(l3, Runs(0, Proceed));
    var l4 := LONG_FIRST_PHASE.(crew := Crew([Child(0, 0, 3, true, Unsaid)], Some(0), {}),
                                disk := Disk(false, [], 1, Some(RUNNING), NO_SCRIPT));
    assert Do(l3, Runs(0, Proceed)).value == l4;
    Reaches(l4, Runs(0, Note(true, false, false)));
    assert Do(l4, Runs(0, Note(true, false, false))).value == LONG_FIRST_PHASE;
  }

  const LONG_REPLIED :=
    LONG_FIRST_PHASE.(crew := Crew([Child(0, 1, 3, true, Final)], Some(0), {}),
                      disk := Disk(false, [], 1, Some(RUNNING), ONE_REPLY), tally := Tally(0, 0, 1, 0))

  lemma {:induction false} LongRepliedIsReachable()
    ensures Reachable(LONG_REPLIED)
  {
    hide DoCall, DoProcess, DoSettle, DoCancel, DoResume, DoPause;
    LongFirstPhaseIsReachable();
    Reaches(LONG_FIRST_PHASE, Runs(0, Pass(true, false, true)));
    assert Do(LONG_FIRST_PHASE, Runs(0, Pass(true, false, true))).value == LONG_REPLIED;
  }

  lemma {:induction false} LongPausingIsReachable()
    ensures Reachable(LONG_PAUSING)
  {
    hide DoCall, DoProcess, DoSettle, DoCancel, DoResume, Voiced;
    LongRepliedIsReachable();
    Reaches(LONG_REPLIED, Runs(0, Pause([], [])));
    assert Do(LONG_REPLIED, Runs(0, Pause([], []))).value == LONG_PAUSING;
  }

  lemma {:induction false} CutInPauseIsReachable()
    ensures Reachable(CUT_IN_PAUSE)
  {
    LongPausingIsReachable();
    Reaches(LONG_PAUSING, Settles(true));
    var l1 := Do(LONG_PAUSING, Settles(true)).value;
    Reaches(l1, Process(Crash));
    assert Do(l1, Process(Crash)).value == CUT_IN_PAUSE;
  }

  lemma {:induction false} NoticingIsReachable()
    ensures Reachable(NOTICING)
  {
    CutInPauseIsReachable();
    var wake := Process(Restart(false, false, true, 0, 0, Some([])));
    Reaches(CUT_IN_PAUSE, wake);
    var l1 := Do(CUT_IN_PAUSE, wake).value;
    Reaches(l1, Process(NoticeBegin));
    assert Do(l1, Process(NoticeBegin)).value == NOTICING;
  }

  /** Some run leads there in which no runner's dispatch succeeds. */
  ghost predicate Quietly(l: Life, m: Life) {
    exists run :: Play(l, run) == Some(m) && Quiet(run)
  }

  predicate Quiet(run: seq<Action>) {
    forall i | 0 <= i < |run| :: !(run[i].Runs? && run[i].run.Succeed?)
  }

  lemma {:induction false} QuietStep(l: Life, m: Life, a: Action)
    requires Quietly(l, m) && Do(m, a).Some? && !(a.Runs? && a.run.Succeed?)
    ensures Quietly(l, Do(m, a).GetOr(m))
  {
    hide Do;
    var run :| Play(l, run) == Some(m) && Quiet(run);
    PlayOneMore(l, run, a);
    assert Quiet(run + [a]);
  }

  lemma {:induction false} ReopenedQuietly() returns (l2: Life)
    ensures Quietly(NOTICING, l2)
    ensures Do(NOTICING, Resumes([], false)).Some?
    ensures Do(Do(NOTICING, Resumes([], false)).GetOr(NOTICING), Calls(0, Reopened)) == Some(l2)
  {
    assert Play(NOTICING, []) == Some(NOTICING) && Quiet([]);
    QuietStep(NOTICING, NOTICING, Resumes([], false));
    var l1 := Do(NOTICING, Resumes([], false)).value;
    QuietStep(NOTICING, l1, Calls(0, Reopened));
    l2 := Do(l1, Calls(0, Reopened)).value;
  }

  lemma {:induction false} AnsweredMeanwhile()
    ensures Quietly(NOTICING, REQUEUED_MEANWHILE)
  {
    var l2 := ReopenedQuietly();
    QuietStep(NOTICING, l2, Settles(true));
    var l3 := Do(l2, Settles(true)).value;
    QuietStep(NOTICING, l3, Calls(0, Written));
    assert Do(l3, Calls(0, Written)).value == REQUEUED_MEANWHILE;
  }

  lemma {:induction false} RunsMeanwhile()
    ensures Quietly(NOTICING, RUNNING_MEANWHILE)
  {
    AnsweredMeanwhile();
    QuietStep(NOTICING, REQUEUED_MEANWHILE, Consumes);
    var l1 := Do(REQUEUED_MEANWHILE, Consumes).value;
    QuietStep(NOTICING, l1, Runs(0, Proceed));
    var l2 := Do(l1, Runs(0, Proceed)).value;
    QuietStep(NOTICING, l2, Settles(true));
    var l3 := Do(l2, Settles(true)).value;
    QuietStep(NOTICING, l3, Runs(0, Proceed));
    var l4 := RUNNING_MEANWHILE.(crew := Crew([Child(1, 0, 2, true, Unsaid)], Some(0), {}),
                                 disk := Disk(false, [], 2, Some(RERUNNING), ONE_REPLY));
    assert Do(l3, Runs(0, Proceed)).value == l4;
    QuietStep(NOTICING, l4, Runs(0, Note(true, false, false)));
    assert Do(l4, Runs(0, Note(true, false, false))).value == RUNNING_MEANWHILE;
  }

  lemma {:induction false} AsksMeanwhile()
    ensures Quietly(NOTICING, PAUSING_MEANWHILE)
  {
    RunsMeanwhile();
    QuietStep(NOTICING, RUNNING_MEANWHILE, Runs(0, Pass(true, false, true)));
    var l1 := RUNNING_MEANWHILE.(crew := Crew([Child(1, 1, 2, true, Final)], Some(0), {}),
                                 disk := Disk(false, [], 2, Some(RERUNNING), TWO_REPLIES), tally := Tally(0, 0, 2, 1));
    assert Do(RUNNING_MEANWHILE, Runs(0, Pass(true, false, true))).value == l1;
    QuietStep(NOTICING, l1, Runs(0, Pause([], [])));
    assert Do(l1, Runs(0, Pause([], []))).value == PAUSING_MEANWHILE;
  }

  lemma {:induction false} PausesMeanwhile()
    ensures Quietly(NOTICING, PAUSED_MEANWHILE)
  {
    AsksMeanwhile();
    QuietStep(NOTICING, PAUSING_MEANWHILE, Settles(true));
    var l1 := Do(PAUSING_MEANWHILE, Settles(true)).value;
    QuietStep(NOTICING, l1, Runs(0, Proceed));
    assert Do(l1, Runs(0, Proceed)).value == PAUSED_MEANWHILE;
  }

  /**
   A question that nobody delivered is marked as told by the notice of the previous one, and no
   later notice takes it up.
   */
  lemma {:induction false} QuestionIsSilenced()
    ensures Reachable(NOTICING) && NOTICING.noticing && InPause(NOTICING, 0) && Quietly(NOTICING, SILENCED)
    ensures InPause(SILENCED, 1) && SILENCED.task.value.notified && DoProcess(SILENCED, NoticeBegin).None?
  {
    NoticingIsReachable();
    PausesMeanwhile();
    QuietStep(NOTICING, PAUSED_MEANWHILE, Runs(0, Fail(true, [])));
    var l1 := Do(PAUSED_MEANWHILE, Runs(0, Fail(true, []))).value;
    QuietStep(NOTICING, l1, Process(NoticeOk));
    assert Do(l1, Process(NoticeOk)).value == SILENCED;
  }
}
