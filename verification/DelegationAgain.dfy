/** When exactly can a pause that was resumed or dismissed be resumed once more? */
module DelegationAgain {
  import opened Wrappers
  import opened DelegationLife
  import opened DelegationInvariant
  import opened DelegationProof
  import opened DelegationReplay
  import opened DelegationTheorems
  import opened DelegationTwice
  import opened DelegationNotice
  import opened DelegationPhases
  import opened DelegationSpent

  // ---------------------------------------------------------------------------
  // A spent pause that the task is in was loaded from its row
  // ---------------------------------------------------------------------------

  predicate Light(w: Write) {
    w.WNotified? || w.WError? || w.WIncomplete? || w.WNoticed?
  }

  predicate AllLight(writes: seq<Write>) {
    forall i | 0 <= i < |writes| :: Light(writes[i])
  }

  predicate Loaded(d: Disk, stamp: nat) {
    Holds(d.row, stamp) && AllLight(d.writes)
  }

  predicate Old(l: Life, stamp: nat) {
    stamp < l.clock && (InPause(l, stamp) ==> Loaded(l.disk, stamp))
  }

  lemma RunKeepsLoaded(l: Life, r: nat, s: RunStep, stamp: nat)
    requires Owned(l.crew, Up(l), Doing(l), Over(l), PauseOf(l)) && Shape(l) && DoRun(l, r, s).Some?
    requires InPause(l, stamp) && Loaded(l.disk, stamp)
    ensures var m := DoRun(l, r, s).GetOr(l); InPause(m, stamp) ==> Loaded(m.disk, stamp) && m.clock == l.clock
  {
  }

  lemma CallKeepsLoaded(l: Life, c: nat, s: CallStep, stamp: nat)
    requires DoCall(l, c, s).Some? && InPause(l, stamp) && Loaded(l.disk, stamp)
    ensures var m := DoCall(l, c, s).GetOr(l); InPause(m, stamp) ==> Loaded(m.disk, stamp)
  {
  }

  lemma SettleKeepsLoaded(l: Life, ok: bool, stamp: nat)
    requires DoSettle(l, ok).Some? && InPause(l, stamp) && Loaded(l.disk, stamp)
    ensures Loaded(DoSettle(l, ok).GetOr(l).disk, stamp)
  {
  }

  lemma ProcessKeepsLoaded(l: Life, s: ProcessStep, stamp: nat)
    requires Shape(l) && DoProcess(l, s).Some? && InPause(l, stamp) && Loaded(l.disk, stamp)
    ensures var m := DoProcess(l, s).GetOr(l); InPause(m, stamp) ==> Loaded(m.disk, stamp)
  {
  }

  lemma ActorKeepsLoaded(l: Life, a: Action, stamp: nat)
    requires Shape(l) && Do(l, a).Some? && InPause(l, stamp) && Loaded(l.disk, stamp)
    requires a.Enqueues? || a.Consumes? || a.Cancels? || a.ColdDismisses? || a.Resumes?
    ensures var m := Do(l, a).GetOr(l); InPause(m, stamp) ==> Loaded(m.disk, stamp)
  {
  }

  lemma StepKeepsLoaded(l: Life, a: Action, stamp: nat)
    requires CrewInv(l) && Do(l, a).Some? && InPause(l, stamp) && Loaded(l.disk, stamp)
    ensures var m := Do(l, a).GetOr(l); InPause(m, stamp) ==> Loaded(m.disk, stamp)
  {
    hide DoRun, DoCall, DoCancel, DoSettle, DoProcess, DiskInv, Reserved, Stamped;
    match a
    case Runs(r, s) => RunKeepsLoaded(l, r, s, stamp);
    case Calls(c, s) => CallKeepsLoaded(l, c, s, stamp);
    case Settles(ok) => SettleKeepsLoaded(l, ok, stamp);
    case Process(s) => ProcessKeepsLoaded(l, s, stamp);
    case _ => ActorKeepsLoaded(l, a, stamp);
  }

  lemma ClockNeverFallsBack(l: Life, a: Action)
    requires Do(l, a).Some?
    ensures Do(l, a).GetOr(l).clock >= l.clock
  {
    match a
    case Runs(r, s) => RunClock(l, r, s);
    case _ =>
  }

  lemma RunClock(l: Life, r: nat, s: RunStep)
    requires DoRun(l, r, s).Some?
    ensures DoRun(l, r, s).GetOr(l).clock >= l.clock
  {
    if l.crew.runners[r].Child? {
      ChildClock(l, r, l.crew.runners[r], s);
    } else {
      RunKeepsBooks(l, r, s);
    }
  }

  lemma ChildClock(l: Life, r: nat, pc: Pc, s: RunStep)
    requires r < |l.crew.runners| && l.task.Some? && pc.Child? && AtChild(l, r, pc, s).Some?
    ensures AtChild(l, r, pc, s).GetOr(l).clock >= l.clock
  {
  }

  /** A start loads a pause only from the row that holds it. */
  lemma WakingLoads(l: Life, s: ProcessStep, stamp: nat)
    requires Shape(l) && (s.Crash? || s.Restart?) && DoProcess(l, s).Some?
    ensures var m := DoProcess(l, s).GetOr(l); InPause(m, stamp) ==> Loaded(m.disk, stamp)
  {
  }

  lemma StepKeepsOld(l: Life, a: Action, stamp: nat)
    requires CrewInv(l) && Old(l, stamp) && Do(l, a).Some?
    ensures Old(Do(l, a).GetOr(l), stamp)
  {
    hide DoRun, DoCall, DoCancel, DoSettle, DoProcess, DiskInv, Reserved, Stamped;
    ClockNeverFallsBack(l, a);
    if InPause(l, stamp) {
      StepKeepsLoaded(l, a, stamp);
    } else if Within(a) {
      StepKeepsPast(l, a, stamp);
    } else {
      WakingLoads(l, a.process, stamp);
    }
  }

  lemma WinIsPast(l: Life, c: nat, s: CallStep, stamp: nat)
    requires CrewInv(l) && DoCall(l, c, s).Some? && Wins(l, DoCall(l, c, s).GetOr(l), c, stamp)
    ensures Past(DoCall(l, c, s).GetOr(l), stamp)
  {
  }

  lemma CancelIsPast(l: Life, now: nat, stamp: nat)
    requires CrewInv(l) && DoCancel(l, now).Some? && InPause(l, stamp)
    ensures Past(DoCancel(l, now).GetOr(l), stamp)
  {
    hide Owned, Placed, Reserved;
  }

  lemma SpendingIsPast(l: Life, a: Action, stamp: nat)
    requires Inv(l) && Kept(l) && Do(l, a).Some? && Spends(Entry(l, a, stamp)) > 0
    ensures Past(Do(l, a).GetOr(l), stamp)
  {
    hide DoRun, DoCall, DoCancel, DoSettle, DoProcess, CrewInv, DiskInv, Kept, Past;
    match a
    case Calls(c, s) => WinIsPast(l, c, s, stamp);
    case Cancels(now) => CancelIsPast(l, now, stamp);
    case Settles(ok) => ColdDismissalBuries(l, stamp);
  }

  lemma {:induction false} PlayKeepsOld(l: Life, run: seq<Action>, stamp: nat)
    requires Inv(l) && Kept(l) && Old(l, stamp) && Play(l, run).Some?
    ensures Old(Play(l, run).GetOr(l), stamp)
    decreases |run|
  {
    hide Do, CrewInv, DiskInv;
    if run != [] {
      StepKeepsOld(l, run[0], stamp);
      StepKeepsKept(l, run[0]);
      Keeps(l, run[0]);
      PlayKeepsOld(Do(l, run[0]).value, run[1..], stamp);
    }
  }

  lemma {:induction false} SpentIsOld(l: Life, run: seq<Action>, stamp: nat)
    requires Inv(l) && Kept(l) && Play(l, run).Some? && Spends(Count(l, run, stamp)) > 0
    ensures Old(Play(l, run).GetOr(l), stamp)
    decreases |run|
  {
    hide Do, DiskInv, Reserved, Stamped;
    var m := Do(l, run[0]).value;
    StepKeepsKept(l, run[0]);
    Keeps(l, run[0]);
    if Spends(Entry(l, run[0], stamp)) > 0 {
      SpendingIsPast(l, run[0], stamp);
      PlayKeepsOld(m, run[1..], stamp);
    } else {
      SpentIsOld(m, run[1..], stamp);
    }
  }

  // ---------------------------------------------------------------------------
  // Never again
  // ---------------------------------------------------------------------------

  predicate NoRequeues(desk: Desk) {
    forall c | 0 <= c < |desk.calls| :: !desk.calls[c].Requeueing?
  }

  /** The row is marked incomplete, or gone. */
  predicate Marred(l: Life) {
    && l.born && NoRequeues(l.desk)
    && (if l.disk.row.Some? then l.disk.row.value.incomplete else l.task.None? && !l.creating)
  }

  lemma CallKeepsMarred(l: Life, c: nat, s: CallStep)
    requires CrewInv(l) && Rev(l) && Marred(l) && DoCall(l, c, s).Some?
    ensures Marred(DoCall(l, c, s).GetOr(l)) && !Won(DoCall(l, c, s).GetOr(l).desk.calls[c])
  {
    hide Owned;
  }

  lemma RunKeepsMarred(l: Life, r: nat, s: RunStep)
    requires CrewInv(l) && Marred(l) && DoRun(l, r, s).Some?
    ensures Marred(DoRun(l, r, s).GetOr(l))
  {
    RunSparesCalls(l, r, s);
    RunsWorkOn(l, r, s);
    RunKeepsBooks(l, r, s);
  }

  lemma CancelKeepsMarred(l: Life, now: nat)
    requires CrewInv(l) && Marred(l) && DoCancel(l, now).Some?
    ensures Marred(DoCancel(l, now).GetOr(l))
  {
    hide CrewInv;
    CancelMoves(l, now);
  }

  lemma SettleKeepsMarred(l: Life, ok: bool)
    requires Marred(l) && DoSettle(l, ok).Some?
    ensures Marred(DoSettle(l, ok).GetOr(l))
  {
  }

  lemma ProcessKeepsMarred(l: Life, s: ProcessStep)
    requires Shape(l) && Marred(l) && DoProcess(l, s).Some?
    ensures Marred(DoProcess(l, s).GetOr(l))
  {
  }

  lemma ActorKeepsMarred(l: Life, a: Action)
    requires Shape(l) && Marred(l) && Do(l, a).Some?
    requires a.Enqueues? || a.Consumes? || a.ColdDismisses? || a.Resumes?
    ensures Marred(Do(l, a).GetOr(l))
  {
    hide DoRun, DoCall, DoCancel, DoSettle, DoProcess;
  }

  lemma StepKeepsMarred(l: Life, a: Action, stamp: nat)
    requires CrewInv(l) && Rev(l) && Marred(l) && Do(l, a).Some?
    ensures Marred(Do(l, a).GetOr(l)) && Entry(l, a, stamp).resumed == 0
  {
    hide DoRun, DoCall, DoCancel, DoSettle, DoProcess, DiskInv, Reserved, Stamped;
    match a
    case Runs(r, s) => RunKeepsMarred(l, r, s);
    case Calls(c, s) => CallKeepsMarred(l, c, s);
    case Cancels(now) => CancelKeepsMarred(l, now);
    case Settles(ok) => SettleKeepsMarred(l, ok);
    case Process(s) => ProcessKeepsMarred(l, s);
    case _ => ActorKeepsMarred(l, a);
  }

  /** Without a transcript that can be reopened no call spends a pause. */
  predicate Shut(l: Life) {
    Hopeless(l) && NoRequeues(l.desk)
  }

  lemma CallKeepsShut(l: Life, c: nat, s: CallStep)
    requires Shut(l) && DoCall(l, c, s).Some?
    ensures NoRequeues(DoCall(l, c, s).GetOr(l).desk) && !Won(DoCall(l, c, s).GetOr(l).desk.calls[c])
  {
  }

  lemma ActorKeepsShut(l: Life, a: Action)
    requires Shut(l) && Do(l, a).Some? && !a.Runs? && !a.Calls?
    ensures NoRequeues(Do(l, a).GetOr(l).desk)
  {
  }

  lemma StepKeepsShut(l: Life, a: Action, stamp: nat)
    requires CrewInv(l) && Rev(l) && Shut(l) && Do(l, a).Some?
    ensures Shut(Do(l, a).GetOr(l)) && Entry(l, a, stamp).resumed == 0
  {
    hide DoRun, DoCall, DoCancel, DoSettle, DoProcess, DiskInv, Reserved, Stamped;
    StepDwindles(l, a);
    match a
    case Runs(r, s) => RunSparesCalls(l, r, s);
    case Calls(c, s) => CallKeepsShut(l, c, s);
    case _ => ActorKeepsShut(l, a);
  }

  predicate NeverAgain(l: Life, stamp: nat) {
    Buried(l, stamp) || Marred(l) || Shut(l)
  }

  lemma StepKeepsNever(l: Life, a: Action, stamp: nat)
    requires CrewInv(l) && Rev(l) && NeverAgain(l, stamp) && Do(l, a).Some?
    ensures NeverAgain(Do(l, a).GetOr(l), stamp) && Entry(l, a, stamp).resumed == 0
  {
    hide Do, DiskInv, Reserved, Stamped;
    if Buried(l, stamp) {
      StepKeepsBuried(l, a, stamp);
    } else if Marred(l) {
      StepKeepsMarred(l, a, stamp);
    } else {
      StepKeepsShut(l, a, stamp);
    }
  }

  lemma {:induction false} PlayKeepsNever(l: Life, run: seq<Action>, stamp: nat)
    requires Inv(l) && Rev(l) && NeverAgain(l, stamp) && Play(l, run).Some?
    ensures Count(l, run, stamp).resumed == 0
    decreases |run|
  {
    hide Do, CrewInv, DiskInv;
    if run != [] {
      StepKeepsNever(l, run[0], stamp);
      Keeps(l, run[0]);
      KeepsRev(l, run[0]);
      PlayKeepsNever(Do(l, run[0]).value, run[1..], stamp);
    }
  }

  // ---------------------------------------------------------------------------
  // Once more
  // ---------------------------------------------------------------------------

  /** A continuation that resumes the pause so often and loses nothing on the way to the store. */
  predicate Revives(run: seq<Action>, l: Life, stamp: nat, times: int) {
    && Play(l, run).Some?
    && Play(l, run).value.tally.lost == l.tally.lost
    && Count(l, run, stamp).lost == 0 && Count(l, run, stamp).resumed >= times
  }

  lemma {:induction false} CountOneMore(l: Life, run: seq<Action>, a: Action, stamp: nat)
    requires Play(l, run).Some? && Do(Play(l, run).GetOr(l), a).Some?
    ensures Play(l, run + [a]) == Do(Play(l, run).GetOr(l), a)
    ensures Count(l, run + [a], stamp) == Plus(Count(l, run, stamp), Entry(Play(l, run).GetOr(l), a, stamp))
    decreases |run|
  {
    hide Do;
    if run == [] {
      assert [a][1..] == [];
      assert Play(l, [a]) == Do(l, a);
    } else {
      assert (run + [a])[1..] == run[1..] + [a];
      CountOneMore(Do(l, run[0]).value, run[1..], a, stamp);
    }
  }

  predicate Leads(run: seq<Action>, l: Life, m: Life, stamp: nat, b: Book) {
    Play(l, run) == Some(m) && Count(l, run, stamp) == b
  }

  lemma {:induction false} LeadsOneMore(run: seq<Action>, l: Life, m: Life, stamp: nat, b: Book, a: Action)
    requires Leads(run, l, m, stamp, b) && Do(m, a).Some?
    ensures Leads(run + [a], l, Do(m, a).GetOr(m), stamp, Plus(b, Entry(m, a, stamp)))
  {
    hide Do;
    CountOneMore(l, run, a, stamp);
  }

  ghost predicate CanResume(l: Life, stamp: nat, times: int) {
    exists run :: Revives(run, l, stamp, times)
  }

  lemma {:induction false} RevivesFirst(l: Life, a: Action, stamp: nat, times: int)
    requires Do(l, a).Some? && Do(l, a).GetOr(l).tally.lost == l.tally.lost && Entry(l, a, stamp).lost == 0
    requires CanResume(Do(l, a).GetOr(l), stamp, times)
    ensures CanResume(l, stamp, times + Entry(l, a, stamp).resumed)
  {
    hide Do;
    var run :| Revives(run, Do(l, a).value, stamp, times);
    assert ([a] + run)[0] == a && ([a] + run)[1..] == run;
    assert Revives([a] + run, l, stamp, times + Entry(l, a, stamp).resumed);
  }

  lemma {:induction false} NothingRevives(l: Life, stamp: nat)
    ensures CanResume(l, stamp, 0)
  {
    hide Do;
    assert Revives([], l, stamp, 0);
  }

  lemma {:induction false} WinRevives(l: Life, stamp: nat, ticket: nat)
    requires Resuming(l, Requeueing(stamp, ticket)) && Is(l, Queued) && ticket <= l.disk.settled
    ensures CanResume(l, stamp, 1)
  {
    assert Wins(l, Do(l, Calls(0, Written)).value, 0, stamp);
    NothingRevives(Do(l, Calls(0, Written)).value, stamp);
    RevivesFirst(l, Calls(0, Written), stamp, 0);
  }

  lemma {:induction false} WriteRevives(l: Life, stamp: nat, ticket: nat)
    requires Resuming(l, Requeueing(stamp, ticket)) && Is(l, Queued)
    requires l.disk.writes == [WQueued] && ticket == l.disk.settled + 1
    ensures CanResume(l, stamp, 1)
  {
    WinRevives(Do(l, Settles(true)).value, stamp, ticket);
    RevivesFirst(l, Settles(true), stamp, 1);
  }

  lemma {:induction false} RequeueRevives(l: Life, stamp: nat)
    requires Resuming(l, Reopening(stamp, [])) && Is(l, AwaitingInput) && l.disk.writes == []
    requires Sound(l.disk.script)
    ensures CanResume(l, stamp, 1)
  {
    WriteRevives(Do(l, Calls(0, Reopened)).value, stamp, l.disk.settled + 1);
    RevivesFirst(l, Calls(0, Reopened), stamp, 1);
  }

  lemma {:induction false} RestartRevives(l: Life, stamp: nat)
    requires l == Remains(l) && Resumable(l.disk.row, l.max) && Sound(l.disk.script) && Holds(l.disk.row, stamp)
    ensures CanResume(l, stamp, 1)
  {
    var wake := Process(Restart(true, false, true, 0, 0, None));
    var m := Do(l, wake).value;
    RequeueRevives(Do(m, Resumes([], false)).value, stamp);
    RevivesFirst(m, Resumes([], false), stamp, 1);
    RevivesFirst(l, wake, stamp, 1);
  }

  lemma {:induction false} CrashRevives(l: Life, stamp: nat)
    requires Resumable(l.disk.row, l.max) && Sound(l.disk.script) && Holds(l.disk.row, stamp) && l.disk.writes == []
    ensures CanResume(l, stamp, 1)
  {
    RestartRevives(Remains(l), stamp);
    RevivesFirst(l, Process(Crash), stamp, 1);
  }

  lemma {:induction false} EndRevives(l: Life, r: nat, stamp: nat)
    requires Talks(l, r) && l.crew.runners[r].whole && l.crew.runners[r].talk.Owed? && !l.disk.script.cut
    requires Resumable(l.disk.row, l.max) && Holds(l.disk.row, stamp) && l.disk.writes == []
    ensures CanResume(l, stamp, 1)
  {
    hide Do;
    var s := FinalWord(l.crew.runners[r]);
    var m := Speaks(l, r, s);
    CrashRevives(m, stamp);
    RevivesFirst(l, Runs(r, s), stamp, 1);
  }

  lemma {:induction false} TalkRevives(l: Life, r: nat, stamp: nat)
    requires Talks(l, r) && l.crew.runners[r].whole && !l.disk.script.cut
    requires Resumable(l.disk.row, l.max) && Holds(l.disk.row, stamp) && l.disk.writes == []
    ensures CanResume(l, stamp, 1)
  {
    hide Do;
    if l.crew.runners[r].talk.Owed? {
      EndRevives(l, r, stamp);
    } else {
      var m := Speaks(l, r, Note(true, false, false));
      EndRevives(m, r, stamp);
      RevivesFirst(l, Runs(r, Note(true, false, false)), stamp, 1);
    }
  }

  // ---------------------------------------------------------------------------
  // The exact condition
  // ---------------------------------------------------------------------------

  /** The store is idle, and whoever waited for it has been told. */
  predicate Idle(l: Life) {
    l.disk.writes == [] && NobodyReady(l)
  }

  /** Its row still holds the pause, unmarked, and the transcript can still be reopened. */
  predicate Lingers(l: Life, stamp: nat) {
    Holds(l.disk.row, stamp) && !l.disk.row.value.incomplete && Reopenable(l)
  }

  lemma IdleHasNoRequeues(l: Life)
    requires Rev(l) && Idle(l)
    ensures NoRequeues(l.desk)
  {
  }

  lemma OtherwiseNever(l: Life, stamp: nat)
    requires Inv(l) && Rev(l) && Idle(l) && Old(l, stamp) && !Lingers(l, stamp)
    ensures NeverAgain(l, stamp)
  {
    IdleHasNoRequeues(l);
  }

  lemma {:induction false} LingeringRevives(l: Life, stamp: nat)
    requires Inv(l) && Rev(l) && Idle(l) && Lingers(l, stamp)
    ensures CanResume(l, stamp, 1)
  {
    hide Do, DiskInv, Reserved, Stamped;
    if l.disk.script.ending.Replied? {
      CrashRevives(l, stamp);
    } else {
      TalkRevives(l, l.crew.handle.value, stamp);
    }
  }

  lemma {:induction false} RunsKeepOld(l: Life, run: seq<Action>, stamp: nat)
    requires Reached(l, run) && Spends(Count(UNBORN, run, stamp)) > 0
    ensures Inv(l) && Rev(l) && Old(l, stamp)
  {
    hide Do, DiskInv, Reserved, Stamped;
    RunsKeepRev(l, run);
    NothingKeptAtBirth();
    SpentIsOld(UNBORN, run, stamp);
  }

  /**
   In every reachable state whose store is idle: a pause that was already resumed or dismissed can be
   resumed once more, losing nothing further, exactly when its row still holds it unmarked and the
   stored transcript can still be reopened.
   */
  lemma {:induction false} SpentAgainExactly(l: Life, run: seq<Action>, stamp: nat)
    requires Reached(l, run) && Spends(Count(UNBORN, run, stamp)) > 0 && Idle(l)
    ensures CanResume(l, stamp, 1) <==> Lingers(l, stamp)
  {
    hide Do, DiskInv, Reserved, Stamped;
    RunsKeepOld(l, run, stamp);
    if Lingers(l, stamp) {
      LingeringRevives(l, stamp);
    } else if CanResume(l, stamp, 1) {
      OtherwiseNever(l, stamp);
      var more :| Revives(more, l, stamp, 1);
      PlayKeepsNever(l, more, stamp);
    }
  }

  // ---------------------------------------------------------------------------
  // It does happen
  // ---------------------------------------------------------------------------

  /** Some run from here to there writes this book of the pause. */
  ghost predicate Writes(l: Life, m: Life, stamp: nat, b: Book) {
    exists run :: Leads(run, l, m, stamp, b)
  }

  lemma {:induction false} WritesOn(l: Life, m: Life, stamp: nat, b: Book, a: Action, n: Life, e: Book)
    requires Writes(l, m, stamp, b) && Do(m, a) == Some(n) && Entry(m, a, stamp) == e
    ensures Writes(l, n, stamp, Plus(b, e))
  {
    hide Do;
    var run :| Leads(run, l, m, stamp, b);
    LeadsOneMore(run, l, m, stamp, b, a);
    assert Leads(run + [a], l, n, stamp, Plus(b, e));
  }

  const DISMISSING :=
    PAUSED.(task := Some(ASKING.(status := Dismissed, notified := true)), live := false,
            desk := Desk(None, [], None, [], {0}),
            disk := Disk(false, [WDismissed], 2, Some(ASKING_ROW), ONE_REPLY))

  const UNWRITTEN := DISMISSING.(disk := Disk(true, [], 3, Some(ASKING_ROW), ONE_REPLY))

  const DISMISSAL_LOST :=
    UNBORN.(born := true, max := 2, clock := 1, disk := Disk(false, [], 0, Some(ASKING_ROW), ONE_REPLY),
            tally := Tally(0, 0, 1, 1))

  const RELOADED :=
    DISMISSAL_LOST.(mode := Live, task := Some(ASKING_ROW), live := true)

  const REOPENING := RELOADED.(desk := Desk(Some(0), [Reopening(0, [])], None, [], {}))

  const REQUEUING_AGAIN :=
    RELOADED.(task := Some(REQUEUED), desk := Desk(Some(0), [Requeueing(0, 1)], Some(Answer(0, [], 1)), [], {}),
              disk := Disk(false, [WQueued], 0, Some(ASKING_ROW), ONE_REPLY))

  const REQUEUED_AGAIN := REQUEUING_AGAIN.(disk := Disk(false, [], 1, Some(REQUEUED), ONE_REPLY))

  const RESUMED_ANYWAY :=
    REQUEUED_AGAIN.(entries := 1, desk := Desk(None, [Returned(0, Resumed)], Some(Answer(0, [], 1)), [], {}))

  lemma {:induction false} CancelDismisses()
    ensures Do(PAUSED, Cancels(7)).Some? && Do(PAUSED, Cancels(7)).GetOr(PAUSED) == DISMISSING
    ensures Entry(PAUSED, Cancels(7), 0) == Book(0, 1, 0)
  {
  }

  lemma {:induction false} StoreFails()
    ensures Do(DISMISSING, Settles(false)).Some? && Do(DISMISSING, Settles(false)).GetOr(DISMISSING) == UNWRITTEN
    ensures Entry(DISMISSING, Settles(false), 0) == Book(0, 0, 1)
  {
  }

  lemma {:induction false} ProcessDies()
    ensures Do(UNWRITTEN, Process(Crash)).Some? && Do(UNWRITTEN, Process(Crash)).GetOr(UNWRITTEN) == DISMISSAL_LOST
    ensures Entry(UNWRITTEN, Process(Crash), 0) == NO_BOOK
  {
  }

  lemma {:induction false} PauseIsReloaded()
    ensures Do(DISMISSAL_LOST, Process(Restart(true, false, true, 0, 0, None))).Some?
            && Do(DISMISSAL_LOST, Process(Restart(true, false, true, 0, 0, None))).GetOr(DISMISSAL_LOST) == RELOADED
    ensures Entry(DISMISSAL_LOST, Process(Restart(true, false, true, 0, 0, None)), 0) == NO_BOOK
  {
  }

  lemma {:induction false} PauseIsReserved()
    ensures Do(RELOADED, Resumes([], false)).Some? && Do(RELOADED, Resumes([], false)).GetOr(RELOADED) == REOPENING
    ensures Entry(RELOADED, Resumes([], false), 0) == NO_BOOK
  {
    hide DoRun, DoCall, DoCancel, DoSettle, DoProcess;
  }

  lemma {:induction false} PauseIsRequeued()
    ensures Do(REOPENING, Calls(0, Reopened)).Some?
    ensures Do(REOPENING, Calls(0, Reopened)).GetOr(REOPENING) == REQUEUING_AGAIN
    ensures Entry(REOPENING, Calls(0, Reopened), 0) == NO_BOOK
  {
  }

  lemma {:induction false} RequeueIsWritten()
    ensures Do(REQUEUING_AGAIN, Settles(true)).Some?
    ensures Do(REQUEUING_AGAIN, Settles(true)).GetOr(REQUEUING_AGAIN) == REQUEUED_AGAIN
    ensures Entry(REQUEUING_AGAIN, Settles(true), 0) == NO_BOOK
  {
  }

  lemma {:induction false} PauseIsResumed()
    ensures Do(REQUEUED_AGAIN, Calls(0, Written)).Some?
    ensures Do(REQUEUED_AGAIN, Calls(0, Written)).GetOr(REQUEUED_AGAIN) == RESUMED_ANYWAY
    ensures Entry(REQUEUED_AGAIN, Calls(0, Written), 0) == Book(1, 0, 0)
  {
  }

  lemma {:induction false} NothingWritten()
    ensures Writes(PAUSED, PAUSED, 0, NO_BOOK)
  {
    hide Do;
    assert Leads([], PAUSED, PAUSED, 0, NO_BOOK);
  }

  /**
   A concrete run: the parent is told that a pause is dismissed, the store fails to write it, the
   process restarts and the same pause is resumed. No requeue was lost.
   */
  lemma {:induction false} DismissedIsResumed()
    ensures Reachable(PAUSED) && Writes(PAUSED, RESUMED_ANYWAY, 0, Book(1, 1, 1)) && RESUMED_ANYWAY.tally.lost == 0
  {
    hide Do;
    PausedIsReachable();
    NothingWritten();
    CancelDismisses();
    WritesOn(PAUSED, PAUSED, 0, NO_BOOK, Cancels(7), DISMISSING, Book(0, 1, 0));
    StoreFails();
    WritesOn(PAUSED, DISMISSING, 0, Book(0, 1, 0), Settles(false), UNWRITTEN, Book(0, 0, 1));
    ProcessDies();
    WritesOn(PAUSED, UNWRITTEN, 0, Book(0, 1, 1), Process(Crash), DISMISSAL_LOST, NO_BOOK);
    PauseIsReloaded();
    WritesOn(PAUSED, DISMISSAL_LOST, 0, Book(0, 1, 1), Process(Restart(true, false, true, 0, 0, None)), RELOADED,
        NO_BOOK);
    PauseIsReserved();
    WritesOn(PAUSED, RELOADED, 0, Book(0, 1, 1), Resumes([], false), REOPENING, NO_BOOK);
    PauseIsRequeued();
    WritesOn(PAUSED, REOPENING, 0, Book(0, 1, 1), Calls(0, Reopened), REQUEUING_AGAIN, NO_BOOK);
    RequeueIsWritten();
    WritesOn(PAUSED, REQUEUING_AGAIN, 0, Book(0, 1, 1), Settles(true), REQUEUED_AGAIN, NO_BOOK);
    PauseIsResumed();
    WritesOn(PAUSED, REQUEUED_AGAIN, 0, Book(0, 1, 1), Calls(0, Written), RESUMED_ANYWAY, Book(1, 0, 0));
  }
}
