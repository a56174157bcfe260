/**
 A pause is spent by a resume that answers `resumed` or by a cancel that dismisses it. This module
 counts both over whole runs, crashes included: without a lost write a pause is spent once, and a
 spent pause can be resumed again exactly when its row still holds it.
 */
module DelegationSpent {
  import opened Wrappers
  import opened DelegationLife
  import opened DelegationInvariant
  import opened DelegationProof
  import opened DelegationReplay
  import opened DelegationTheorems
  import opened DelegationTwice
  import opened DelegationNotice
  import opened DelegationPhases

  // ---------------------------------------------------------------------------
  // What became of one pause, over a whole run
  // ---------------------------------------------------------------------------

  /** Times that the pause was resumed and dismissed, and dismissals that did not reach the store. */
  datatype Book = Book(resumed: nat, dismissed: nat, lost: nat)

  const NO_BOOK := Book(0, 0, 0)

  function Spends(b: Book): nat {
    b.resumed + b.dismissed
  }

  function Plus(b: Book, c: Book): Book {
    Book(b.resumed + c.resumed, b.dismissed + c.dismissed, b.lost + c.lost)
  }

  predicate Holds(row: Option<Task>, stamp: nat) {
    RowAwaits(row) && row.value.finishedAt == Some(stamp)
  }

  /** A dismissal of a pause is on its way to the store. */
  predicate Leaves(l: Life) {
    l.desk.dismissed != {} && exists i | 0 <= i < |l.disk.writes| :: l.disk.writes[i].WDismissed?
  }

  /** A call of resume returns `resumed` for this pause in this step. */
  predicate Wins(l: Life, m: Life, c: nat, stamp: nat) {
    && c < |l.desk.calls| && c < |m.desk.calls|
    && !Won(l.desk.calls[c]) && Won(m.desk.calls[c]) && m.desk.calls[c].stamp == stamp
  }

  /** What a step writes into the book of a pause. */
  function Entry(l: Life, a: Action, stamp: nat): Book
    requires Do(l, a).Some?
  {
    match a
    case Calls(c, _) => Book(if Wins(l, Do(l, a).value, c, stamp) then 1 else 0, 0, 0)
    case Cancels(_) =>
      if !Is(l, AwaitingInput) then NO_BOOK
      else Book(0, if InPause(l, stamp) then 1 else 0, if l.disk.broken then 1 else 0)
    case Settles(ok) =>
      var w := l.disk.writes[0];
      if w.WDismissed? && !ok && l.desk.dismissed != {} then Book(0, 0, 1)
      else if w.WColdDismissed? && ok && Holds(l.disk.row, stamp) then Book(0, 1, 0)
      else NO_BOOK
    case Process(s) => if s.Crash? && Leaves(l) then Book(0, 0, 1) else NO_BOOK
    case _ => NO_BOOK
  }

  function Count(l: Life, run: seq<Action>, stamp: nat): Book
    requires Play(l, run).Some?
    decreases |run|
  {
    if run == [] then NO_BOOK
    else Plus(Entry(l, run[0], stamp), Count(Do(l, run[0]).value, run[1..], stamp))
  }

  // ---------------------------------------------------------------------------
  // A pause that nothing holds any more
  // ---------------------------------------------------------------------------

  predicate NoneAwaits(writes: seq<Write>, stamp: nat) {
    forall i | 0 <= i < |writes| :: writes[i].WAwaiting? ==> writes[i].stamp != stamp
  }

  predicate OffDisk(d: Disk, stamp: nat) {
    !Holds(d.row, stamp) && NoneAwaits(d.writes, stamp)
  }

  predicate NoRequeue(desk: Desk, stamp: nat) {
    forall c | 0 <= c < |desk.calls| :: desk.calls[c].Requeueing? ==> desk.calls[c].stamp != stamp
  }

  predicate Buried(l: Life, stamp: nat) {
    Past(l, stamp) && OffDisk(l.disk, stamp) && NoRequeue(l.desk, stamp)
  }

  lemma PushKeepsOff(d: Disk, w: Write, stamp: nat)
    requires OffDisk(d, stamp) && (w.WAwaiting? ==> w.stamp != stamp)
    ensures OffDisk(Push(d, w), stamp)
  {
  }

  lemma ChildKeepsOff(l: Life, r: nat, pc: Pc, s: RunStep, stamp: nat)
    requires r < |l.crew.runners| && l.task.Some? && pc.Child? && AtChild(l, r, pc, s).Some?
    requires stamp < l.clock && OffDisk(l.disk, stamp)
    ensures OffDisk(AtChild(l, r, pc, s).GetOr(l).disk, stamp)
  {
  }

  lemma AskerKeepsOff(l: Life, r: nat, pc: Pc, s: RunStep, stamp: nat)
    requires r < |l.crew.runners| && l.task.Some? && OffDisk(l.disk, stamp)
    ensures pc.Pausing? && AtPausing(l, r, pc, s).Some? ==> OffDisk(AtPausing(l, r, pc, s).GetOr(l).disk, stamp)
    ensures pc.Asking? && AtAsking(l, r, pc, s).Some? ==> OffDisk(AtAsking(l, r, pc, s).GetOr(l).disk, stamp)
  {
  }

  lemma DispatcherKeepsOff(l: Life, r: nat, pc: Pc, s: RunStep, stamp: nat)
    requires r < |l.crew.runners| && l.task.Some? && OffDisk(l.disk, stamp)
    ensures pc.Marking? && AtMarking(l, r, pc, s).Some? ==> OffDisk(AtMarking(l, r, pc, s).GetOr(l).disk, stamp)
    ensures pc.Dispatching? && AtDispatching(l, r, pc, s).Some? ==>
            OffDisk(AtDispatching(l, r, pc, s).GetOr(l).disk, stamp)
    ensures AtDispatched(l, r, s).Some? ==> OffDisk(AtDispatched(l, r, s).GetOr(l).disk, stamp)
  {
    hide Apply;
  }

  lemma RunKeepsOff(l: Life, r: nat, s: RunStep, stamp: nat)
    requires DoRun(l, r, s).Some? && stamp < l.clock && OffDisk(l.disk, stamp)
    ensures OffDisk(DoRun(l, r, s).GetOr(l).disk, stamp)
  {
    hide AtChild, AtPausing, AtAsking, AtDispatching;
    var pc := l.crew.runners[r];
    match pc
    case Child(_, _, _, _, _) => ChildKeepsOff(l, r, pc, s, stamp);
    case Pausing(_, _) => AskerKeepsOff(l, r, pc, s, stamp);
    case Asking(_, _) => AskerKeepsOff(l, r, pc, s, stamp);
    case Marking(_, _) => DispatcherKeepsOff(l, r, pc, s, stamp);
    case Dispatching(_) => DispatcherKeepsOff(l, r, pc, s, stamp);
    case Dispatched => DispatcherKeepsOff(l, r, pc, s, stamp);
    case _ =>
  }

  /** Runners leave the calls alone. */
  lemma RunSparesCalls(l: Life, r: nat, s: RunStep)
    requires Owned(l.crew, Up(l), Doing(l), Over(l), PauseOf(l)) && DoRun(l, r, s).Some?
    ensures DoRun(l, r, s).GetOr(l).desk.calls == l.desk.calls
  {
    RunMoves(l, r, s);
  }

  lemma SettleKeepsOff(l: Life, ok: bool, stamp: nat)
    requires DoSettle(l, ok).Some? && OffDisk(l.disk, stamp)
    ensures OffDisk(DoSettle(l, ok).GetOr(l).disk, stamp)
  {
  }

  lemma ProcessKeepsOff(l: Life, s: ProcessStep, stamp: nat)
    requires DoProcess(l, s).Some? && OffDisk(l.disk, stamp)
    ensures OffDisk(DoProcess(l, s).GetOr(l).disk, stamp)
  {
  }

  lemma CallKeepsOff(l: Life, c: nat, s: CallStep, stamp: nat)
    requires OffDisk(l.disk, stamp) && DoCall(l, c, s).Some?
    ensures OffDisk(DoCall(l, c, s).GetOr(l).disk, stamp)
  {
  }

  lemma CallKeepsBuried(l: Life, c: nat, s: CallStep, stamp: nat)
    requires CrewInv(l) && Buried(l, stamp) && DoCall(l, c, s).Some?
    ensures var m := DoCall(l, c, s).GetOr(l);
            OffDisk(m.disk, stamp) && NoRequeue(m.desk, stamp) && !Wins(l, m, c, stamp)
  {
    hide Owned, Placed;
    CallKeepsOff(l, c, s, stamp);
  }

  lemma ResumeKeepsBuried(l: Life, text: Text, refused: bool, stamp: nat)
    requires Buried(l, stamp) && DoResume(l, text, refused).Some?
    ensures Buried(DoResume(l, text, refused).GetOr(l), stamp)
  {
  }

  lemma CancelKeepsOff(l: Life, now: nat, stamp: nat)
    requires OffDisk(l.disk, stamp) && DoCancel(l, now).Some?
    ensures OffDisk(DoCancel(l, now).GetOr(l).disk, stamp) && DoCancel(l, now).GetOr(l).desk.calls == l.desk.calls
  {
    if !Is(l, Delivering) {
      var w := if Resting(l.task.value.status) then WDismissed else WCancelled(now);
      assert DoCancel(l, now).value.disk == Push(l.disk, w);
      PushKeepsOff(l.disk, w, stamp);
    }
  }

  /** A process that ends or starts does not bring it back: the row does not hold it. */
  lemma WakeKeepsBuried(l: Life, s: ProcessStep, stamp: nat)
    requires Buried(l, stamp) && (s.Crash? || s.Restart?) && DoProcess(l, s).Some?
    ensures Buried(DoProcess(l, s).GetOr(l), stamp)
  {
  }

  lemma ActorKeepsBuried(l: Life, a: Action, stamp: nat)
    requires CrewInv(l) && Buried(l, stamp) && Do(l, a).Some?
    requires a.Enqueues? || a.Consumes? || a.ColdDismisses?
    ensures Buried(Do(l, a).GetOr(l), stamp)
  {
    hide DoRun, DoCall, DoCancel, DoSettle, DoProcess, CrewInv;
  }

  lemma ProcessSparesCalls(l: Life, s: ProcessStep)
    requires DoProcess(l, s).Some? && !s.Crash?
    ensures DoProcess(l, s).GetOr(l).desk.calls == l.desk.calls
  {
  }

  lemma StepKeepsBuried(l: Life, a: Action, stamp: nat)
    requires CrewInv(l) && Buried(l, stamp) && Do(l, a).Some?
    ensures Buried(Do(l, a).GetOr(l), stamp)
    ensures Entry(l, a, stamp).resumed == 0 && Entry(l, a, stamp).dismissed == 0
  {
    hide AtChild, AtPausing, AtAsking, AtDispatching, DiskInv, Reserved, Stamped;
    if Within(a) {
      StepKeepsPast(l, a, stamp);
    }
    match a
    case Runs(r, s) =>
      RunKeepsOff(l, r, s, stamp);
      RunSparesCalls(l, r, s);
    case Calls(c, s) => CallKeepsBuried(l, c, s, stamp);
    case Cancels(now) => CancelKeepsOff(l, now, stamp);
    case Resumes(text, refused) => ResumeKeepsBuried(l, text, refused, stamp);
    case Settles(ok) => SettleKeepsOff(l, ok, stamp);
    case Process(s) =>
      if Within(a) {
        ProcessKeepsOff(l, s, stamp);
        ProcessSparesCalls(l, s);
      } else {
        WakeKeepsBuried(l, s, stamp);
      }
    case _ => ActorKeepsBuried(l, a, stamp);
  }

  // ---------------------------------------------------------------------------
  // Dismissals
  // ---------------------------------------------------------------------------

  /** What this process knows of dismissed pauses and of tasks it has not loaded. */
  predicate Kept(l: Life) {
    && (l.desk.dismissed != {} ==> Is(l, Dismissed) && !l.live)
    && (forall i | 0 <= i < |l.disk.writes| :: l.disk.writes[i].WColdDismissed? ==> l.task.None?
                                                                                    && |l.disk.writes| == 1)
    && (l.mode.Stopped? && IsLive(l, Queued) ==> RequeueTicket(l.desk).None?)
  }

  predicate NoCold(writes: seq<Write>) {
    forall i | 0 <= i < |writes| :: !writes[i].WColdDismissed?
  }

  /** The last that the store will hear of the task's pauses is that it was dismissed. */
  predicate Farewell(l: Life) {
    l.desk.dismissed != {} && exists j | 0 <= j < |l.disk.writes| :: LastWord(l.disk.writes, j)
  }

  predicate LastWord(writes: seq<Write>, j: nat) {
    j < |writes| && writes[j].WDismissed? && forall i | j < i < |writes| :: !writes[i].WAwaiting?
  }

  predicate Gone(l: Life, stamp: nat) {
    Past(l, stamp) && NoRequeue(l.desk, stamp) && (OffDisk(l.disk, stamp) || Farewell(l))
  }

  /** Once dismissed, nothing more is written of a task but that a notice was told. */
  predicate Rests(l: Life, m: Life) {
    && Is(m, Dismissed) && !m.live
    && m.desk.dismissed == l.desk.dismissed
    && (m.disk.writes == l.disk.writes || m.disk.writes == l.disk.writes + [WNoticed])
  }

  lemma DismissedRunRests(l: Life, r: nat, s: RunStep)
    requires Owned(l.crew, Up(l), Doing(l), Over(l), PauseOf(l)) && Is(l, Dismissed) && !l.live && DoRun(l, r, s).Some?
    ensures Rests(l, DoRun(l, r, s).GetOr(l))
  {
    hide Apply;
  }

  lemma DismissedCallRests(l: Life, c: nat, s: CallStep)
    requires Is(l, Dismissed) && !l.live && DoCall(l, c, s).Some?
    ensures Rests(l, DoCall(l, c, s).GetOr(l))
  {
  }

  lemma DismissedRests(l: Life, a: Action)
    requires CrewInv(l) && Is(l, Dismissed) && !l.live && Within(a) && !a.Settles? && Do(l, a).Some?
    ensures Rests(l, Do(l, a).GetOr(l))
  {
    match a
    case Runs(r, s) => DismissedRunRests(l, r, s);
    case Calls(c, s) => DismissedCallRests(l, c, s);
    case _ =>
  }

  lemma RestKeepsFarewell(l: Life, m: Life)
    requires Farewell(l) && Rests(l, m)
    ensures Farewell(m)
  {
    var j :| 0 <= j < |l.disk.writes| && LastWord(l.disk.writes, j);
    assert LastWord(m.disk.writes, j);
  }

  lemma SettleKeepsFarewell(l: Life, ok: bool, stamp: nat)
    requires DoSettle(l, ok).Some? && Farewell(l) && (ok || !l.disk.writes[0].WDismissed?)
    ensures var m := DoSettle(l, ok).GetOr(l); OffDisk(m.disk, stamp) || Farewell(m)
  {
    var j :| 0 <= j < |l.disk.writes| && LastWord(l.disk.writes, j);
    var m := DoSettle(l, ok).value;
    if j > 0 {
      assert LastWord(m.disk.writes, j - 1);
    } else {
      assert forall i | 0 <= i < |m.disk.writes| :: m.disk.writes[i] == l.disk.writes[i + 1];
    }
  }

  lemma WorkKeepsCold(l: Life, m: Life)
    requires l.task.Some? && NoCold(l.disk.writes) && WorksOn(l.disk, m.disk)
    ensures NoCold(m.disk.writes)
  {
  }

  lemma RunKeepsKept(l: Life, r: nat, s: RunStep)
    requires CrewInv(l) && Kept(l) && DoRun(l, r, s).Some?
    ensures Kept(DoRun(l, r, s).GetOr(l))
  {
    var m := DoRun(l, r, s).value;
    RunsWorkOn(l, r, s);
    assert NoCold(l.disk.writes);
    WorkKeepsCold(l, m);
    RunKeepsBooks(l, r, s);
    if l.desk.dismissed != {} {
      DismissedRunRests(l, r, s);
    }
  }

  lemma CallKeepsKept(l: Life, c: nat, s: CallStep)
    requires CrewInv(l) && Kept(l) && DoCall(l, c, s).Some?
    ensures Kept(DoCall(l, c, s).GetOr(l))
  {
    hide Owned, Placed;
    CallsWorkOn(l, c, s);
    if l.task.Some? {
      assert NoCold(l.disk.writes);
      WorkKeepsCold(l, DoCall(l, c, s).value);
    }
  }

  lemma CancelKeepsKept(l: Life, now: nat)
    requires CrewInv(l) && Kept(l) && DoCancel(l, now).Some?
    ensures Kept(DoCancel(l, now).GetOr(l))
  {
    hide DiskInv, Reserved, Stamped;
  }

  lemma ProcessKeepsKept(l: Life, s: ProcessStep)
    requires CrewInv(l) && Kept(l) && DoProcess(l, s).Some?
    ensures Kept(DoProcess(l, s).GetOr(l))
  {
    hide DiskInv, Stamped, Questioned, Reserved, Placed;
  }

  lemma ActorKeepsKept(l: Life, a: Action)
    requires CrewInv(l) && Kept(l) && Do(l, a).Some?
    requires a.Enqueues? || a.Consumes? || a.ColdDismisses? || a.Resumes?
    ensures Kept(Do(l, a).GetOr(l))
  {
  }

  lemma SettleKeepsKept(l: Life, ok: bool)
    requires Kept(l) && DoSettle(l, ok).Some?
    ensures Kept(DoSettle(l, ok).GetOr(l))
  {
  }

  lemma StepKeepsKept(l: Life, a: Action)
    requires CrewInv(l) && Kept(l) && Do(l, a).Some?
    ensures Kept(Do(l, a).GetOr(l))
  {
    hide DoRun, DoCall, DoCancel, DoSettle, DoProcess, DiskInv, Reserved, Stamped;
    match a
    case Runs(r, s) => RunKeepsKept(l, r, s);
    case Calls(c, s) => CallKeepsKept(l, c, s);
    case Cancels(now) => CancelKeepsKept(l, now);
    case Settles(ok) => SettleKeepsKept(l, ok);
    case Process(s) => ProcessKeepsKept(l, s);
    case _ => ActorKeepsKept(l, a);
  }

  // ---------------------------------------------------------------------------
  // What is spent stays spent
  // ---------------------------------------------------------------------------

  lemma StepKeepsGone(l: Life, a: Action, stamp: nat)
    requires CrewInv(l) && Kept(l) && Gone(l, stamp) && Do(l, a).Some? && Entry(l, a, stamp).lost == 0
    ensures Gone(Do(l, a).GetOr(l), stamp) && Spends(Entry(l, a, stamp)) == 0
  {
    if OffDisk(l.disk, stamp) {
      StepKeepsBuried(l, a, stamp);
    } else if a.Settles? {
      StepKeepsPast(l, a, stamp);
      SettleKeepsFarewell(l, a.ok, stamp);
    } else if Within(a) {
      StepKeepsPast(l, a, stamp);
      DismissedRests(l, a);
      RestKeepsFarewell(l, Do(l, a).value);
      DismissedKeepsCalls(l, a, stamp);
    }
  }

  lemma DismissedSparesCall(l: Life, c: nat, s: CallStep, stamp: nat)
    requires CrewInv(l) && Is(l, Dismissed) && !l.live && DoCall(l, c, s).Some? && NoRequeue(l.desk, stamp)
    ensures NoRequeue(DoCall(l, c, s).GetOr(l).desk, stamp) && !Wins(l, DoCall(l, c, s).GetOr(l), c, stamp)
  {
  }

  /** After a dismissal no call spends anything. */
  lemma DismissedKeepsCalls(l: Life, a: Action, stamp: nat)
    requires CrewInv(l) && Is(l, Dismissed) && !l.live && Within(a) && Do(l, a).Some? && NoRequeue(l.desk, stamp)
    ensures NoRequeue(Do(l, a).GetOr(l).desk, stamp)
    ensures Entry(l, a, stamp).resumed == 0
    ensures a.Settles? || Entry(l, a, stamp).dismissed == 0
  {
    match a
    case Runs(r, s) => RunSparesCalls(l, r, s);
    case Calls(c, s) => DismissedSparesCall(l, c, s, stamp);
    case Process(s) => ProcessSparesCalls(l, s);
    case _ =>
  }

  /** A call that returns `resumed` leaves no pause on disk, unless the store lost a requeue. */
  lemma WinBuries(l: Life, c: nat, s: CallStep, stamp: nat)
    requires Inv(l) && Kept(l) && l.tally.lost == 0 && DoCall(l, c, s).Some?
    requires Wins(l, DoCall(l, c, s).GetOr(l), c, stamp)
    ensures Buried(DoCall(l, c, s).GetOr(l), stamp)
  {
  }

  lemma DismissalBuries(l: Life, now: nat, stamp: nat)
    requires CrewInv(l) && DoCancel(l, now).Some? && InPause(l, stamp) && !l.disk.broken
    ensures Gone(DoCancel(l, now).GetOr(l), stamp)
  {
    var m := DoCancel(l, now).value;
    assert LastWord(m.disk.writes, |l.disk.writes|);
  }

  lemma ColdDismissalBuries(l: Life, stamp: nat)
    requires Inv(l) && Kept(l) && DoSettle(l, true).Some? && l.disk.writes[0].WColdDismissed?
             && Holds(l.disk.row, stamp)
    ensures Buried(DoSettle(l, true).GetOr(l), stamp)
  {
  }

  lemma SpendingBuries(l: Life, a: Action, stamp: nat)
    requires Inv(l) && Kept(l) && l.tally.lost == 0 && Do(l, a).Some?
    requires Entry(l, a, stamp).lost == 0 && Spends(Entry(l, a, stamp)) > 0
    ensures Gone(Do(l, a).GetOr(l), stamp)
    ensures Spends(Entry(l, a, stamp)) == 1
  {
    hide DoRun, DoCall, DoCancel, DoSettle, DoProcess, CrewInv, DiskInv;
    match a
    case Calls(c, s) => WinBuries(l, c, s, stamp);
    case Cancels(now) => DismissalBuries(l, now, stamp);
    case Settles(ok) => ColdDismissalBuries(l, stamp);
  }

  /** A book without losses spends once, and what it spent is gone. */
  predicate Once(b: Book, lost: nat, gone: bool) {
    b.lost == 0 && lost == 0 ==> Spends(b) <= 1 && (Spends(b) == 1 ==> gone)
  }

  lemma LossesStay(l: Life, a: Action)
    requires Do(l, a).Some?
    ensures Do(l, a).GetOr(l).tally.lost >= l.tally.lost
  {
    StepIgnoresTally(l, l.tally.(lost := 0), a);
  }

  /** What an entry does to a pause that is gone and to one that is not. */
  predicate Fair(e: Book, lost: nat, lost': nat, gone: bool, gone': bool) {
    && lost <= lost'
    && (e.lost == 0 && gone ==> gone' && Spends(e) == 0)
    && (e.lost == 0 && lost == 0 && Spends(e) > 0 ==> gone' && Spends(e) == 1)
  }

  lemma BooksAddUp(b: Book, e: Book, lost: nat, lost': nat, gone: bool, gone': bool)
    requires Once(b, lost, gone) && Fair(e, lost, lost', gone, gone')
    ensures Once(Plus(b, e), lost', gone')
  {
  }

  lemma GoneStays(l: Life, a: Action, stamp: nat)
    requires CrewInv(l) && Kept(l) && Do(l, a).Some?
    ensures Entry(l, a, stamp).lost == 0 && Gone(l, stamp) ==>
              Gone(Do(l, a).GetOr(l), stamp) && Spends(Entry(l, a, stamp)) == 0
  {
    hide Do, DiskInv, Reserved, Stamped;
    if Entry(l, a, stamp).lost == 0 && Gone(l, stamp) {
      StepKeepsGone(l, a, stamp);
    }
  }

  lemma SpentIsGone(l: Life, a: Action, stamp: nat)
    requires Inv(l) && Kept(l) && Do(l, a).Some?
    ensures Entry(l, a, stamp).lost == 0 && l.tally.lost == 0 && Spends(Entry(l, a, stamp)) > 0 ==>
              Gone(Do(l, a).GetOr(l), stamp) && Spends(Entry(l, a, stamp)) == 1
  {
    hide Do, DiskInv, Reserved, Stamped;
    if Entry(l, a, stamp).lost == 0 && l.tally.lost == 0 && Spends(Entry(l, a, stamp)) > 0 {
      SpendingBuries(l, a, stamp);
    }
  }

  lemma StepIsFair(l: Life, a: Action, stamp: nat)
    requires Inv(l) && Kept(l) && Do(l, a).Some?
    ensures var m := Do(l, a).GetOr(l);
            Fair(Entry(l, a, stamp), l.tally.lost, m.tally.lost, Gone(l, stamp), Gone(m, stamp))
  {
    hide Do, DiskInv, Reserved, Stamped;
    LossesStay(l, a);
    GoneStays(l, a, stamp);
    SpentIsGone(l, a, stamp);
  }

  lemma PlusIsAssociative(b: Book, c: Book, d: Book)
    ensures Plus(Plus(b, c), d) == Plus(b, Plus(c, d))
  {
  }

  lemma {:induction false} PlayKeepsOnce(l: Life, b: Book, run: seq<Action>, stamp: nat)
    requires Inv(l) && Kept(l) && Once(b, l.tally.lost, Gone(l, stamp)) && Play(l, run).Some?
    ensures Once(Plus(b, Count(l, run, stamp)), Play(l, run).GetOr(l).tally.lost, Gone(Play(l, run).GetOr(l), stamp))
    decreases |run|
  {
    hide Do, CrewInv, DiskInv;
    if run != [] {
      var m, e := Do(l, run[0]).value, Entry(l, run[0], stamp);
      StepIsFair(l, run[0], stamp);
      BooksAddUp(b, e, l.tally.lost, m.tally.lost, Gone(l, stamp), Gone(m, stamp));
      StepKeepsKept(l, run[0]);
      Keeps(l, run[0]);
      PlayKeepsOnce(m, Plus(b, e), run[1..], stamp);
      PlusIsAssociative(b, e, Count(m, run[1..], stamp));
    }
  }

  lemma NothingKeptAtBirth()
    ensures Inv(UNBORN) && Kept(UNBORN)
  {
  }

  /**
   Over every run, with any number of crashes and restarts: if no requeue and no dismissal was lost on
   its way to the store, a pause is resumed or dismissed at most once in all.
   */
  lemma {:induction false} SpentOnce(l: Life, run: seq<Action>, stamp: nat)
    requires Reached(l, run) && l.tally.lost == 0 && Count(UNBORN, run, stamp).lost == 0
    ensures Spends(Count(UNBORN, run, stamp)) <= 1
  {
    hide Do, Inv, Kept, Gone, Count, Play;
    NothingKeptAtBirth();
    PlayKeepsOnce(UNBORN, NO_BOOK, run, stamp);
  }
}
