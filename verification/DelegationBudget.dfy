/**
 How many passes can still follow, and so when exactly the iteration budget of a task can be exceeded.

 What is left in the phase at hand and what a restart would give the pause on disk add up only if that
 pause was left behind by the phase; otherwise at most one of the two will be worked.
 */
module DelegationBudget {
  import opened Wrappers
  import opened DelegationLife
  import opened DelegationInvariant
  import opened DelegationProof
  import opened DelegationReplay
  import opened DelegationTwice
  import opened DelegationMirror

  // ---------------------------------------------------------------------------
  // What is left
  // ---------------------------------------------------------------------------

  /** The passes of a phase that has not begun. */
  function Due(l: Life): nat
    requires l.task.Some?
  {
    if l.desk.answer.None? then l.max else if l.task.value.used <= l.max then l.max - l.task.value.used else 0
  }

  /** A final reply that could be a question: the pause would be stored, and leave budget. */
  predicate Pausable(l: Life, pc: Pc) {
    && pc.Child? && pc.talk.Final? && pc.whole && !l.disk.broken && pc.pre + pc.passes < l.max
    && l.disk.script.said == pc.pre + pc.passes && l.disk.script.ending.Replied?
  }

  /** The passes that the phase at hand can still make, or leave to the next one by pausing. */
  function Here(l: Life): nat {
    if l.creating then l.max
    else if !Up(l) then 0
    else if IsLive(l, Queued) || (IsLive(l, Running) && Held(l.crew).Starting?) then Due(l)
    else if !IsLive(l, Running) then 0
    else if Pausable(l, Held(l.crew)) then l.max - Held(l.crew).pre - Held(l.crew).passes
    else PassesLeft(Held(l.crew))
  }

  /** A resume after a restart would accept the pause on disk. */
  predicate Revivable(l: Life) {
    RowAwaits(l.disk.row) && !l.disk.row.value.incomplete && Reopenable(l)
  }

  /** The passes that it would have. */
  function There(l: Life): nat {
    if Revivable(l) && l.disk.row.value.used <= l.max then l.max - l.disk.row.value.used else 0
  }

  function Ahead(l: Life): nat {
    if LeftBehind(l) then Here(l) + There(l) else if Here(l) >= There(l) then Here(l) else There(l)
  }

  /** A continuation that loses no requeue makes so many passes. */
  predicate Makes(run: seq<Action>, l: Life, n: int) {
    && Play(l, run).Some?
    && Play(l, run).value.tally.lost == l.tally.lost && Play(l, run).value.max == l.max
    && Play(l, run).value.tally.passes >= l.tally.passes + n
  }

  ghost predicate CanMake(l: Life, n: int) {
    exists run :: Makes(run, l, n)
  }

  // ---------------------------------------------------------------------------
  // No more than that
  // ---------------------------------------------------------------------------

  /** A phase not yet over; its transcript was not flagged. */
  predicate Unflagged(l: Life) {
    IsLive(l, Queued) || (IsLive(l, Running) && (Held(l.crew).Starting? || Held(l.crew).Child?)) ==>
      !l.task.value.incomplete
  }

  /** What is known of used iterations: stored transcripts hold at least as many replies. */
  predicate Sized(l: Life) {
    && l.born && Unflagged(l)
    && (Held(l.crew).Child? ==> Held(l.crew).pre + Held(l.crew).budget >= l.max)
    && (l.desk.answer.Some? && l.task.Some? ==> l.desk.answer.value.pre >= l.task.value.used)
    && (Is(l, AwaitingInput) ==> l.disk.script.said >= l.task.value.used)
    && (RowAwaits(l.disk.row) ==> l.disk.script.said >= l.disk.row.value.used)
    && (forall i | 0 <= i < |l.disk.writes| :: l.disk.writes[i].WAwaiting? ==>
          l.disk.script.said >= l.disk.writes[i].used)
  }

  function Behind(l: Life): nat {
    if LeftBehind(l) then Here(l) else 0
  }

  /** The task is in a pause that a resume in this process would accept. */
  predicate Answerable(l: Life) {
    IsLive(l, AwaitingInput) && !l.task.value.incomplete && !l.disk.broken && Reopenable(l)
  }

  /** Having made `p` passes, none of the ways on leads beyond the budget. */
  predicate Fits(l: Life, p: int) {
    && p + Here(l) <= l.max
    && (Answerable(l) ==> p <= l.task.value.used)
    && (Revivable(l) ==> p + Behind(l) <= l.disk.row.value.used)
    && (forall i | 0 <= i < |l.disk.writes| :: l.disk.writes[i].WAwaiting? ==>
          p + Behind(l) <= l.disk.writes[i].used)
  }

  predicate Sane(l: Life) {
    Inv(l) && Rev(l) && Sized(l)
  }

  /** A step keeps all of it. */
  predicate StillFits(l: Life, m: Life, p: int) {
    Sized(m) && Fits(m, p + m.tally.passes - l.tally.passes)
  }

  predicate HeldAt(l: Life, r: nat) {
    l.crew.handle == Some(r) && r < |l.crew.runners|
  }

  lemma {:induction false} SpeakingFits(l: Life, r: nat, more: nat, saved: bool, talk: Talk, script: Script, p: int)
    requires Sized(l) && Fits(l, p) && Talks(l, r) && HeldAt(l, r) && IsLive(l, Running) && !l.creating
    requires NoRequeuePending(l.disk.writes)
    requires script.said >= l.disk.script.said && (script.cut || !l.disk.script.cut)
    requires more == 0 || l.crew.runners[r].passes + more <= l.crew.runners[r].budget
    ensures StillFits(l, Voiced(l, r, l.crew.runners[r], more, saved, talk, script), p)
  {
    hide Apply;
  }

  lemma {:induction false} PauseFits(l: Life, r: nat, text: Text, question: Text, p: int)
    requires Sized(l) && Fits(l, p) && Up(l) && l.task.Some? && r < |l.crew.runners| && l.crew.runners[r].Child?
    requires HeldAt(l, r) && IsLive(l, Running) && !l.creating && NoPauseOnDisk(l.disk) && l.desk.answer.None?
    requires DoPause(l, r, l.crew.runners[r], text, question).Some?
    ensures StillFits(l, DoPause(l, r, l.crew.runners[r], text, question).GetOr(l), p)
  {
  }

  /** The task goes on to its delivery: nothing of the phase is left. */
  lemma {:induction false} LeavingFits(l: Life, t: Task, w: Write, crew: Crew, p: int)
    requires Sized(l) && Fits(l, p) && l.task.Some? && !l.creating
    requires w.WDelivering? || w.WDelivered? || w.WFailed? || w.WDismissed? || w.WCancelled?
    requires l.desk.answer.None? || w.WDismissed? || w.WCancelled? || w.WDelivered?
    requires Held(crew).Child? ==> Held(crew) == Held(l.crew)
    ensures StillFits(l, Transition(l, t, w, crew), p)
  {
  }

  /** A runner that is not at work on the task moves on. */
  lemma {:induction false} MovingFits(l: Life, r: nat, pc: Pc, p: int)
    requires Sized(l) && Fits(l, p) && r < |l.crew.runners|
    requires !l.crew.runners[r].Child? && !l.crew.runners[r].Starting? && !l.crew.runners[r].Dispatched?
    requires !pc.Child? && !pc.Starting? && !pc.Dispatched?
    ensures StillFits(l, Go(l, r, pc), p)
  {
    hide Apply;
  }

  lemma {:induction false} NotingFits(l: Life, r: nat, t: Task, w: Write, p: int)
    requires Sized(l) && Fits(l, p) && r < |l.crew.runners| && l.task.Some? && l.crew.runners[r].Asking?
    requires InPause(l, l.crew.runners[r].stamp) && t.status.AwaitingInput? && t.used == l.task.value.used
    requires t.incomplete == l.task.value.incomplete && (w.WNotified? || w.WError?)
    ensures StillFits(l, Annotated(l, r, t, w), p)
  {
  }

  lemma {:induction false} MarkFits(l: Life, r: nat, exhausted: bool, p: int)
    requires Sized(l) && Fits(l, p) && HeldAt(l, r) && IsLive(l, Running) && l.crew.runners[r].Child?
    requires AtChild(l, r, l.crew.runners[r], Mark(exhausted)).Some?
    ensures StillFits(l, AtChild(l, r, l.crew.runners[r], Mark(exhausted)).GetOr(l), p)
  {
    var m := AtChild(l, r, l.crew.runners[r], Mark(exhausted)).value;
    assert forall i | 0 <= i < |l.disk.writes| :: m.disk.writes[i] == l.disk.writes[i];
  }

  /** Who runs, what is awaited and what is stored stay; a note may be on its way. */
  predicate Quiet(l: Life, m: Life) {
    && m.born == l.born && m.max == l.max && m.creating == l.creating && m.tally == l.tally && m.crew == l.crew
    && m.desk.answer == l.desk.answer && (Up(m) ==> Up(l)) && (m.live ==> l.live)
    && (m.task.Some? <==> l.task.Some?)
    && (m.task.Some? ==> m.task.value.status == l.task.value.status && m.task.value.used == l.task.value.used
                         && m.task.value.incomplete == l.task.value.incomplete)
    && m.disk.row == l.disk.row && m.disk.script == l.disk.script && m.disk.broken == l.disk.broken
    && (m.disk.writes == l.disk.writes || m.disk.writes == l.disk.writes + [WNoticed])
  }

  lemma {:induction false} QuietHere(l: Life, m: Life)
    requires Quiet(l, m)
    ensures Here(m) <= Here(l)
  {
  }

  lemma {:induction false} QuietBehind(l: Life, m: Life)
    requires Quiet(l, m) && LeftBehind(m)
    ensures LeftBehind(l)
  {
    assert forall i | 0 <= i < |l.disk.writes| :: m.disk.writes[i] == l.disk.writes[i];
  }

  lemma {:induction false} QuietFits(l: Life, m: Life, p: int)
    requires Sized(l) && Fits(l, p) && Quiet(l, m)
    ensures StillFits(l, m, p)
  {
    hide Here, LeftBehind;
    QuietHere(l, m);
    if LeftBehind(m) {
      QuietBehind(l, m);
    }
    assert forall i | 0 <= i < |l.disk.writes| :: m.disk.writes[i] == l.disk.writes[i];
  }

  lemma {:induction false} AskerFits(l: Life, r: nat, s: RunStep, p: int)
    requires Sized(l) && Fits(l, p) && r < |l.crew.runners| && l.task.Some? && !l.creating
    requires l.crew.runners[r].Asking? && DoRun(l, r, s).Some?
    ensures StillFits(l, DoRun(l, r, s).GetOr(l), p)
  {
    hide StillFits, Sized, Fits;
    var pc, t := l.crew.runners[r], l.task.value;
    if s.Raise? {
      MovingFits(l, r, Done, p);
    } else if s.Fail? && pc.attempt < DISPATCH_ATTEMPTS && !s.last {
      MovingFits(l, r, Asking(pc.stamp, pc.attempt + 1), p);
    } else if !InPause(l, pc.stamp) {
      MovingFits(l, r, Asked(0), p);
    } else if s.Succeed? {
      NotingFits(l, r, t.(notified := true), WNotified, p);
    } else {
      NotingFits(l, r, t.(error := Some(s.error)), WError(s.error), p);
    }
  }

  lemma {:induction false} PauserFits(l: Life, r: nat, s: RunStep, p: int)
    requires Sized(l) && Fits(l, p) && DoRun(l, r, s).Some? && l.crew.runners[r].Pausing? && !l.creating
    requires l.desk.answer.None? || !s.Degrade?
    ensures StillFits(l, DoRun(l, r, s).GetOr(l), p)
  {
    hide StillFits, Sized, Fits;
    if s.Degrade? {
      LeavingFits(l, l.task.value.(question := None), WDelivering(s.text, s.now, l.task.value.used),
                  Move(l.crew, r, Handing(NextTicket(l.disk))), p);
    } else {
      MovingFits(l, r, Asking(l.crew.runners[r].stamp, 1), p);
    }
  }

  lemma {:induction false} DispatcherFits(l: Life, r: nat, s: RunStep, p: int)
    requires Sized(l) && Fits(l, p) && DoRun(l, r, s).Some? && !l.creating && l.desk.answer.None?
    requires var pc := l.crew.runners[r]; pc.Dispatching? || pc.Dispatched?
    ensures StillFits(l, DoRun(l, r, s).GetOr(l), p)
  {
    hide StillFits, Sized, Fits;
    var pc, crew := l.crew.runners[r], Move(l.crew, r, Closing(NextTicket(l.disk)));
    if pc.Dispatched? {
      LeavingFits(l, l.task.value, if s.Proceed? then WDelivered else WFailed(s.error), crew, p);
    } else if s.Succeed? {
      DispatchedFits(l, r, p);
    } else if pc.attempt < DISPATCH_ATTEMPTS && !s.last {
      MovingFits(l, r, Dispatching(pc.attempt + 1), p);
    } else {
      LeavingFits(l, l.task.value, WFailed(s.error), crew, p);
    }
  }

  lemma {:induction false} DispatchedFits(l: Life, r: nat, p: int)
    requires Sized(l) && Fits(l, p) && r < |l.crew.runners| && l.task.Some? && l.crew.runners[r].Dispatching?
    ensures StillFits(l, AtDispatching(l, r, l.crew.runners[r], Succeed).GetOr(l), p)
  {
    hide Apply;
  }

  lemma {:induction false} ForgettingFits(l: Life, r: nat, p: int)
    requires Sized(l) && Fits(l, p) && r < |l.crew.runners| && l.crew.runners[r].Done?
    ensures StillFits(l, AtDone(l, r), p)
  {
  }

  lemma {:induction false} WaiterFits(l: Life, r: nat, p: int)
    requires Sized(l) && Fits(l, p) && l.task.Some? && HeldAt(l, r) && IsLive(l, Queued) && !l.creating
    requires l.crew.runners[r].Waiting?
    ensures StillFits(l, AtWaiting(l, r), p)
  {
    var m := AtWaiting(l, r);
    assert forall i | 0 <= i < |l.disk.writes| :: m.disk.writes[i] == l.disk.writes[i];
  }

  lemma {:induction false} StarterFits(l: Life, r: nat, ticket: nat, p: int)
    requires Sized(l) && Fits(l, p) && l.task.Some? && HeldAt(l, r) && IsLive(l, Running) && !l.creating
    requires l.crew.runners[r] == Starting(ticket) && AtStarting(l, r, ticket).Some?
    requires if l.desk.answer.Some? then Sound(l.disk.script) else RowAwaits(l.disk.row) ==> l.disk.broken
    ensures StillFits(l, AtStarting(l, r, ticket).GetOr(l), p)
  {
    hide Apply;
  }

  lemma {:induction false} RequeueFits(l: Life, c: nat, stamp: nat, text: Text, p: int)
    requires Sized(l) && Fits(l, p) && c < |l.desk.calls| && Answerable(l) && !l.creating
    ensures StillFits(l, Requeue(l, c, stamp, text), p)
  {
    var m := Requeue(l, c, stamp, text);
    assert m.disk.writes[|l.disk.writes|].WQueued?;
    assert forall i | 0 <= i < |l.disk.writes| :: m.disk.writes[i] == l.disk.writes[i];
  }

  lemma {:induction false} ReturningFits(l: Life, c: nat, stamp: nat, outcome: Outcome, p: int)
    requires Sized(l) && Fits(l, p) && c < |l.desk.calls|
    ensures StillFits(l, Return(l, c, stamp, outcome), p)
  {
    hide StillFits, Sized, Fits;
    QuietFits(l, Return(l, c, stamp, outcome), p);
  }

  lemma {:induction false} FlaggingFits(l: Life, c: nat, s: CallStep, p: int)
    requires Sized(l) && Fits(l, p) && c < |l.desk.calls| && l.desk.calls[c].Reopening? && IsLive(l, AwaitingInput)
    requires AtReopening(l, c, l.desk.calls[c], FoundInconsistent).Some?
    ensures StillFits(l, AtReopening(l, c, l.desk.calls[c], FoundInconsistent).GetOr(l), p)
  {
    hide Apply;
  }

  lemma {:induction false} WinningFits(l: Life, c: nat, p: int)
    requires Sized(l) && Fits(l, p) && c < |l.desk.calls| && l.desk.calls[c].Requeueing?
    requires AtRequeueing(l, c, l.desk.calls[c]).Some?
    ensures StillFits(l, AtRequeueing(l, c, l.desk.calls[c]).GetOr(l), p)
  {
    hide StillFits, Sized, Fits;
    QuietFits(l, AtRequeueing(l, c, l.desk.calls[c]).value, p);
  }

  lemma {:induction false} CancelFits(l: Life, now: nat, p: int)
    requires Sized(l) && Fits(l, p) && DoCancel(l, now).Some? && !l.creating
    ensures StillFits(l, DoCancel(l, now).GetOr(l), p)
  {
    hide StillFits, Sized, Fits;
    if Resting(l.task.value.status) {
      DismissingFits(l, p);
      LeavingFits(Dismissing(l), l.task.value, WDismissed, l.crew, p);
      SameTally(l, Dismissing(l), Transition(Dismissing(l), l.task.value, WDismissed, l.crew), p);
    } else if l.task.value.status.Delivering? {
      SamePlace(l, p);
    } else {
      LeavingFits(l, l.task.value, WCancelled(now), Cut(l.crew), p);
    }
  }

  lemma {:induction false} DismissingFits(l: Life, p: int)
    requires Sized(l) && Fits(l, p)
    ensures Sized(Dismissing(l)) && Fits(Dismissing(l), p)
  {
  }

  lemma {:induction false} SameTally(l: Life, n: Life, m: Life, p: int)
    requires StillFits(n, m, p) && n.tally == l.tally
    ensures StillFits(l, m, p)
  {
  }

  lemma {:induction false} SamePlace(l: Life, p: int)
    requires Sized(l) && Fits(l, p)
    ensures StillFits(l, l, p)
  {
  }

  lemma {:induction false} WriteFits(l: Life, p: int)
    requires Sized(l) && Fits(l, p) && DoSettle(l, true).Some?
    requires LeftBehind(DoSettle(l, true).GetOr(l)) ==> LeftBehind(l)
    ensures StillFits(l, DoSettle(l, true).GetOr(l), p)
  {
    hide NobodyReady, Here, LeftBehind;
    WriteHere(l);
  }

  /** The write brings nothing to the phase at hand. */
  lemma {:induction false} WriteHere(l: Life)
    requires DoSettle(l, true).Some?
    ensures Here(DoSettle(l, true).GetOr(l)) == Here(l)
  {
    hide NobodyReady, Apply;
  }

  lemma {:induction false} LossFits(l: Life, p: int)
    requires Sized(l) && Fits(l, p) && DoSettle(l, false).Some?
    requires LeftBehind(DoSettle(l, false).GetOr(l)) ==> LeftBehind(l)
    ensures StillFits(l, DoSettle(l, false).GetOr(l), p)
  {
    hide NobodyReady;
  }

  lemma {:induction false} WakeFits(l: Life, s: ProcessStep, p: int)
    requires Sized(l) && Fits(l, p) && DoProcess(l, s).Some? && (s.Restart? ==> l == Remains(l))
    requires s.Crash? || s.Restart?
    ensures StillFits(l, DoProcess(l, s).GetOr(l), p)
  {
    hide Apply;
  }

  lemma {:induction false} NoticeFits(l: Life, s: ProcessStep, p: int)
    requires Sized(l) && Fits(l, p) && DoProcess(l, s).Some?
    requires s.NoticeBegin? || s.NoticeOk? || s.NoticeFail? || s.StopBegin?
    ensures StillFits(l, DoProcess(l, s).GetOr(l), p)
  {
    hide StillFits, Sized, Fits;
    QuietFits(l, DoProcess(l, s).value, p);
  }

  lemma {:induction false} CutFits(l: Life, p: int)
    requires Sized(l) && Fits(l, p) && DoProcess(l, StopMark).Some?
    ensures StillFits(l, DoProcess(l, StopMark).GetOr(l), p)
  {
    hide Apply;
  }

  lemma {:induction false} SweepFits(l: Life, ok: bool, now: nat, used: nat, p: int)
    requires Sized(l) && Fits(l, p) && DoProcess(l, StopSweep(ok, now, used)).Some?
    ensures StillFits(l, DoProcess(l, StopSweep(ok, now, used)).GetOr(l), p)
  {
    hide Apply;
  }

  lemma {:induction false} ConsumerFits(l: Life, p: int)
    requires Sized(l) && Fits(l, p) && DoConsume(l).Some? && !l.creating
    requires l.live ==> Is(l, Queued)
    ensures StillFits(l, DoConsume(l).GetOr(l), p)
  {
    hide Apply;
  }

  lemma {:induction false} RegistrationFits(l: Life, p: int)
    requires Sized(l) && Fits(l, p) && DoEnqueue(l, Register).Some? && l.desk.answer.None? && l.task.None?
    ensures StillFits(l, DoEnqueue(l, Register).GetOr(l), p)
  {
  }

  lemma {:induction false} ResumeFits(l: Life, text: Text, refused: bool, p: int)
    requires Sized(l) && Fits(l, p) && DoResume(l, text, refused).Some?
    ensures StillFits(l, DoResume(l, text, refused).GetOr(l), p)
  {
    hide StillFits, Sized, Fits, RejectsResume;
    QuietFits(l, DoResume(l, text, refused).value, p);
  }

  // What the invariant says of who takes a step.

  lemma WorkerKnows(l: Life, r: nat)
    requires Inv(l) && r < |l.crew.runners| && Working(l.crew.runners[r])
    ensures HeldAt(l, r) && Up(l) && l.task.Some? && !l.creating
    ensures l.crew.runners[r].Waiting? ==> IsLive(l, Queued)
    ensures Executing(l.crew.runners[r]) ==> IsLive(l, Running) && NoRequeuePending(l.disk.writes)
    ensures !l.crew.runners[r].Waiting? && !l.crew.runners[r].Starting? && !l.crew.runners[r].Closing? ==>
              l.desk.answer.None?
  {
  }

  lemma ChildKnows(l: Life, r: nat)
    requires Inv(l) && r < |l.crew.runners| && l.crew.runners[r].Child? && !l.disk.broken
    ensures NoPauseOnDisk(l.disk)
  {
    WorkerKnows(l, r);
  }

  lemma StarterKnows(l: Life, r: nat)
    requires Inv(l) && Rev(l) && r < |l.crew.runners| && l.crew.runners[r].Starting?
    ensures if l.desk.answer.Some? then Sound(l.disk.script) else RowAwaits(l.disk.row) ==> l.disk.broken
  {
    WorkerKnows(l, r);
  }

  lemma {:induction false} ChildFits(l: Life, r: nat, s: RunStep, p: int)
    requires Sane(l) && Fits(l, p) && DoRun(l, r, s).Some? && l.crew.runners[r].Child?
    ensures StillFits(l, DoRun(l, r, s).GetOr(l), p)
  {
    hide StillFits, Sized, Fits, Inv, Rev;
    WorkerKnows(l, r);
    var pc, script, crew := l.crew.runners[r], l.disk.script, Move(l.crew, r, Handing(NextTicket(l.disk)));
    match s
    case Note(saved, cut, rest) =>
      SpeakingFits(l, r, 0, saved, if rest then Called else Owed, Noted(script, cut), p);
    case Pass(saved, cut, final) =>
      SpeakingFits(l, r, 1, saved, if final then Final else Called, Said(script, cut, final), p);
    case Close(saved, cut) => SpeakingFits(l, r, 0, saved, Concluded, Said(script, cut, true), p);
    case Mark(exhausted) => MarkFits(l, r, exhausted, p);
    case Pause(text, question) =>
      ChildKnows(l, r);
      PauseFits(l, r, text, question, p);
    case Finish(text, now, exhausted) =>
      LeavingFits(l, l.task.value, WDelivering(text, now, Used(l, pc, exhausted)), crew, p);
    case Rescue(text, now) => LeavingFits(l, l.task.value, WDelivering(text, now, l.task.value.used), crew, p);
  }

  lemma {:induction false} WorkerFits(l: Life, r: nat, s: RunStep, p: int)
    requires Sane(l) && Fits(l, p) && DoRun(l, r, s).Some? && Working(l.crew.runners[r])
    ensures StillFits(l, DoRun(l, r, s).GetOr(l), p)
  {
    hide StillFits, Sized, Fits, Inv, Rev, AtChild, AtAsking, AtPausing, AtDispatching, AtDispatched;
    WorkerKnows(l, r);
    match l.crew.runners[r]
    case Waiting => WaiterFits(l, r, p);
    case Starting(ticket) =>
      StarterKnows(l, r);
      StarterFits(l, r, ticket, p);
    case Child(_, _, _, _, _) => ChildFits(l, r, s, p);
    case Marking(_, used) =>
      LeavingFits(l, l.task.value, WDelivering(s.text, s.now, if s.Finish? then used else l.task.value.used),
                  Move(l.crew, r, Handing(NextTicket(l.disk))), p);
    case Handing(_) => MovingFits(l, r, Dispatching(1), p);
    case Dispatching(_) => DispatcherFits(l, r, s, p);
    case Dispatched => DispatcherFits(l, r, s, p);
    case Closing(_) => MovingFits(l, r, Done, p);
  }

  lemma PauserKnows(l: Life, r: nat, s: RunStep)
    requires CrewInv(l) && DoRun(l, r, s).Some?
    ensures !l.creating && (s.Degrade? ==> l.desk.answer.None?)
  {
    hide Owned, Placed, Stamped, Questioned;
  }

  lemma {:induction false} RunFits(l: Life, r: nat, s: RunStep, p: int)
    requires Sane(l) && Fits(l, p) && DoRun(l, r, s).Some?
    ensures StillFits(l, DoRun(l, r, s).GetOr(l), p)
  {
    hide StillFits, Sized, Fits, Rev, AtChild, AtAsking, AtPausing, AtDispatching, AtDispatched, DiskInv;
    if Working(l.crew.runners[r]) {
      WorkerFits(l, r, s, p);
    } else {
      PauserKnows(l, r, s);
      match l.crew.runners[r]
      case Pausing(_, _) => PauserFits(l, r, s, p);
      case Asking(_, _) => AskerFits(l, r, s, p);
      case Asked(_) => MovingFits(l, r, Done, p);
      case Done => ForgettingFits(l, r, p);
    }
  }

  lemma {:induction false} CallFits(l: Life, c: nat, s: CallStep, p: int)
    requires Sane(l) && Fits(l, p) && DoCall(l, c, s).Some? && DoCall(l, c, s).GetOr(l).tally.lost == l.tally.lost
    ensures StillFits(l, DoCall(l, c, s).GetOr(l), p)
  {
    hide StillFits, Sized, Fits, DiskInv, Owned, Placed, Stamped, Questioned;
    match l.desk.calls[c]
    case Reopening(stamp, text) =>
      if s.StoreFailed? {
        ReturningFits(l, c, stamp, Unavailable, p);
      } else if !IsLive(l, AwaitingInput) {
        ReturningFits(l, c, stamp, NotAwaiting, p);
      } else if s.FoundInconsistent? {
        FlaggingFits(l, c, s, p);
      } else if l.mode.Stopped? {
        ReturningFits(l, c, stamp, Unavailable, p);
      } else {
        assert !l.disk.broken && !l.task.value.incomplete;
        RequeueFits(l, c, stamp, text, p);
      }
    case Flagging(stamp, _) => ReturningFits(l, c, stamp, TranscriptIncomplete, p);
    case Requeueing(_, _) => WinningFits(l, c, p);
  }

  lemma {:induction false} ProcessFits(l: Life, s: ProcessStep, p: int)
    requires Sane(l) && Fits(l, p) && DoProcess(l, s).Some?
    ensures StillFits(l, DoProcess(l, s).GetOr(l), p)
  {
    hide StillFits, Sized, Fits, Rev, DiskInv, DoProcess;
    match s
    case NoticeBegin => NoticeFits(l, s, p);
    case NoticeOk => NoticeFits(l, s, p);
    case NoticeFail => NoticeFits(l, s, p);
    case StopBegin => NoticeFits(l, s, p);
    case StopMark => CutFits(l, p);
    case StopSweep(ok, now, used) => SweepFits(l, ok, now, used, p);
    case Crash => WakeFits(l, s, p);
    case Restart(_, _, _, _, _, _) =>
      DownRemains(l, s);
      WakeFits(l, s, p);
  }

  lemma DownRemains(l: Life, s: ProcessStep)
    requires Shape(l) && s.Restart? && DoProcess(l, s).Some?
    ensures l == Remains(l)
  {
  }

  lemma {:induction false} SettleFits(l: Life, ok: bool, p: int)
    requires Sane(l) && Fits(l, p) && DoSettle(l, ok).Some? && DoSettle(l, ok).GetOr(l).tally.lost == l.tally.lost
    ensures StillFits(l, DoSettle(l, ok).GetOr(l), p)
  {
    hide StillFits, Sized, Fits, Rev, Inv, DoSettle, LeftBehind;
    if !LeftBehind(l) && LeftBehind(DoSettle(l, ok).value) {
      OnlyLossLeavesBehind(l, Settles(ok));
    }
    if ok {
      WriteFits(l, p);
    } else {
      LossFits(l, p);
    }
  }

  lemma {:induction false} StepFits(l: Life, a: Action, p: int)
    requires Sane(l) && Fits(l, p) && Do(l, a).Some? && Do(l, a).GetOr(l).tally.lost == l.tally.lost
    ensures StillFits(l, Do(l, a).GetOr(l), p)
  {
    hide StillFits, Sized, Fits, Rev, DiskInv, DoRun, DoCall, DoCancel, DoSettle, DoProcess, DoConsume, DoResume;
    match a
    case Enqueues(s) =>
      OnlyRegisters(l, s);
      RegistrationFits(l, p);
    case Consumes =>
      EntryIsQueued(l);
      ConsumerFits(l, p);
    case Runs(r, s) => RunFits(l, r, s, p);
    case Cancels(now) =>
      TaskIsCreated(l, now);
      CancelFits(l, now, p);
    case ColdDismisses => ColdFits(l, p);
    case Resumes(text, refused) => ResumeFits(l, text, refused, p);
    case Calls(c, s) => CallFits(l, c, s, p);
    case Settles(ok) => SettleFits(l, ok, p);
    case Process(s) => ProcessFits(l, s, p);
  }

  lemma OnlyRegisters(l: Life, s: EnqueueStep)
    requires Shape(l) && Sized(l) && DoEnqueue(l, s).Some?
    ensures s.Register? && l.desk.answer.None? && l.task.None?
  {
  }

  lemma EntryIsQueued(l: Life)
    requires Inv(l) && DoConsume(l).Some?
    ensures !l.creating && (l.live ==> Is(l, Queued))
  {
  }

  lemma TaskIsCreated(l: Life, now: nat)
    requires Shape(l) && DoCancel(l, now).Some?
    ensures !l.creating
  {
  }

  lemma {:induction false} ColdFits(l: Life, p: int)
    requires Sized(l) && Fits(l, p) && DoColdDismiss(l).Some?
    ensures StillFits(l, DoColdDismiss(l).GetOr(l), p)
  {
  }

  lemma {:induction false} LossesStay(l: Life, run: seq<Action>)
    requires Play(l, run).Some?
    ensures Play(l, run).GetOr(l).tally.lost >= l.tally.lost
  {
    hide Do;
    RunIgnoresHistory(l, l.tally.(lost := 0), run);
  }

  lemma {:induction false} PlayFits(l: Life, run: seq<Action>, p: int)
    requires Sane(l) && Fits(l, p) && Play(l, run).Some? && Play(l, run).GetOr(l).tally.lost == l.tally.lost
    ensures StillFits(l, Play(l, run).GetOr(l), p)
    decreases |run|
  {
    hide Do, Sized, Fits, Inv, Rev;
    if run == [] {
      SamePlace(l, p);
    } else {
      var m := Do(l, run[0]).value;
      LossesStay(l, [run[0]]);
      PlayOne(l, run[0]);
      LossesStay(m, run[1..]);
      StepFits(l, run[0], p);
      Keeps(l, run[0]);
      KeepsRev(l, run[0]);
      PlayFits(m, run[1..], p + m.tally.passes - l.tally.passes);
    }
  }

  lemma {:induction false} PlayOne(l: Life, a: Action)
    ensures Play(l, [a]) == Do(l, a)
  {
    hide Do;
    assert [a][1..] == [];
  }

  // ---------------------------------------------------------------------------
  // The sizes, over every run
  // ---------------------------------------------------------------------------

  /** With few enough passes made, anything fits. */
  lemma {:induction false} FewFit(l: Life)
    ensures Fits(l, -(Here(l) as int))
  {
  }

  lemma ChildLosesNothing(l: Life, r: nat, pc: Pc, s: RunStep)
    requires r < |l.crew.runners| && l.task.Some? && pc.Child? && AtChild(l, r, pc, s).Some?
    ensures AtChild(l, r, pc, s).GetOr(l).tally.lost == l.tally.lost
  {
    hide Apply, Ends, Used;
  }

  lemma AskerLosesNothing(l: Life, r: nat, pc: Pc, s: RunStep)
    requires r < |l.crew.runners| && l.task.Some?
    ensures pc.Pausing? ==> AtPausing(l, r, pc, s).GetOr(l).tally.lost == l.tally.lost
    ensures pc.Asking? ==> AtAsking(l, r, pc, s).GetOr(l).tally.lost == l.tally.lost
  {
    hide Apply;
  }

  lemma RunLosesNothing(l: Life, r: nat, s: RunStep)
    requires DoRun(l, r, s).Some?
    ensures DoRun(l, r, s).GetOr(l).tally.lost == l.tally.lost
  {
    hide Apply, AtChild, AtPausing, AtAsking;
    var pc := l.crew.runners[r];
    if pc.Child? {
      ChildLosesNothing(l, r, pc, s);
    } else if pc.Pausing? || pc.Asking? {
      AskerLosesNothing(l, r, pc, s);
    }
  }

  lemma OthersLoseNothing(l: Life, a: Action)
    requires Do(l, a).Some? && !a.Runs? && !a.Calls? && !a.Settles? && !a.Process?
    ensures Do(l, a).GetOr(l).tally.lost == l.tally.lost
  {
    hide DoRun, DoCall, DoSettle, DoProcess, RejectsResume, Apply, Cut;
  }

  lemma ProcessLosesNothing(l: Life, s: ProcessStep)
    requires DoProcess(l, s).Some?
    ensures DoProcess(l, s).GetOr(l).tally.lost == l.tally.lost
  {
    hide Prunable, Pending, Sweep;
  }

  lemma {:induction false} LossIsSized(l: Life)
    requires Sized(l) && DoSettle(l, false).Some?
    ensures Sized(DoSettle(l, false).GetOr(l))
  {
    hide NobodyReady;
  }

  lemma {:induction false} AppliedIsSized(l: Life)
    requires Sized(l) && DoSettle(l, true).Some?
    ensures Sized(DoSettle(l, true).GetOr(l))
  {
    hide NobodyReady;
  }

  lemma {:induction false} RequeueIsSized(l: Life, c: nat, s: CallStep)
    requires CrewInv(l) && Rev(l) && Sized(l) && DoCall(l, c, s).Some?
    requires DoCall(l, c, s).GetOr(l).tally.lost != l.tally.lost
    ensures Sized(DoCall(l, c, s).GetOr(l))
  {
    hide Owned, Placed, Stamped, Questioned;
    var call := l.desk.calls[c];
    assert DoCall(l, c, s) == Some(Requeue(l, c, call.stamp, call.answer));
  }

  lemma {:induction false} LossKeepsSized(l: Life, a: Action)
    requires Inv(l) && Rev(l) && Sized(l) && Do(l, a).Some? && Do(l, a).GetOr(l).tally.lost != l.tally.lost
    ensures Sized(Do(l, a).GetOr(l))
  {
    hide Sized, DiskInv, CrewInv, Rev, DoRun, DoCancel, DoResume, DoCall, DoSettle, DoProcess, DoEnqueue, DoConsume,
         DoColdDismiss;
    match a
    case Runs(r, s) => RunLosesNothing(l, r, s);
    case Calls(c, s) => RequeueIsSized(l, c, s);
    case Settles(ok) =>
      if ok {
        AppliedIsSized(l);
      } else {
        LossIsSized(l);
      }
    case Process(s) => ProcessLosesNothing(l, s);
    case _ => OthersLoseNothing(l, a);
  }

  lemma {:induction false} StepKeepsSized(l: Life, a: Action)
    requires Inv(l) && Rev(l) && Do(l, a).Some? && (l.born ==> Sized(l))
    ensures Do(l, a).GetOr(l).born ==> Sized(Do(l, a).GetOr(l))
  {
    hide Do, Sized, Fits, Inv, Rev;
    if !l.born {
      BirthIsSized(l, a);
    } else if Do(l, a).value.tally.lost == l.tally.lost {
      FewFit(l);
      StepFits(l, a, -(Here(l) as int));
    } else {
      LossKeepsSized(l, a);
    }
  }

  lemma {:induction false} BirthIsSized(l: Life, a: Action)
    requires Inv(l) && !l.born && Do(l, a).Some?
    ensures Do(l, a).GetOr(l).born ==> Sized(Do(l, a).GetOr(l))
  {
    hide DiskInv, Owned, Placed, Stamped, Questioned, Reserved;
  }

  lemma {:induction false} PlayKeepsSized(l: Life, run: seq<Action>)
    requires Inv(l) && Rev(l) && Play(l, run).Some? && (l.born ==> Sized(l))
    ensures Play(l, run).GetOr(l).born ==> Sized(Play(l, run).GetOr(l))
    decreases |run|
  {
    hide Do, Sized, Inv, Rev;
    if run != [] {
      StepKeepsSized(l, run[0]);
      Keeps(l, run[0]);
      KeepsRev(l, run[0]);
      PlayKeepsSized(Do(l, run[0]).value, run[1..]);
    }
  }

  lemma {:induction false} ReachedIsSane(l: Life, run: seq<Action>)
    requires Reached(l, run) && l.born
    ensures Sane(l) && Mirrored(l)
  {
    hide Do, Sized, Inv, Rev;
    RunsKeepRev(l, run);
    UnbornIsSafe();
    PlayKeepsSized(UNBORN, run);
    UnbornMirrors();
    PlayMirrors(UNBORN, run);
  }

  lemma {:induction false} UnbornMirrors()
    ensures Mirrored(UNBORN)
  {
  }

  // ---------------------------------------------------------------------------
  // So many are possible
  // ---------------------------------------------------------------------------

  /** A run that loses nothing and makes exactly so many passes; a store that failed keeps what it has. */
  predicate Reaps(l: Life, run: seq<Action>, m: Life, n: int) {
    && Play(l, run) == Some(m) && m.max == l.max
    && m.tally.lost == l.tally.lost && m.tally.delivered == l.tally.delivered && m.tally.passes == l.tally.passes + n
    && (l.disk.broken ==> m.disk == l.disk)
  }

  lemma {:induction false} ReapsOn(l: Life, a: Action, n: Life, run: seq<Action>, m: Life, k: nat)
    requires Do(l, a) == Some(n) && Reaps(n, run, m, k) && n.max == l.max && n.tally == l.tally
    requires l.disk.broken ==> n.disk == l.disk
    ensures Reaps(l, [a] + run, m, k)
  {
    hide Do;
    assert ([a] + run)[1..] == run;
  }

  lemma {:induction false} StartingReaps(l: Life, r: nat) returns (run: seq<Action>, m: Life)
    requires Up(l) && l.task.Some? && r < |l.crew.runners| && l.crew.runners[r].Starting?
    requires Ready(l, l.crew.runners[r].ticket)
    ensures Reaps(l, run, m, Due(l))
  {
    var n := Do(l, Runs(r, Proceed)).value;
    run, m := WorksOut(n, r);
    ReapsOn(l, Runs(r, Proceed), n, run, m, Due(l));
    run := [Runs(r, Proceed)] + run;
  }

  /** Nobody but `h` works on the task, and no call is under way. */
  predicate Calm(l: Life, h: nat) {
    && (forall r | 0 <= r < |l.crew.runners| :: r != h ==> !Working(l.crew.runners[r]))
    && (forall c | 0 <= c < |l.desk.calls| :: l.desk.calls[c].Returned?)
  }

  predicate Clear(l: Life, n: nat) {
    forall r | 0 <= r < |l.crew.runners| :: r < n && Awaits(l.crew.runners[r]).Some? ==>
        !Ready(l, Awaits(l.crew.runners[r]).value)
  }

  /** Only runners out of their phase moved. */
  predicate Cleared(l: Life, m: Life, h: nat) {
    && m == l.(crew := l.crew.(runners := m.crew.runners)) && |m.crew.runners| == |l.crew.runners|
    && h < |l.crew.runners| && m.crew.runners[h] == l.crew.runners[h] && Calm(m, h)
  }

  /** Runners of earlier phases that were told of their write go on. */
  lemma {:induction false} Clears(l: Life, h: nat, k: nat) returns (run: seq<Action>, m: Life)
    requires Up(l) && l.task.Some? && !Is(l, AwaitingInput) && Calm(l, h) && Clear(l, k)
    requires h < |l.crew.runners| && k <= |l.crew.runners|
    requires Awaits(l.crew.runners[h]).None?
    ensures Play(l, run) == Some(m) && Cleared(l, m, h) && Clear(m, |m.crew.runners|)
    decreases |l.crew.runners| - k
  {
    hide Do;
    if k == |l.crew.runners| {
      run, m := [], l;
    } else if Awaits(l.crew.runners[k]).Some? && Ready(l, Awaits(l.crew.runners[k]).value) {
      var n := StepsAside(l, h, k);
      run, m := Clears(n, h, k + 1);
      assert ([Runs(k, Proceed)] + run)[1..] == run;
      run := [Runs(k, Proceed)] + run;
    } else {
      run, m := Clears(l, h, k + 1);
    }
  }

  lemma {:induction false} StepsAside(l: Life, h: nat, k: nat) returns (m: Life)
    requires Up(l) && l.task.Some? && !Is(l, AwaitingInput) && Calm(l, h) && Clear(l, k) && h < |l.crew.runners|
    requires k < |l.crew.runners| && k != h && Awaits(l.crew.runners[k]).Some?
    requires Ready(l, Awaits(l.crew.runners[k]).value)
    ensures Do(l, Runs(k, Proceed)) == Some(m) && Cleared(l, m, h) && Clear(m, k + 1)
  {
    hide AtChild, AtAsking, AtMarking, AtDispatching, AtDispatched, AtStarting, AtWaiting;
    var pc := l.crew.runners[k];
    m := Go(l, k, if pc.Pausing? then Asking(pc.stamp, 1) else Done);
  }

  lemma {:induction false} RunsOn(l: Life, run: seq<Action>, m: Life, rest: seq<Action>, n: Life, k: nat)
    requires Play(l, run) == Some(m) && Reaps(m, rest, n, k) && m.max == l.max && m.tally == l.tally
    requires l.disk.broken ==> m.disk == l.disk
    ensures Reaps(l, run + rest, n, k)
  {
    hide Do;
    PlayJoins(l, run, rest);
  }

  /** The runner enters: its write is applied once everybody else has gone on. */
  lemma {:induction false} EntersReaps(l: Life, r: nat) returns (run: seq<Action>, m: Life)
    requires Up(l) && IsLive(l, Queued) && r < |l.crew.runners| && l.crew.runners[r].Waiting? && !l.disk.broken
    requires l.disk.writes == [] && Calm(l, r) && Clear(l, |l.crew.runners|)
    ensures Reaps(l, run, m, Due(l))
  {
    hide Do;
    var n := Enters(l, r);
    var o := Settled1(n, r);
    run, m := StartingReaps(o, r);
    ReapsOn(n, Settles(true), o, run, m, Due(l));
    ReapsOn(l, Runs(r, Proceed), n, [Settles(true)] + run, m, Due(l));
    run := [Runs(r, Proceed)] + ([Settles(true)] + run);
  }

  lemma {:induction false} Enters(l: Life, r: nat) returns (n: Life)
    requires Up(l) && IsLive(l, Queued) && r < |l.crew.runners| && l.crew.runners[r].Waiting?
    ensures Do(l, Runs(r, Proceed)) == Some(n) && n == AtWaiting(l, r)
  {
    hide AtChild, AtAsking, AtMarking, AtDispatching, AtDispatched, AtStarting, AtPausing;
    n := AtWaiting(l, r);
  }

  lemma {:induction false} Settled1(l: Life, r: nat) returns (n: Life)
    requires Up(l) && l.disk.writes != [] && NobodyReady(l)
    ensures Do(l, Settles(true)) == Some(n) && DoSettle(l, true) == Some(n)
  {
    hide DoRun, DoCall, DoProcess, DoCancel, DoResume;
    n := DoSettle(l, true).value;
  }

  lemma {:induction false} WaitingReaps(l: Life, r: nat) returns (run: seq<Action>, m: Life)
    requires Up(l) && IsLive(l, Queued) && r < |l.crew.runners| && l.crew.runners[r].Waiting?
    requires l.disk.writes == [] && Calm(l, r)
    ensures Reaps(l, run, m, Due(l))
  {
    hide Do;
    if l.disk.broken {
      var n := Enters(l, r);
      run, m := StartingReaps(n, r);
      ReapsOn(l, Runs(r, Proceed), n, run, m, Due(l));
      run := [Runs(r, Proceed)] + run;
    } else {
      var before, n := Clears(l, r, 0);
      run, m := EntersReaps(n, r);
      RunsOn(l, before, n, run, m, Due(l));
      run := before + run;
    }
  }

  lemma {:induction false} EntryReaps(l: Life) returns (run: seq<Action>, m: Life)
    requires l.mode.Live? && IsLive(l, Queued) && l.entries > 0 && l.disk.writes == [] && Calm(l, |l.crew.runners|)
    ensures Reaps(l, run, m, Due(l))
  {
    var n := DoConsume(l).value;
    Consumed(l);
    hide Do;
    run, m := WaitingReaps(n, |l.crew.runners|);
    ReapsOn(l, Consumes, n, run, m, Due(l));
    run := [Consumes] + run;
  }

  lemma Consumed(l: Life)
    ensures Do(l, Consumes) == DoConsume(l)
  {
    hide DoConsume;
  }

  /** What the invariant says of a queued task at rest. */
  lemma QueuedKnows(l: Life)
    requires Inv(l) && Rev(l) && l.mode.Live? && IsLive(l, Queued) && l.disk.writes == []
    ensures RequeueTicket(l.desk).None? && l.entries > 0 ==> Calm(l, |l.crew.runners|)
    ensures RequeueTicket(l.desk).None? && l.entries == 0 ==>
              l.crew.handle.Some? && HeldAt(l, l.crew.handle.value) && Calm(l, l.crew.handle.value)
              && Held(l.crew).Waiting?
  {
    hide DiskInv, Stamped, Questioned;
  }

  lemma {:induction false} RequeuedReaps(l: Life) returns (run: seq<Action>, m: Life)
    requires Inv(l) && Rev(l) && l.mode.Live? && IsLive(l, Queued) && l.disk.writes == [] && RequeueTicket(l.desk).Some?
    ensures Reaps(l, run, m, Due(l))
  {
    var c := l.desk.reservation.value;
    var n := Wins(l, c);
    Keeps(l, Calls(c, Written));
    WonIsCalm(l, n, c);
    hide Do, Inv, Rev;
    run, m := EntryReaps(n);
    ReapsOn(l, Calls(c, Written), n, run, m, Due(l));
    run := [Calls(c, Written)] + run;
  }

  lemma {:induction false} Wins(l: Life, c: nat) returns (n: Life)
    requires Inv(l) && Rev(l) && l.mode.Live? && IsLive(l, Queued) && l.disk.writes == []
    requires l.desk.reservation == Some(c) && RequeueTicket(l.desk).Some?
    ensures Do(l, Calls(c, Written)) == Some(n)
    ensures n == l.(desk := Answered(l.desk, c, l.desk.calls[c].stamp, Resumed), entries := l.entries + 1)
  {
    hide DoRun, DoProcess, DoSettle, DoCancel, DoResume, DiskInv, Owned, Placed, Stamped, Questioned, Reserved;
    n := l.(desk := Answered(l.desk, c, l.desk.calls[c].stamp, Resumed), entries := l.entries + 1);
  }

  lemma WonIsCalm(l: Life, n: Life, c: nat)
    requires CrewInv(l) && l.mode.Live? && IsLive(l, Queued) && l.desk.reservation == Some(c)
    requires RequeueTicket(l.desk).Some?
    requires n == l.(desk := Answered(l.desk, c, l.desk.calls[c].stamp, Resumed), entries := l.entries + 1)
    ensures Calm(n, |n.crew.runners|)
  {
    hide Stamped, Questioned;
  }

  lemma {:induction false} QueuedReaps(l: Life) returns (run: seq<Action>, m: Life)
    requires Inv(l) && Rev(l) && l.mode.Live? && IsLive(l, Queued) && l.disk.writes == []
    ensures Reaps(l, run, m, Due(l))
  {
    hide Do, Inv, Rev;
    QueuedKnows(l);
    if RequeueTicket(l.desk).Some? {
      run, m := RequeuedReaps(l);
    } else if l.entries > 0 {
      run, m := EntryReaps(l);
    } else {
      run, m := WaitingReaps(l, l.crew.handle.value);
    }
  }

  lemma {:induction false} CreatingReaps(l: Life) returns (run: seq<Action>, m: Life)
    requires Inv(l) && Rev(l) && l.mode.Live? && l.creating && l.disk.writes == []
    ensures Reaps(l, run, m, l.max)
  {
    var n := DoEnqueue(l, Register).value;
    Registers(l);
    Keeps(l, Enqueues(Register));
    KeepsRev(l, Enqueues(Register));
    hide Do, Inv, Rev;
    run, m := QueuedReaps(n);
    ReapsOn(l, Enqueues(Register), n, run, m, l.max);
    run := [Enqueues(Register)] + run;
  }

  lemma Registers(l: Life)
    requires Shape(l) && l.mode.Live? && l.creating
    ensures Do(l, Enqueues(Register)) == DoEnqueue(l, Register) && DoEnqueue(l, Register).Some?
    ensures var n := DoEnqueue(l, Register).GetOr(l);
            && n.mode.Live? && IsLive(n, Queued) && Due(n) == l.max
            && n.disk == l.disk && n.max == l.max && n.tally == l.tally
  {
    hide DoRun, DoCall, DoProcess, DoCancel, DoResume, DoSettle;
  }

  /** The phase at hand makes all its passes; a final reply makes none. */
  lemma {:induction false} PhaseReaps(l: Life) returns (run: seq<Action>, m: Life)
    requires Inv(l) && Rev(l) && l.mode.Live? && l.disk.writes == [] && !Pausable(l, Held(l.crew))
    ensures Reaps(l, run, m, Here(l))
  {
    if IsLive(l, Running) {
      RunningKnows(l);
    }
    hide Do, Inv, Rev;
    run, m := [], l;
    if l.creating {
      run, m := CreatingReaps(l);
    } else if IsLive(l, Queued) {
      run, m := QueuedReaps(l);
    } else if IsLive(l, Running) && Held(l.crew).Starting? {
      run, m := StartingReaps(l, l.crew.handle.value);
    } else if IsLive(l, Running) && Held(l.crew).Child? && !Silent(Held(l.crew).talk) {
      run, m := WorksOut(l, l.crew.handle.value);
    }
  }

  lemma RunningKnows(l: Life)
    requires Inv(l) && Rev(l) && l.mode.Live? && IsLive(l, Running) && l.disk.writes == []
    ensures l.crew.handle.Some? && HeldAt(l, l.crew.handle.value) && Calm(l, l.crew.handle.value)
    ensures Held(l.crew).Starting? ==> Ready(l, Held(l.crew).ticket)
  {
    hide DiskInv, Stamped, Questioned;
  }

  /** The last word of the child ends the transcript. */
  lemma {:induction false} EndsWell(l: Life, r: nat) returns (m: Life)
    requires Talks(l, r) && l.crew.runners[r].whole && !l.disk.script.cut
    requires l.crew.runners[r].talk.Owed? && l.crew.runners[r].passes + 1 >= l.crew.runners[r].budget
    ensures Do(l, Runs(r, FinalWord(l.crew.runners[r]))) == Some(m) && OnlyWorked(l, m, r) && Sound(m.disk.script)
    ensures m.tally.passes == l.tally.passes + PassesLeft(l.crew.runners[r])
  {
    hide Do, DoPause, Deliver;
    m := Speaks(l, r, FinalWord(l.crew.runners[r]));
  }

  /** One more message, stored. */
  lemma {:induction false} SpeaksWell(l: Life, r: nat, s: RunStep) returns (m: Life)
    requires Talks(l, r) && l.crew.runners[r].whole && !l.disk.script.cut
    requires var pc := l.crew.runners[r];
             s == if pc.talk.Owed? then Pass(true, false, false) else Note(true, false, false)
    requires l.crew.runners[r].talk.Owed? ==> l.crew.runners[r].passes + 1 < l.crew.runners[r].budget
    ensures Do(l, Runs(r, s)) == Some(m) && OnlyWorked(l, m, r) && Talks(m, r)
    ensures m.crew.runners[r].whole && !m.disk.script.cut && (m.crew.runners[r].talk.Owed? <==> s.Note?)
    ensures m.tally.passes + PassesLeft(m.crew.runners[r]) == l.tally.passes + PassesLeft(l.crew.runners[r])
    ensures PassesLeft(m.crew.runners[r]) == PassesLeft(l.crew.runners[r]) - if s.Pass? then 1 else 0
  {
    hide Do, DoPause, Deliver;
    m := Speaks(l, r, s);
  }

  /** All the passes that are left, stored: the last one ends the transcript. */
  lemma {:induction false} WorksWell(l: Life, r: nat) returns (run: seq<Action>, m: Life)
    requires Talks(l, r) && l.crew.runners[r].whole && !l.disk.script.cut
    ensures Play(l, run) == Some(m) && OnlyWorked(l, m, r) && Sound(m.disk.script)
    ensures m.tally.passes == l.tally.passes + PassesLeft(l.crew.runners[r])
    decreases PassesLeft(l.crew.runners[r]), !l.crew.runners[r].talk.Owed?
  {
    hide Do, PassesLeft, Sound;
    var pc := l.crew.runners[r];
    if pc.talk.Owed? && pc.passes + 1 >= pc.budget {
      m := EndsWell(l, r);
      PlayOne(l, Runs(r, FinalWord(pc)));
      run := [Runs(r, FinalWord(pc))];
    } else {
      var s := if pc.talk.Owed? then Pass(true, false, false) else Note(true, false, false);
      var n := SpeaksWell(l, r, s);
      run, m := WorksWell(n, r);
      WorkAddsUp(l, Runs(r, s), run, n, m, r);
      run := [Runs(r, s)] + run;
    }
  }

  // Then the pause on disk is resumed after a restart.

  lemma {:induction false} RevivesAfter(l: Life, run: seq<Action>, m: Life, n: nat)
    requires Play(l, run) == Some(m) && m.max == l.max && m.tally.passes == l.tally.passes + n
    requires m.tally.lost == l.tally.lost && m.tally.delivered == l.tally.delivered
    requires m.disk.row == l.disk.row && Resumable(l.disk.row, l.max) && Sound(m.disk.script)
    ensures CanDeliver(l, 0, n + l.max - l.disk.row.value.used)
  {
    hide Do;
    PauseOnDiskDelivers(m, 0, l.max - l.disk.row.value.used);
    RunsFirst(l, run, m, 0, l.max - l.disk.row.value.used);
  }

  lemma {:induction false} BehindDelivers(l: Life)
    requires Inv(l) && Rev(l) && l.mode.Live? && l.disk.writes == [] && LeftBehind(l)
    ensures CanDeliver(l, 0, Here(l) + There(l))
  {
    LeftBehindIsLost(l);
    hide Do, Rev, DiskInv, Reserved, Stamped, Questioned, Placed;
    if There(l) == 0 || Sound(l.disk.script) {
      var run, m := PhaseReaps(l);
      if There(l) == 0 {
        NothingMore(m);
        RunsFirst(l, run, m, 0, 0);
      } else {
        RevivesAfter(l, run, m, Here(l));
      }
    } else {
      RunningMeansHeld(l);
      var run, m := WorksWell(l, l.crew.handle.value);
      RevivesAfter(l, run, m, Here(l));
    }
  }

  lemma RunningMeansHeld(l: Life)
    requires Inv(l) && Rev(l) && l.mode.Live? && l.disk.writes == [] && Held(l.crew).Child?
    ensures l.crew.handle.Some? && IsLive(l, Running) && HeldAt(l, l.crew.handle.value) && !l.creating
  {
    WorkerKnows(l, l.crew.handle.value);
  }

  lemma {:induction false} PauseOnDiskIsThere(l: Life)
    requires Inv(l) && Rev(l) && l.mode.Live? && l.disk.writes == [] && !LeftBehind(l)
    ensures CanDeliver(l, 0, There(l))
  {
    hide Do, DiskInv, Reserved, Stamped;
    if There(l) == 0 {
      NothingMore(l);
    } else {
      AloneIsSound(l);
      PauseOnDiskDelivers(l, 0, There(l));
    }
  }

  lemma AloneIsSound(l: Life)
    requires Inv(l) && Rev(l) && l.mode.Live? && l.disk.writes == [] && !LeftBehind(l) && Revivable(l)
    ensures Sound(l.disk.script)
  {
    if Held(l.crew).Child? {
      RunningMeansHeld(l);
      WorkerKnows(l, l.crew.handle.value);
    }
  }

  // A final reply that asks: the pause is stored, and resumed after a restart.

  lemma {:induction false} Asks(l: Life, h: nat) returns (m: Life)
    requires Up(l) && l.task.Some? && h < |l.crew.runners| && l.disk.writes == [] && l.disk.row.Some?
    requires Pausable(l, l.crew.runners[h]) && Clear(l, |l.crew.runners|) && Calm(l, h)
    ensures Do(l, Runs(h, Pause([], []))) == Some(m) && DoPause(l, h, l.crew.runners[h], [], []) == Some(m)
    ensures m.disk.writes != [] && NobodyReady(m)
  {
    hide AtAsking, AtMarking, AtDispatching, AtDispatched, AtStarting, AtWaiting, AtPausing, Deliver;
    m := DoPause(l, h, l.crew.runners[h], [], []).value;
  }

  lemma {:induction false} QuestionIsStored(l: Life, h: nat)
    requires Up(l) && l.task.Some? && h < |l.crew.runners| && l.disk.writes == [] && l.disk.row.Some?
    requires Pausable(l, l.crew.runners[h]) && Clear(l, |l.crew.runners|) && Calm(l, h) && !l.disk.row.value.incomplete
    ensures CanDeliver(l, 0, l.max - l.crew.runners[h].pre - l.crew.runners[h].passes)
  {
    hide Do, Clear, Calm, NobodyReady;
    var used := l.crew.runners[h].pre + l.crew.runners[h].passes;
    var m := Asks(l, h);
    var n := Settled1(m, h);
    PauseOnDiskDelivers(n, 0, l.max - used);
    StepsFirst(m, Settles(true), 0, l.max - used);
    StepsFirst(l, Runs(h, Pause([], [])), 0, l.max - used);
  }

  lemma QuestionKnows(l: Life)
    requires Sane(l) && l.mode.Live? && IsLive(l, Running) && Pausable(l, Held(l.crew))
    ensures l.crew.handle.Some? && HeldAt(l, l.crew.handle.value)
    ensures l.disk.row.Some? && !l.disk.row.value.incomplete && !l.creating && !LeftBehind(l)
  {
    WorkerKnows(l, l.crew.handle.value);
    ChildKnows(l, l.crew.handle.value);
  }

  lemma {:induction false} QuestionDelivers(l: Life)
    requires Sane(l) && l.mode.Live? && l.disk.writes == [] && IsLive(l, Running) && Pausable(l, Held(l.crew))
    ensures CanDeliver(l, 0, l.max - Held(l.crew).pre - Held(l.crew).passes)
  {
    QuestionKnows(l);
    RunningKnows(l);
    hide Do, Inv, Rev, Sized;
    var h, n := l.crew.handle.value, l.max - Held(l.crew).pre - Held(l.crew).passes;
    var run, m := Clears(l, h, 0);
    QuestionIsStored(m, h);
    RunsFirst(l, run, m, 0, n);
  }

  lemma {:induction false} AheadIsReached(l: Life)
    requires Sane(l) && l.mode.Live? && l.disk.writes == []
    ensures CanDeliver(l, 0, Ahead(l))
  {
    hide Do, Inv;
    if LeftBehind(l) {
      BehindDelivers(l);
    } else if Here(l) < There(l) {
      PauseOnDiskIsThere(l);
    } else if !l.creating && IsLive(l, Running) && Pausable(l, Held(l.crew)) {
      QuestionDelivers(l);
    } else {
      HereIsReached(l);
    }
  }

  lemma {:induction false} HereIsReached(l: Life)
    requires Sane(l) && l.mode.Live? && l.disk.writes == []
    requires l.creating || !IsLive(l, Running) || !Pausable(l, Held(l.crew))
    ensures CanDeliver(l, 0, Here(l))
  {
    if Pausable(l, Held(l.crew)) {
      OnlyRunningPauses(l);
    }
    hide Do, Inv, Rev, Sized;
    var run, m := PhaseReaps(l);
    NothingMore(m);
    RunsFirst(l, run, m, 0, 0);
  }

  lemma OnlyRunningPauses(l: Life)
    requires Inv(l) && Pausable(l, Held(l.crew))
    ensures !l.creating && IsLive(l, Running)
  {
    WorkerKnows(l, l.crew.handle.value);
  }

  // ---------------------------------------------------------------------------
  // The exact number
  // ---------------------------------------------------------------------------

  lemma {:induction false} NothingFitsMore(l: Life)
    requires Sane(l) && Mirrored(l) && l.mode.Live? && l.disk.writes == []
    ensures Fits(l, l.max - Ahead(l))
  {
    hide Inv, Rev;
  }

  /**
   In every reachable state whose store is idle: so many passes can still be made, without another lost
   requeue, and no more. What the phase at hand has left and what a restart gives the pause on disk add
   up exactly if the phase left that pause behind.
   */
  lemma {:induction false} PassesExactly(l: Life, run: seq<Action>, n: nat)
    requires Reached(l, run) && l.born && l.mode.Live? && l.disk.writes == []
    ensures CanMake(l, n) <==> n <= Ahead(l)
  {
    ReachedIsSane(l, run);
    hide Do, Inv, Rev, Sized, Fits, Mirrored;
    if CanMake(l, n) {
      var more :| Makes(more, l, n);
      NothingFitsMore(l);
      PlayFits(l, more, l.max - Ahead(l));
      FitsBounds(Play(l, more).value, l.max - Ahead(l) + Play(l, more).value.tally.passes - l.tally.passes);
    }
    if n <= Ahead(l) {
      AheadIsReached(l);
      FewerPasses(l, 0, Ahead(l), n);
      var more :| Aims(more, l, 0, n);
      assert Makes(more, l, n);
    }
  }

  lemma FitsBounds(l: Life, p: int)
    requires Fits(l, p)
    ensures p <= l.max
  {
  }

  /**
   When exactly can the iteration budget still be exceeded? Besides a phase that has too much left for
   what was made before, only by a pause on disk that a resume would accept again: one that the phase at
   hand left behind, if that made or can make a pass since, or one since which passes were made.
   */
  lemma {:induction false} BudgetFailsExactly(l: Life, run: seq<Action>)
    requires Reached(l, run) && l.born && l.mode.Live? && l.disk.writes == [] && l.tally.passes <= l.max
    ensures CanMake(l, l.max - l.tally.passes + 1) <==>
              || l.tally.passes + Here(l) > l.max
              || (Revivable(l) && l.disk.row.value.used < l.max
                  && l.tally.passes + (if LeftBehind(l) then Here(l) else 0) > l.disk.row.value.used)
  {
    hide Do;
    PassesExactly(l, run, l.max - l.tally.passes + 1);
  }
}
