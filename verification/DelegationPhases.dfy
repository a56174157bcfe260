/**
 Phases of one delegation are isolated. The runner of an earlier phase may still be inside the
 dispatch of its question while the task was answered, ran again and paused again: over every run it
 moves nothing but itself, and the pause it asked about never comes back while the process lives.
 */
module DelegationPhases {
  import opened Wrappers
  import opened DelegationLife
  import opened DelegationInvariant
  import opened DelegationProof
  import opened DelegationNotice

  // ---------------------------------------------------------------------------
  // The runners that stepped aside
  // ---------------------------------------------------------------------------

  /** _en_entrega never holds the runner of the phase at hand. */
  predicate Apart(crew: Crew) {
    (crew.handle.Some? ==> crew.handle.value !in crew.lingering && crew.handle.value < |crew.runners|)
    && forall r | r in crew.lingering :: r < |crew.runners|
  }

  /** Runner `r` moved; the others, the books of runners and what was dismissed did not. */
  predicate SameBooks(l: Life, m: Life, r: nat) {
    && m.crew.handle == l.crew.handle && m.crew.lingering == l.crew.lingering
    && |m.crew.runners| == |l.crew.runners|
    && (forall q | 0 <= q < |l.crew.runners| :: q != r ==> m.crew.runners[q] == l.crew.runners[q])
    && m.mode == l.mode && m.born == l.born && m.desk.dismissed == l.desk.dismissed
  }

  predicate SameClock(l: Life, m: Life, r: nat) {
    SameBooks(l, m, r) && m.clock == l.clock
  }

  lemma ChildKeepsBooks(l: Life, r: nat, pc: Pc, s: RunStep)
    requires r < |l.crew.runners| && l.task.Some? && pc.Child? && AtChild(l, r, pc, s).Some?
    ensures SameBooks(l, AtChild(l, r, pc, s).GetOr(l), r)
  {
  }

  lemma AskerKeepsBooks(l: Life, r: nat, pc: Pc, s: RunStep)
    requires r < |l.crew.runners| && l.task.Some?
    ensures pc.Pausing? && AtPausing(l, r, pc, s).Some? ==> SameClock(l, AtPausing(l, r, pc, s).GetOr(l), r)
    ensures pc.Asking? && AtAsking(l, r, pc, s).Some? ==> SameClock(l, AtAsking(l, r, pc, s).GetOr(l), r)
  {
  }

  lemma DispatcherKeepsBooks(l: Life, r: nat, pc: Pc, s: RunStep)
    requires r < |l.crew.runners| && l.task.Some?
    ensures pc.Marking? && AtMarking(l, r, pc, s).Some? ==> SameClock(l, AtMarking(l, r, pc, s).GetOr(l), r)
    ensures pc.Dispatching? && AtDispatching(l, r, pc, s).Some? ==>
              SameClock(l, AtDispatching(l, r, pc, s).GetOr(l), r)
    ensures AtDispatched(l, r, s).Some? ==> SameClock(l, AtDispatched(l, r, s).GetOr(l), r)
  {
    hide CrewInv;
  }

  lemma RunKeepsBooks(l: Life, r: nat, s: RunStep)
    requires DoRun(l, r, s).Some?
    ensures !l.crew.runners[r].Child? ==> DoRun(l, r, s).GetOr(l).clock == l.clock
    ensures SameBooks(l, DoRun(l, r, s).GetOr(l), r)
            || (l.crew.runners[r].Done? && DoRun(l, r, s).GetOr(l) == AtDone(l, r))
  {
    hide AtChild, AtPausing, AtAsking, AtDispatching;
    var pc := l.crew.runners[r];
    match pc
    case Child(_, _, _, _, _) => ChildKeepsBooks(l, r, pc, s);
    case Pausing(_, _) => AskerKeepsBooks(l, r, pc, s);
    case Asking(_, _) => AskerKeepsBooks(l, r, pc, s);
    case Marking(_, _) => DispatcherKeepsBooks(l, r, pc, s);
    case Dispatching(_) => DispatcherKeepsBooks(l, r, pc, s);
    case Dispatched => DispatcherKeepsBooks(l, r, pc, s);
    case _ =>
  }

  lemma CallKeepsApart(l: Life, c: nat, s: CallStep)
    requires Apart(l.crew) && DoCall(l, c, s).Some?
    ensures Apart(DoCall(l, c, s).GetOr(l).crew)
  {
  }

  lemma ConsumeKeepsApart(l: Life)
    requires Apart(l.crew) && DoConsume(l).Some?
    ensures Apart(DoConsume(l).GetOr(l).crew)
  {
  }

  lemma CancelKeepsApart(l: Life, now: nat)
    requires Apart(l.crew) && DoCancel(l, now).Some?
    ensures Apart(DoCancel(l, now).GetOr(l).crew)
  {
  }

  lemma ProcessKeepsApart(l: Life, s: ProcessStep)
    requires Apart(l.crew) && DoProcess(l, s).Some?
    ensures Apart(DoProcess(l, s).GetOr(l).crew)
  {
  }

  lemma StepKeepsApart(l: Life, a: Action)
    requires Apart(l.crew) && Do(l, a).Some?
    ensures Apart(Do(l, a).GetOr(l).crew)
  {
    match a
    case Consumes => ConsumeKeepsApart(l);
    case Runs(r, s) => RunKeepsBooks(l, r, s);
    case Cancels(now) => CancelKeepsApart(l, now);
    case Calls(c, s) => CallKeepsApart(l, c, s);
    case Process(s) => ProcessKeepsApart(l, s);
    case _ =>
  }

  lemma {:induction false} PlayKeepsApart(l: Life, run: seq<Action>)
    requires Apart(l.crew) && Play(l, run).Some?
    ensures Apart(Play(l, run).GetOr(l).crew)
    decreases |run|
  {
    if run != [] {
      StepKeepsApart(l, run[0]);
      PlayKeepsApart(Do(l, run[0]).value, run[1..]);
    }
  }

  // ---------------------------------------------------------------------------
  // A runner out of its phase moves only itself
  // ---------------------------------------------------------------------------

  /** Nothing but the position of runner `r` changed: not the task, its writes, the handle or another runner. */
  predicate OnlyMoved(l: Life, m: Life, r: nat) {
    && m == l.(crew := m.crew)
    && m.crew.handle == l.crew.handle
    && m.crew.lingering - {r} == l.crew.lingering - {r}
    && |m.crew.runners| == |l.crew.runners|
    && (forall q | 0 <= q < |l.crew.runners| :: q != r ==> m.crew.runners[q] == l.crew.runners[q])
  }

  /** Its pause is over, or it has nothing more to ask. */
  predicate Outside(l: Life, r: nat) {
    r < |l.crew.runners| && (l.crew.runners[r].Asked? || l.crew.runners[r].Done?
      || ((l.crew.runners[r].Pausing? || l.crew.runners[r].Asking?) && !InPause(l, l.crew.runners[r].stamp)))
  }

  lemma OutsideMovesItself(l: Life, r: nat, s: RunStep)
    requires Outside(l, r) && (l.crew.handle == Some(r) ==> !l.crew.runners[r].Done?) && DoRun(l, r, s).Some?
    ensures OnlyMoved(l, DoRun(l, r, s).GetOr(l), r)
  {
  }

  lemma LingeringIsOutside(l: Life, r: nat)
    requires Owned(l.crew, Up(l), Doing(l), Over(l), PauseOf(l)) && r in l.crew.lingering
    ensures Outside(l, r)
  {
  }

  /**
   In every reachable state, a runner that a resume set aside moves nothing but itself, whatever its
   dispatch gives back and whatever became of the task meanwhile.
   */
  lemma {:induction false} LingeringTouchesNothing(l: Life, run: seq<Action>, r: nat, s: RunStep)
    requires Reached(l, run) && r in l.crew.lingering && DoRun(l, r, s).Some?
    ensures OnlyMoved(l, DoRun(l, r, s).GetOr(l), r)
  {
    hide DoRun, DoCall, DoCancel, DoSettle, DoProcess, DiskInv, Reserved, Stamped;
    RunsKeepInvariant(l, run);
    PlayKeepsApart(UNBORN, run);
    LingeringIsOutside(l, r);
    OutsideMovesItself(l, r, s);
  }

  // ---------------------------------------------------------------------------
  // A pause that is over never comes back while the process lives
  // ---------------------------------------------------------------------------

  predicate Past(l: Life, stamp: nat) {
    stamp < l.clock && !InPause(l, stamp)
  }

  lemma ChildPausesAnew(l: Life, r: nat, pc: Pc, s: RunStep, stamp: nat)
    requires r < |l.crew.runners| && l.task.Some? && pc.Child? && AtChild(l, r, pc, s).Some?
    requires Past(l, stamp)
    ensures Past(AtChild(l, r, pc, s).GetOr(l), stamp)
  {
  }

  lemma RunKeepsPast(l: Life, r: nat, s: RunStep, stamp: nat)
    requires Owned(l.crew, Up(l), Doing(l), Over(l), PauseOf(l)) && DoRun(l, r, s).Some? && Past(l, stamp)
    ensures Past(DoRun(l, r, s).GetOr(l), stamp)
  {
    var pc := l.crew.runners[r];
    if pc.Child? {
      ChildPausesAnew(l, r, pc, s, stamp);
    } else {
      RunKeepsBooks(l, r, s);
      OthersRunOn(l, r, s);
    }
  }

  /** A runner that is no child does not pause the task. */
  lemma OthersRunOn(l: Life, r: nat, s: RunStep)
    requires DoRun(l, r, s).Some? && !l.crew.runners[r].Child?
    ensures var m := DoRun(l, r, s).GetOr(l);
            SameStay(l, m) || Leaving(m) || Is(m, Running)
  {
    hide AtChild, AtPausing, AtAsking, AtDispatching;
    var pc := l.crew.runners[r];
    match pc
    case Pausing(_, _) => AskerStaysOrLeaves(l, r, pc, s);
    case Asking(_, _) => AskerStaysOrLeaves(l, r, pc, s);
    case Marking(_, _) => DispatcherStaysOrLeaves(l, r, pc, s);
    case Dispatching(_) => DispatcherStaysOrLeaves(l, r, pc, s);
    case Dispatched => DispatcherStaysOrLeaves(l, r, pc, s);
    case Starting(t) => StarterStays(l, r, t);
    case _ =>
  }

  lemma CallKeepsPast(l: Life, c: nat, s: CallStep, stamp: nat)
    requires DoCall(l, c, s).Some? && Past(l, stamp)
    ensures Past(DoCall(l, c, s).GetOr(l), stamp)
  {
  }

  lemma ActorKeepsPast(l: Life, a: Action, stamp: nat)
    requires Shape(l) && Within(a) && Do(l, a).Some? && Past(l, stamp)
    requires !a.Runs? && !a.Calls?
    ensures Past(Do(l, a).GetOr(l), stamp)
  {
  }

  lemma StepKeepsPast(l: Life, a: Action, stamp: nat)
    requires CrewInv(l) && Within(a) && Do(l, a).Some? && Past(l, stamp)
    ensures Past(Do(l, a).GetOr(l), stamp)
  {
    hide DoRun, DoCall, DoCancel, DoSettle, DoProcess, DiskInv, Reserved, Stamped;
    match a
    case Runs(r, s) => RunKeepsPast(l, r, s, stamp);
    case Calls(c, s) => CallKeepsPast(l, c, s, stamp);
    case _ => ActorKeepsPast(l, a, stamp);
  }

  lemma {:induction false} PauseNeverReturns(l: Life, run: seq<Action>, stamp: nat)
    requires Inv(l) && Past(l, stamp) && AllWithin(run) && Play(l, run).Some?
    ensures Past(Play(l, run).GetOr(l), stamp)
    decreases |run|
  {
    hide Do, CrewInv, DiskInv;
    if run != [] {
      assert Within(run[0]);
      assert forall i | 0 <= i < |run[1..]| :: run[1..][i] == run[i + 1];
      StepKeepsPast(l, run[0], stamp);
      Keeps(l, run[0]);
      PauseNeverReturns(Do(l, run[0]).value, run[1..], stamp);
    }
  }

  // ---------------------------------------------------------------------------
  // The runner keeps asking about its own pause
  // ---------------------------------------------------------------------------

  predicate AsksAbout(pc: Pc, stamp: nat) {
    pc.Asked? || pc.Done? || ((pc.Pausing? || pc.Asking?) && pc.stamp == stamp)
  }

  predicate Asks(l: Life, r: nat, stamp: nat) {
    r < |l.crew.runners| && AsksAbout(l.crew.runners[r], stamp)
  }

  lemma RunKeepsAsking(l: Life, q: nat, s: RunStep, r: nat, stamp: nat)
    requires Asks(l, r, stamp) && Past(l, stamp) && DoRun(l, q, s).Some?
    ensures Asks(DoRun(l, q, s).GetOr(l), r, stamp)
  {
    if q != r {
      RunKeepsBooks(l, q, s);
    }
  }

  lemma ActorKeepsAsking(l: Life, a: Action, r: nat, stamp: nat)
    requires Asks(l, r, stamp) && Within(a) && Do(l, a).Some? && !a.Runs? && !a.Calls?
    ensures Asks(Do(l, a).GetOr(l), r, stamp)
  {
  }

  lemma CallKeepsAsking(l: Life, c: nat, s: CallStep, r: nat, stamp: nat)
    requires Asks(l, r, stamp) && DoCall(l, c, s).Some?
    ensures Asks(DoCall(l, c, s).GetOr(l), r, stamp)
  {
  }

  lemma StepKeepsAsking(l: Life, a: Action, r: nat, stamp: nat)
    requires Asks(l, r, stamp) && Past(l, stamp) && Within(a) && Do(l, a).Some?
    ensures Asks(Do(l, a).GetOr(l), r, stamp)
  {
    hide DoRun, DoCall, DoCancel, DoSettle, DoProcess;
    match a
    case Runs(q, s) => RunKeepsAsking(l, q, s, r, stamp);
    case Calls(c, s) => CallKeepsAsking(l, c, s, r, stamp);
    case _ => ActorKeepsAsking(l, a, r, stamp);
  }

  lemma {:induction false} PlayKeepsAsking(l: Life, run: seq<Action>, r: nat, stamp: nat)
    requires Inv(l) && Asks(l, r, stamp) && Past(l, stamp) && AllWithin(run) && Play(l, run).Some?
    ensures Asks(Play(l, run).GetOr(l), r, stamp)
    decreases |run|
  {
    hide Do, CrewInv, DiskInv;
    if run != [] {
      assert Within(run[0]);
      assert forall i | 0 <= i < |run[1..]| :: run[1..][i] == run[i + 1];
      StepKeepsAsking(l, run[0], r, stamp);
      StepKeepsPast(l, run[0], stamp);
      Keeps(l, run[0]);
      PlayKeepsAsking(Do(l, run[0]).value, run[1..], r, stamp);
    }
  }

  /**
   Once the pause that a runner asked about is over - answered, dismissed or cut - that pause never
   comes back while the process lives, and the runner never again moves anything but itself: not the
   status, the error, `notified` or the handle of a newer phase.
   */
  lemma {:induction false} OldPhaseTouchesNothing(l: Life, before: seq<Action>, run: seq<Action>,
                                                  r: nat, stamp: nat, s: RunStep)
    requires Reached(l, before) && r < |l.crew.runners|
    requires (l.crew.runners[r].Pausing? || l.crew.runners[r].Asking?) && l.crew.runners[r].stamp == stamp
    requires !InPause(l, stamp)
    requires AllWithin(run) && Play(l, run).Some?
    ensures var m := Play(l, run).GetOr(l);
            && !InPause(m, stamp)
            && r < |m.crew.runners|
            && (!m.crew.runners[r].Done? && DoRun(m, r, s).Some? ==> OnlyMoved(m, DoRun(m, r, s).GetOr(m), r))
  {
    hide DoRun, DoCall, DoCancel, DoSettle, DoProcess, DiskInv, Reserved, Stamped;
    RunsKeepInvariant(l, before);
    PauseNeverReturns(l, run, stamp);
    PlayKeepsAsking(l, run, r, stamp);
    var m := Play(l, run).value;
    if !m.crew.runners[r].Done? && DoRun(m, r, s).Some? {
      OutsideMovesItself(m, r, s);
    }
  }
}
