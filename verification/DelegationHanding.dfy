/** A final result is in the store before it is handed to the parent, so no crash can lose it. */
module DelegationHanding {
  import opened Wrappers
  import opened DelegationLife
  import opened DelegationInvariant
  import opened DelegationProof
  import opened DelegationReplay
  import opened DelegationTwice

  /** Writes that leave status and result of a row alone. */
  predicate Idles(w: Write) {
    w.WNotified? || w.WError? || w.WIncomplete? || w.WNoticed?
  }

  predicate QuietFrom(writes: seq<Write>, n: int) {
    forall i | 0 <= i < |writes| :: i >= n ==> Idles(writes[i])
  }

  predicate RowDelivers(row: Option<Task>, result: Option<Text>) {
    row.Some? && row.value.status.Delivering? && result.Some? && row.value.result == result
  }

  /** The write at position `n` brings this result, and nothing after it changes that. */
  predicate Brings(writes: seq<Write>, n: int, result: Option<Text>) {
    0 <= n < |writes| && writes[n].WDelivering? && result == Some(writes[n].result) && QuietFrom(writes, n + 1)
  }

  predicate OnDisk(d: Disk, result: Option<Text>) {
    RowDelivers(d.row, result) && QuietFrom(d.writes, 0)
  }

  predicate Handed(d: Disk, pc: Pc, result: Option<Text>) {
    && (pc.Handing? ==>
          (pc.ticket <= d.settled && OnDisk(d, result)) || Brings(d.writes, Position(d, pc.ticket), result))
    && (pc.Dispatching? || pc.Dispatched? ==> OnDisk(d, result))
  }

  predicate Secured(l: Life) {
    Up(l) && !l.disk.broken && IsLive(l, Delivering) ==> Handed(l.disk, Held(l.crew), l.task.value.result)
  }

  lemma DeliverSecures(l: Life, r: nat, text: Text, now: nat, used: nat)
    requires r < |l.crew.runners| && l.task.Some? && l.crew.handle == Some(r)
    ensures Secured(Deliver(l, r, text, now, used))
  {
  }

  lemma SettleKeepsSecured(l: Life, ok: bool)
    requires Shape(l) && Secured(l) && DoSettle(l, ok).Some?
    ensures Secured(DoSettle(l, ok).GetOr(l))
  {
    hide CrewInv;
  }

  lemma ChildSecures(l: Life, r: nat, s: RunStep)
    requires Owned(l.crew, Up(l), Doing(l), Over(l), PauseOf(l)) && r < |l.crew.runners|
    requires (l.crew.runners[r].Child? || l.crew.runners[r].Marking?) && DoRun(l, r, s).Some?
    ensures Secured(DoRun(l, r, s).GetOr(l))
  {
    if s.Finish? || s.Rescue? {
      var pc := l.crew.runners[r];
      var used := if s.Rescue? then l.task.value.used else if pc.Marking? then pc.used else Used(l, pc, s.exhausted);
      assert DoRun(l, r, s) == Some(Deliver(l, r, s.text, s.now, used));
      DeliverSecures(l, r, s.text, s.now, used);
    }
  }

  lemma PauserKeepsSecured(l: Life, r: nat, s: RunStep)
    requires Owned(l.crew, Up(l), Doing(l), Over(l), PauseOf(l)) && Secured(l) && r < |l.crew.runners|
    requires l.crew.runners[r].Pausing? && DoRun(l, r, s).Some?
    ensures Secured(DoRun(l, r, s).GetOr(l))
  {
    hide Apply;
  }

  lemma GoKeepsSecured(l: Life, r: nat, pc: Pc)
    requires Secured(l) && r < |l.crew.runners| && l.crew.runners[r].Asking? && (pc.Asking? || pc.Asked? || pc.Done?)
    ensures Secured(Go(l, r, pc))
  {
  }

  lemma AskerKeepsSecured(l: Life, r: nat, s: RunStep)
    requires Secured(l) && r < |l.crew.runners| && l.crew.runners[r].Asking? && DoRun(l, r, s).Some?
    ensures Secured(DoRun(l, r, s).GetOr(l))
  {
    hide Apply;
    var pc := l.crew.runners[r];
    if s.Raise? {
      GoKeepsSecured(l, r, Done);
    } else if s.Fail? && pc.attempt < DISPATCH_ATTEMPTS && !s.last {
      GoKeepsSecured(l, r, Asking(pc.stamp, pc.attempt + 1));
    } else if !InPause(l, pc.stamp) {
      GoKeepsSecured(l, r, Asked(0));
    } else {
      assert Is(DoRun(l, r, s).value, AwaitingInput);
    }
  }

  lemma StarterSecures(l: Life, r: nat, s: RunStep)
    requires Owned(l.crew, Up(l), Doing(l), Over(l), PauseOf(l)) && r < |l.crew.runners|
    requires (l.crew.runners[r].Waiting? || l.crew.runners[r].Starting?) && DoRun(l, r, s).Some?
    ensures Secured(DoRun(l, r, s).GetOr(l))
  {
    hide AtChild, AtPausing, AtAsking, AtDispatching;
  }

  lemma DispatcherKeepsSecured(l: Life, r: nat, s: RunStep)
    requires Owned(l.crew, Up(l), Doing(l), Over(l), PauseOf(l)) && Secured(l) && r < |l.crew.runners|
    requires HandingOver(l.crew.runners[r]) && DoRun(l, r, s).Some?
    ensures Secured(DoRun(l, r, s).GetOr(l))
  {
    hide Apply;
  }

  lemma CloserKeepsSecured(l: Life, r: nat, s: RunStep)
    requires Owned(l.crew, Up(l), Doing(l), Over(l), PauseOf(l)) && Secured(l) && r < |l.crew.runners|
    requires (l.crew.runners[r].Closing? || l.crew.runners[r].Asked? || l.crew.runners[r].Done?) && DoRun(l, r, s).Some?
    ensures Secured(DoRun(l, r, s).GetOr(l))
  {
    hide AtChild, AtPausing, AtAsking, AtDispatching, DiskInv, Owned, Placed;
  }

  lemma RunKeepsSecured(l: Life, r: nat, s: RunStep)
    requires Owned(l.crew, Up(l), Doing(l), Over(l), PauseOf(l)) && Secured(l) && DoRun(l, r, s).Some?
    ensures Secured(DoRun(l, r, s).GetOr(l))
  {
    var pc := l.crew.runners[r];
    if pc.Child? || pc.Marking? {
      ChildSecures(l, r, s);
    } else if pc.Waiting? || pc.Starting? {
      StarterSecures(l, r, s);
    } else if pc.Pausing? {
      PauserKeepsSecured(l, r, s);
    } else if pc.Asking? {
      AskerKeepsSecured(l, r, s);
    } else if HandingOver(pc) {
      DispatcherKeepsSecured(l, r, s);
    } else {
      CloserKeepsSecured(l, r, s);
    }
  }

  lemma CallKeepsSecured(l: Life, c: nat, s: CallStep)
    requires Secured(l) && DoCall(l, c, s).Some?
    ensures Secured(DoCall(l, c, s).GetOr(l))
  {
  }

  lemma CancelKeepsSecured(l: Life, now: nat)
    requires Secured(l) && DoCancel(l, now).Some?
    ensures Secured(DoCancel(l, now).GetOr(l))
  {
    if Is(l, Delivering) {
      assert DoCancel(l, now) == Some(l);
    } else {
      assert !Is(DoCancel(l, now).value, Delivering);
    }
  }

  lemma ProcessKeepsSecured(l: Life, s: ProcessStep)
    requires Secured(l) && DoProcess(l, s).Some?
    ensures Secured(DoProcess(l, s).GetOr(l))
  {
  }

  lemma ActorKeepsSecured(l: Life, a: Action)
    requires CrewInv(l) && Secured(l) && Do(l, a).Some?
    requires a.Enqueues? || a.Consumes? || a.ColdDismisses? || a.Resumes?
    ensures Secured(Do(l, a).GetOr(l))
  {
    hide DoRun, DoCall, DoCancel, DoSettle, DoProcess, DiskInv, Reserved, Stamped;
  }

  lemma StepKeepsSecured(l: Life, a: Action)
    requires CrewInv(l) && Secured(l) && Do(l, a).Some?
    ensures Secured(Do(l, a).GetOr(l))
  {
    hide DoRun, DoCall, DoCancel, DoSettle, DoProcess, DiskInv, Reserved, Stamped;
    match a
    case Runs(r, s) => RunKeepsSecured(l, r, s);
    case Calls(c, s) => CallKeepsSecured(l, c, s);
    case Cancels(now) => CancelKeepsSecured(l, now);
    case Settles(ok) => SettleKeepsSecured(l, ok);
    case Process(s) => ProcessKeepsSecured(l, s);
    case _ => ActorKeepsSecured(l, a);
  }

  lemma {:induction false} PlayKeepsSecured(l: Life, run: seq<Action>)
    requires Inv(l) && Secured(l) && Play(l, run).Some?
    ensures Secured(Play(l, run).GetOr(l))
    decreases |run|
  {
    hide Do, CrewInv, DiskInv;
    if run != [] {
      StepKeepsSecured(l, run[0]);
      Keeps(l, run[0]);
      PlayKeepsSecured(Do(l, run[0]).value, run[1..]);
    }
  }

  lemma DispatchIsSecured(l: Life, r: nat)
    requires Owned(l.crew, Up(l), Doing(l), Over(l), PauseOf(l)) && Secured(l) && !l.disk.broken
    requires r < |l.crew.runners| && (l.crew.runners[r].Dispatching? || l.crew.runners[r].Dispatched?)
    ensures l.task.Some? && RowDelivers(l.disk.row, l.task.value.result)
  {
  }

  /**
   In every reachable state whose store has not failed the task: while its result is being dispatched,
   or was, the row holds that result and says that it is being delivered.
   */
  lemma {:induction false} ResultPrecedesDispatch(l: Life, run: seq<Action>, r: nat)
    requires Reached(l, run) && !l.disk.broken && r < |l.crew.runners|
    requires l.crew.runners[r].Dispatching? || l.crew.runners[r].Dispatched?
    ensures l.task.Some? && RowDelivers(l.disk.row, l.task.value.result)
  {
    hide Do, DiskInv;
    RunsKeepInvariant(l, run);
    UnbornIsKept();
    PlayKeepsSecured(UNBORN, run);
    DispatchIsSecured(l, r);
  }

  /**
   A crash in the middle of a dispatch, and a start that succeeds: the parent finds the task with its
   result, as a delivery that may or may not have reached it.
   */
  lemma {:induction false} CrashKeepsResult(l: Life, run: seq<Action>, r: nat, pruned: bool, now: nat, used: nat)
    requires Reached(l, run) && !l.disk.broken && r < |l.crew.runners|
    requires l.crew.runners[r].Dispatching? || l.crew.runners[r].Dispatched?
    ensures l.task.Some?
    ensures var m := DoRestart(Remains(l), true, pruned, true, now, used, None);
            IsLive(m, DeliveryFailed) && m.task.value.result == l.task.value.result && !m.task.value.notified
  {
    hide Do;
    ResultPrecedesDispatch(l, run, r);
  }
}
