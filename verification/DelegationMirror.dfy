/**
 The store mirrors the dict: once the writes under way are applied, the row of a task says what the
 dict says. The question is no column, and a notice that could not be written is only logged.
 */
module DelegationMirror {
  import opened Wrappers
  import opened DelegationLife
  import opened DelegationInvariant
  import opened DelegationProof

  /** What the row becomes when every write is applied. */
  function Settled(row: Task, writes: seq<Write>): Task
    decreases |writes|
  {
    if writes == [] then row else Settled(Apply(writes[0], row), writes[1..])
  }

  /** The same columns, but for the mark of the notice. */
  predicate Agrees(a: Task, b: Task) {
    a.(question := None, notified := false) == b.(question := None, notified := false)
  }

  lemma ApplyAgrees(w: Write, a: Task, b: Task)
    requires Agrees(a, b)
    ensures Agrees(Apply(w, a), Apply(w, b))
  {
  }

  lemma {:induction false} SettledAgrees(a: Task, b: Task, writes: seq<Write>)
    requires Agrees(a, b)
    ensures Agrees(Settled(a, writes), Settled(b, writes))
    decreases |writes|
  {
    if writes != [] {
      ApplyAgrees(writes[0], a, b);
      SettledAgrees(Apply(writes[0], a), Apply(writes[0], b), writes[1..]);
    }
  }

  lemma {:induction false} SettledPush(row: Task, writes: seq<Write>, w: Write)
    ensures Settled(row, writes + [w]) == Apply(w, Settled(row, writes))
    decreases |writes|
  {
    if writes == [] {
      assert [w][1..] == [];
    } else {
      assert (writes + [w])[1..] == writes[1..] + [w];
      SettledPush(Apply(writes[0], row), writes[1..], w);
    }
  }

  predicate Reflects(d: Disk, t: Task) {
    !d.broken ==> d.row.Some? && Agrees(Settled(d.row.value, d.writes), t)
  }

  /** A pause that only the store knows may be dismissed there; then the task is not in the dict. */
  predicate ColdOnlyAlone(l: Life) {
    (exists i | 0 <= i < |l.disk.writes| :: l.disk.writes[i].WColdDismissed?) ==> l.task.None? && !l.creating
  }

  predicate Mirrored(l: Life) {
    && (Up(l) && l.live && l.task.Some? ==> Reflects(l.disk, l.task.value))
    && ColdOnlyAlone(l)
  }

  lemma {:induction false} PushReflects(d: Disk, t: Task, w: Write)
    requires Reflects(d, t)
    ensures Reflects(Push(d, w), Apply(w, t))
  {
    if !d.broken {
      SettledPush(d.row.value, d.writes, w);
      ApplyAgrees(w, Settled(d.row.value, d.writes), t);
    }
  }

  /** A step that changes the dict and issues the write for it. */
  lemma {:induction false} WrittenMirrors(l: Life, m: Life, t: Task, w: Write)
    requires Mirrored(l) && l.task.Some? && Agrees(l.task.value, t) && !w.WColdDismissed?
    requires Up(m) ==> Up(l)
    requires m.live ==> l.live
    requires m.task.Some? && Agrees(m.task.value, Apply(w, t))
    requires m.disk.(script := l.disk.script) == Push(l.disk, w)
    ensures Mirrored(m)
  {
    if Up(m) && m.live {
      PushReflects(l.disk, t, w);
    }
  }

  /** A step that changes neither the task nor what is stored of it. */
  lemma {:induction false} SameMirrors(l: Life, m: Life)
    requires Mirrored(l) && m.task == l.task && m.live == l.live && (Up(m) ==> Up(l))
    requires m.disk.(script := l.disk.script) == l.disk && m.creating == l.creating
    ensures Mirrored(m)
  {
  }

  lemma TasksAgree(t: Task, question: Option<Text>, notified: bool)
    ensures Agrees(t, t.(question := question, notified := notified)) && Agrees(t, t)
  {
  }

  lemma NotesAreWritten(t: Task, error: Text)
    ensures t.(incomplete := true) == Apply(WIncomplete, t)
    ensures t.(notified := true) == Apply(WNotified, t)
    ensures t.(error := Some(error)) == Apply(WError(error), t)
  {
  }

  /** What the child says is in the transcript, not in the row. */
  lemma {:induction false} SpeakingMirrors(l: Life, r: nat, pc: Pc, s: RunStep)
    requires Mirrored(l) && r < |l.crew.runners| && l.task.Some? && pc.Child? && AtChild(l, r, pc, s).Some?
    requires s.Note? || s.Pass? || s.Close?
    ensures Mirrored(AtChild(l, r, pc, s).GetOr(l))
  {
    hide Mirrored, DoPause, Deliver;
    SameMirrors(l, AtChild(l, r, pc, s).value);
  }

  lemma {:induction false} ChildMirrors(l: Life, r: nat, pc: Pc, s: RunStep)
    requires Mirrored(l) && r < |l.crew.runners| && l.task.Some? && pc.Child? && AtChild(l, r, pc, s).Some?
    ensures Mirrored(AtChild(l, r, pc, s).GetOr(l))
  {
    hide Mirrored, Agrees, Apply, Voiced;
    var m, t := AtChild(l, r, pc, s).value, l.task.value;
    TasksAgree(t, None, t.notified);
    match s
    case Mark(_) =>
      NotesAreWritten(t, []);
      WrittenMirrors(l, m, t, WIncomplete);
    case Finish(text, now, exhausted) => WrittenMirrors(l, m, t, WDelivering(text, now, Used(l, pc, exhausted)));
    case Rescue(text, now) => WrittenMirrors(l, m, t, WDelivering(text, now, t.used));
    case Pause(text, question) =>
      TasksAgree(t, Some(question), t.notified);
      WrittenMirrors(l, m, t.(question := Some(question)), WAwaiting(text, l.clock, pc.pre + pc.passes));
    case _ => SpeakingMirrors(l, r, pc, s);
  }

  lemma {:induction false} PauserMirrors(l: Life, r: nat, pc: Pc, s: RunStep)
    requires Mirrored(l) && r < |l.crew.runners| && l.task.Some? && pc.Pausing? && AtPausing(l, r, pc, s).Some?
    ensures Mirrored(AtPausing(l, r, pc, s).GetOr(l))
  {
    hide Mirrored, Agrees, Apply;
    var m, t := AtPausing(l, r, pc, s).value, l.task.value;
    TasksAgree(t, None, t.notified);
    if s.Degrade? {
      WrittenMirrors(l, m, t.(question := None), WDelivering(s.text, s.now, t.used));
    } else {
      SameMirrors(l, m);
    }
  }

  lemma {:induction false} AskerMirrors(l: Life, r: nat, pc: Pc, s: RunStep)
    requires Mirrored(l) && r < |l.crew.runners| && l.task.Some? && pc.Asking? && AtAsking(l, r, pc, s).Some?
    ensures Mirrored(AtAsking(l, r, pc, s).GetOr(l))
  {
    hide Mirrored, Agrees, Apply;
    var m, t := AtAsking(l, r, pc, s).value, l.task.value;
    TasksAgree(t, None, t.notified);
    NotesAreWritten(t, if s.Fail? then s.error else []);
    if s.Succeed? && InPause(l, pc.stamp) {
      WrittenMirrors(l, m, t, WNotified);
    } else if s.Fail? && (pc.attempt >= DISPATCH_ATTEMPTS || s.last) && InPause(l, pc.stamp) {
      WrittenMirrors(l, m, t, WError(s.error));
    } else {
      SameMirrors(l, m);
    }
  }

  lemma {:induction false} DispatcherMirrors(l: Life, r: nat, s: RunStep)
    requires Mirrored(l) && DoRun(l, r, s).Some?
    requires var pc := l.crew.runners[r]; pc.Marking? || pc.Dispatching? || pc.Dispatched?
    ensures Mirrored(DoRun(l, r, s).GetOr(l))
  {
    hide Mirrored, Agrees;
    var m, t, pc := DoRun(l, r, s).value, l.task.value, l.crew.runners[r];
    TasksAgree(t, None, t.notified);
    if pc.Marking? {
      var used := if s.Finish? then pc.used else t.used;
      WrittenMirrors(l, m, t, WDelivering(s.text, s.now, used));
    } else if pc.Dispatched? {
      WrittenMirrors(l, m, t, if s.Proceed? then WDelivered else WFailed(s.error));
    } else if s.Fail? && (pc.attempt >= DISPATCH_ATTEMPTS || s.last) {
      WrittenMirrors(l, m, t, WFailed(s.error));
    } else {
      SameMirrors(l, m);
    }
  }

  lemma {:induction false} MoverMirrors(l: Life, r: nat, s: RunStep)
    requires Mirrored(l) && DoRun(l, r, s).Some?
    requires var pc := l.crew.runners[r];
             pc.Waiting? || pc.Starting? || pc.Asked? || pc.Handing? || pc.Closing? || pc.Done?
    ensures Mirrored(DoRun(l, r, s).GetOr(l))
  {
    hide Mirrored, Agrees, AtChild, AtMarking, AtPausing, AtAsking, AtDispatching, AtDispatched;
    var m, t := DoRun(l, r, s).value, l.task.value;
    TasksAgree(t, None, t.notified);
    if l.crew.runners[r].Waiting? && l.live {
      WrittenMirrors(l, m, t, WRunning);
    } else {
      SameMirrors(l, m);
    }
  }

  lemma {:induction false} RunMirrors(l: Life, r: nat, s: RunStep)
    requires Mirrored(l) && DoRun(l, r, s).Some?
    ensures Mirrored(DoRun(l, r, s).GetOr(l))
  {
    hide Mirrored, AtChild, AtMarking, AtPausing, AtAsking, AtDispatching, AtDispatched, AtWaiting, AtStarting;
    var pc := l.crew.runners[r];
    if pc.Child? {
      ChildMirrors(l, r, pc, s);
    } else if pc.Pausing? {
      PauserMirrors(l, r, pc, s);
    } else if pc.Asking? {
      AskerMirrors(l, r, pc, s);
    } else if pc.Marking? || pc.Dispatching? || pc.Dispatched? {
      DispatcherMirrors(l, r, s);
    } else {
      MoverMirrors(l, r, s);
    }
  }

  lemma {:induction false} CallMirrors(l: Life, c: nat, s: CallStep)
    requires Shape(l) && Mirrored(l) && DoCall(l, c, s).Some?
    ensures Mirrored(DoCall(l, c, s).GetOr(l))
  {
    hide Mirrored, Agrees;
    var m := DoCall(l, c, s).value;
    if l.task.Some? && l.desk.calls[c].Reopening? && IsLive(l, AwaitingInput) && !s.StoreFailed?
       && (s.FoundInconsistent? || !l.mode.Stopped?) {
      var t := l.task.value;
      TasksAgree(t, None, t.notified);
      if s.FoundInconsistent? {
        WrittenMirrors(l, m, t, WIncomplete);
      } else {
        WrittenMirrors(l, m, t.(question := None), WQueued);
      }
    } else {
      SameMirrors(l, m);
    }
  }

  lemma {:induction false} CancelMirrors(l: Life, now: nat)
    requires Mirrored(l) && DoCancel(l, now).Some?
    ensures Mirrored(DoCancel(l, now).GetOr(l))
  {
    hide Agrees;
  }

  lemma {:induction false} EnqueueMirrors(l: Life, s: EnqueueStep)
    requires Shape(l) && Mirrored(l) && DoEnqueue(l, s).Some?
    ensures Mirrored(DoEnqueue(l, s).GetOr(l))
  {
  }

  lemma {:induction false} ColdMirrors(l: Life)
    requires Mirrored(l) && DoColdDismiss(l).Some?
    ensures Mirrored(DoColdDismiss(l).GetOr(l))
  {
  }

  /** The oldest write was taken: what it brings is in the row, or the store has failed the task. */
  lemma {:induction false} SettleMirrors(l: Life, ok: bool)
    requires Mirrored(l) && DoSettle(l, ok).Some?
    ensures Mirrored(DoSettle(l, ok).GetOr(l))
  {
    hide Agrees;
    var m := DoSettle(l, ok).value;
    var w := l.disk.writes[0];
    assert forall i | 0 <= i < |m.disk.writes| :: m.disk.writes[i] == l.disk.writes[i + 1];
    if Up(l) && l.live && l.task.Some? && !m.disk.broken && !ok {
      var row := l.disk.row.value;
      assert w.WNoticed?;
      TasksAgree(row, row.question, true);
      AgreesBack(row, Apply(w, row), l.disk.writes[1..], l.task.value);
    }
  }

  lemma {:induction false} AgreesBack(a: Task, b: Task, writes: seq<Write>, t: Task)
    requires Agrees(a, b) && Agrees(Settled(b, writes), t)
    ensures Agrees(Settled(a, writes), t)
  {
    SettledAgrees(a, b, writes);
  }

  lemma {:induction false} ProcessMirrors(l: Life, s: ProcessStep)
    requires Shape(l) && Mirrored(l) && DoProcess(l, s).Some?
    ensures Mirrored(DoProcess(l, s).GetOr(l))
  {
    hide Agrees, Prunable;
    var m := DoProcess(l, s).value;
    if s.NoticeOk? && l.disk.row.Some? {
      SettledPush(l.disk.row.value, l.disk.writes, WNoticed);
      if Up(m) && m.live && !l.disk.broken {
        var t, u := l.task.value, Settled(l.disk.row.value, l.disk.writes);
        NoticeAgrees(u, t);
      }
    } else if s.Restart? && m.task.Some? {
      TasksAgree(m.disk.row.value, m.task.value.question, m.task.value.notified);
    }
  }

  lemma NoticeAgrees(u: Task, t: Task)
    requires Agrees(u, t)
    ensures Agrees(Apply(WNoticed, u), t.(notified := true))
  {
  }

  lemma {:induction false} StepMirrors(l: Life, a: Action)
    requires Shape(l) && Mirrored(l) && Do(l, a).Some?
    ensures Mirrored(Do(l, a).GetOr(l))
  {
    hide DoRun, DoCancel, DoCall, DoSettle, DoProcess, DoEnqueue, DoColdDismiss, Shape, Mirrored;
    match a
    case Enqueues(s) => EnqueueMirrors(l, s);
    case Consumes => SameMirrors(l, Do(l, a).value);
    case Runs(r, s) => RunMirrors(l, r, s);
    case Cancels(now) => CancelMirrors(l, now);
    case ColdDismisses => ColdMirrors(l);
    case Resumes(text, refused) => SameMirrors(l, Do(l, a).value);
    case Calls(c, s) => CallMirrors(l, c, s);
    case Settles(ok) => SettleMirrors(l, ok);
    case Process(s) => ProcessMirrors(l, s);
  }

  lemma {:induction false} PlayMirrors(l: Life, run: seq<Action>)
    requires Inv(l) && Mirrored(l) && Play(l, run).Some?
    ensures Mirrored(Play(l, run).GetOr(l))
    decreases |run|
  {
    hide Do, Mirrored, DiskInv;
    if run != [] {
      StepMirrors(l, run[0]);
      Keeps(l, run[0]);
      PlayMirrors(Do(l, run[0]).value, run[1..]);
    }
  }

  /**
   In every reachable state of a process that is up: once the writes under way are applied, the row says
   of a task in the dict exactly what the dict says, unless a write of it failed.
   */
  lemma {:induction false} StoreMirrorsDict(l: Life, run: seq<Action>)
    requires Reached(l, run) && Up(l) && l.live && !l.disk.broken
    ensures l.task.Some? && l.disk.row.Some? && Agrees(Settled(l.disk.row.value, l.disk.writes), l.task.value)
  {
    hide Do;
    assert Mirrored(UNBORN);
    PlayMirrors(UNBORN, run);
    RunsKeepInvariant(l, run);
  }
}
