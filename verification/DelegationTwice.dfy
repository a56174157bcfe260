/** When exactly can a parent receive two final results of one delegation? */
module DelegationTwice {
  import opened Wrappers
  import opened DelegationLife
  import opened DelegationInvariant
  import opened DelegationProof
  import opened DelegationReplay

  // ---------------------------------------------------------------------------
  // No step reads the history
  // ---------------------------------------------------------------------------

  function With(l: Life, t: Tally): Life {
    l.(tally := t)
  }

  /** Two histories grew by the same deliveries and the same losses. */
  predicate Grew(t: Tally, t': Tally, u: Tally, u': Tally) {
    t'.delivered - t.delivered == u'.delivered - u.delivered && t'.lost - t.lost == u'.lost - u.lost
  }

  /** The same step on the same life with another history. */
  predicate Alike(l: Life, o: Option<Life>, t: Tally, p: Option<Life>) {
    && (o.Some? <==> p.Some?)
    && (o.Some? ==> p.value == With(o.value, p.value.tally) && Grew(l.tally, o.value.tally, t, p.value.tally))
  }

  lemma {:induction false} ChildIgnoresTally(l: Life, t: Tally, r: nat, pc: Pc, s: RunStep)
    requires r < |l.crew.runners| && l.task.Some? && pc.Child?
    ensures Alike(l, AtChild(l, r, pc, s), t, AtChild(With(l, t), r, pc, s))
  {
    hide Apply;
  }

  lemma {:induction false} PauserIgnoresTally(l: Life, t: Tally, r: nat, pc: Pc, s: RunStep)
    requires r < |l.crew.runners| && l.task.Some? && pc.Pausing?
    ensures Alike(l, AtPausing(l, r, pc, s), t, AtPausing(With(l, t), r, pc, s))
  {
  }

  lemma {:induction false} AskedIgnoresTally(l: Life, t: Tally, r: nat, pc: Pc)
    requires r < |l.crew.runners| && l.task.Some? && pc.Asking?
    ensures Alike(l, AtAsking(l, r, pc, Succeed), t, AtAsking(With(l, t), r, pc, Succeed))
  {
    if InPause(l, pc.stamp) {
      var told := l.task.value.(notified := true);
      assert AtAsking(With(l, t), r, pc, Succeed) == Some(With(Annotated(l, r, told, WNotified), t));
    } else {
      assert AtAsking(With(l, t), r, pc, Succeed) == Some(With(Go(l, r, Asked(0)), t));
    }
  }

  lemma {:induction false} UnaskedIgnoresTally(l: Life, t: Tally, r: nat, pc: Pc, last: bool, error: Text)
    requires r < |l.crew.runners| && l.task.Some? && pc.Asking?
    ensures Alike(l, AtAsking(l, r, pc, Fail(last, error)), t, AtAsking(With(l, t), r, pc, Fail(last, error)))
  {
    hide Apply;
    if pc.attempt < DISPATCH_ATTEMPTS && !last {
      assert AtAsking(With(l, t), r, pc, Fail(last, error)) == Some(With(Go(l, r, Asking(pc.stamp, pc.attempt + 1)),
             t));
    } else if InPause(l, pc.stamp) {
      var told := l.task.value.(error := Some(error));
      assert AtAsking(With(l, t), r, pc, Fail(last, error)) == Some(With(Annotated(l, r, told, WError(error)), t));
    }
  }

  lemma {:induction false} AskerIgnoresTally(l: Life, t: Tally, r: nat, pc: Pc, s: RunStep)
    requires r < |l.crew.runners| && l.task.Some? && pc.Asking?
    ensures Alike(l, AtAsking(l, r, pc, s), t, AtAsking(With(l, t), r, pc, s))
  {
    if s.Succeed? {
      AskedIgnoresTally(l, t, r, pc);
    } else if s.Fail? {
      UnaskedIgnoresTally(l, t, r, pc, s.last, s.error);
    }
  }

  lemma {:induction false} DispatcherIgnoresTally(l: Life, t: Tally, r: nat, pc: Pc, s: RunStep)
    requires r < |l.crew.runners| && l.task.Some?
    ensures pc.Marking? ==> Alike(l, AtMarking(l, r, pc, s), t, AtMarking(With(l, t), r, pc, s))
    ensures pc.Dispatching? ==> Alike(l, AtDispatching(l, r, pc, s), t, AtDispatching(With(l, t), r, pc, s))
    ensures Alike(l, AtDispatched(l, r, s), t, AtDispatched(With(l, t), r, s))
  {
    hide Apply;
  }

  lemma {:induction false} WaiterIgnoresTally(l: Life, t: Tally, r: nat, s: RunStep)
    requires r < |l.crew.runners| && l.task.Some? && Up(l)
    requires l.crew.runners[r].Waiting? || l.crew.runners[r].Starting?
    ensures Alike(l, DoRun(l, r, s), t, DoRun(With(l, t), r, s))
  {
    hide Apply;
  }

  lemma {:induction false} MoverIgnoresTally(l: Life, t: Tally, r: nat, s: RunStep)
    requires r < |l.crew.runners| && l.task.Some? && Up(l)
    requires var pc := l.crew.runners[r]; pc.Asked? || pc.Handing? || pc.Closing? || pc.Done?
    ensures Alike(l, DoRun(l, r, s), t, DoRun(With(l, t), r, s))
  {
    hide AtChild, AtPausing, AtAsking, AtDispatching;
  }

  lemma {:induction false} ActiveIgnoresTally(l: Life, t: Tally, r: nat, s: RunStep)
    requires r < |l.crew.runners| && l.task.Some? && Up(l)
    requires var pc := l.crew.runners[r];
             pc.Child? || pc.Pausing? || pc.Asking? || pc.Marking? || pc.Dispatching? || pc.Dispatched?
    ensures Alike(l, DoRun(l, r, s), t, DoRun(With(l, t), r, s))
  {
    hide AtChild, AtPausing, AtAsking, AtDispatching;
    var pc := l.crew.runners[r];
    match pc
    case Child(_, _, _, _, _) => ChildIgnoresTally(l, t, r, pc, s);
    case Pausing(_, _) => PauserIgnoresTally(l, t, r, pc, s);
    case Asking(_, _) => AskerIgnoresTally(l, t, r, pc, s);
    case Marking(_, _) => DispatcherIgnoresTally(l, t, r, pc, s);
    case Dispatching(_) => DispatcherIgnoresTally(l, t, r, pc, s);
    case Dispatched => DispatcherIgnoresTally(l, t, r, pc, s);
  }

  lemma {:induction false} RunIgnoresTally(l: Life, t: Tally, r: nat, s: RunStep)
    ensures Alike(l, DoRun(l, r, s), t, DoRun(With(l, t), r, s))
  {
    hide AtChild, AtPausing, AtAsking, AtDispatching;
    if r < |l.crew.runners| && l.task.Some? && Up(l) {
      var pc := l.crew.runners[r];
      if pc.Waiting? || pc.Starting? {
        WaiterIgnoresTally(l, t, r, s);
      } else if pc.Asked? || pc.Handing? || pc.Closing? || pc.Done? {
        MoverIgnoresTally(l, t, r, s);
      } else {
        ActiveIgnoresTally(l, t, r, s);
      }
    }
  }

  lemma {:induction false} RequeueIgnoresTally(l: Life, t: Tally, c: nat, stamp: nat, text: Text)
    requires c < |l.desk.calls| && l.task.Some?
    ensures Alike(l, Some(Requeue(l, c, stamp, text)), t, Some(Requeue(With(l, t), c, stamp, text)))
  {
  }

  lemma {:induction false} ReopeningIgnoresTally(l: Life, t: Tally, c: nat, call: Call, s: CallStep)
    requires c < |l.desk.calls| && call.Reopening?
    ensures Alike(l, AtReopening(l, c, call, s), t, AtReopening(With(l, t), c, call, s))
  {
    hide Apply;
    if AtReopening(l, c, call, s).Some? && s.Reopened? && IsLive(l, AwaitingInput) && !l.mode.Stopped? {
      RequeueIgnoresTally(l, t, c, call.stamp, call.answer);
      assert AtReopening(l, c, call, s) == Some(Requeue(l, c, call.stamp, call.answer));
    }
  }

  lemma {:induction false} RequeueingIgnoresTally(l: Life, t: Tally, c: nat, call: Call)
    requires c < |l.desk.calls| && call.Requeueing?
    ensures Alike(l, AtRequeueing(l, c, call), t, AtRequeueing(With(l, t), c, call))
  {
    hide Apply;
  }

  lemma {:induction false} CallIgnoresTally(l: Life, t: Tally, c: nat, s: CallStep)
    ensures Alike(l, DoCall(l, c, s), t, DoCall(With(l, t), c, s))
  {
    hide Apply;
    if c < |l.desk.calls| && Open(l) {
      if l.desk.calls[c].Reopening? {
        ReopeningIgnoresTally(l, t, c, l.desk.calls[c], s);
      } else if l.desk.calls[c].Requeueing? {
        RequeueingIgnoresTally(l, t, c, l.desk.calls[c]);
      }
    }
  }

  lemma {:induction false} CutIgnoresTally(l: Life, t: Tally, now: nat)
    requires IsLive(l, Queued) || IsLive(l, Running)
    ensures Alike(l, DoCancel(l, now), t, DoCancel(With(l, t), now))
  {
  }

  lemma {:induction false} PauseIgnoresTally(l: Life, t: Tally, now: nat)
    requires IsLive(l, AwaitingInput)
    ensures Alike(l, DoCancel(l, now), t, DoCancel(With(l, t), now))
  {
  }

  lemma {:induction false} DismissIgnoresTally(l: Life, t: Tally, now: nat)
    requires !IsLive(l, Queued) && !IsLive(l, Running) && !IsLive(l, AwaitingInput)
    ensures Alike(l, DoCancel(l, now), t, DoCancel(With(l, t), now))
  {
  }

  lemma {:induction false} CancelIgnoresTally(l: Life, t: Tally, now: nat)
    ensures Alike(l, DoCancel(l, now), t, DoCancel(With(l, t), now))
  {
    if IsLive(l, Queued) || IsLive(l, Running) {
      CutIgnoresTally(l, t, now);
    } else if IsLive(l, AwaitingInput) {
      PauseIgnoresTally(l, t, now);
    } else {
      DismissIgnoresTally(l, t, now);
    }
  }

  lemma {:induction false} ResumeIgnoresTally(l: Life, t: Tally, text: Text, refused: bool)
    ensures Alike(l, DoResume(l, text, refused), t, DoResume(With(l, t), text, refused))
  {
    assert RejectsResume(l, refused) == RejectsResume(With(l, t), refused);
  }

  lemma {:induction false} SettleIgnoresTally(l: Life, t: Tally, ok: bool)
    ensures Alike(l, DoSettle(l, ok), t, DoSettle(With(l, t), ok))
  {
  }

  lemma {:induction false} ProcessIgnoresTally(l: Life, t: Tally, s: ProcessStep)
    ensures Alike(l, DoProcess(l, s), t, DoProcess(With(l, t), s))
  {
  }

  lemma {:induction false} StepIgnoresTally(l: Life, t: Tally, a: Action)
    ensures Alike(l, Do(l, a), t, Do(With(l, t), a))
  {
    hide DoRun, DoCall, DoCancel, DoSettle, DoProcess;
    match a
    case Enqueues(_) =>
    case Consumes =>
    case Runs(r, s) => RunIgnoresTally(l, t, r, s);
    case Cancels(now) => CancelIgnoresTally(l, t, now);
    case ColdDismisses =>
    case Resumes(text, refused) => ResumeIgnoresTally(l, t, text, refused);
    case Calls(c, s) => CallIgnoresTally(l, t, c, s);
    case Settles(ok) => SettleIgnoresTally(l, t, ok);
    case Process(s) => ProcessIgnoresTally(l, t, s);
  }

  lemma {:induction false} RunIgnoresHistory(l: Life, t: Tally, run: seq<Action>)
    ensures Alike(l, Play(l, run), t, Play(With(l, t), run))
    decreases |run|
  {
    hide Do;
    if run != [] {
      StepIgnoresTally(l, t, run[0]);
      if Do(l, run[0]).Some? {
        RunIgnoresHistory(Do(l, run[0]).value, Do(With(l, t), run[0]).value.tally, run[1..]);
      }
    }
  }

  // ---------------------------------------------------------------------------
  // Without a pause left behind, one more result at most
  // ---------------------------------------------------------------------------

  /** A phase that can still deliver, while the store keeps the pause it resumed and no requeue is on its way. */
  predicate LeftBehind(l: Life) {
    && !NoPauseOnDisk(l.disk) && NoRequeuePending(l.disk.writes)
    && MayDeliver(Up(l), l.creating, Doing(l), Held(l.crew)) && !Is(l, AwaitingInput)
  }

  lemma {:induction false} InvIgnoresTally(l: Life, t: Tally)
    requires Inv(l) && l.born && !LeftBehind(l)
    requires t.delivered == 1 && t.lost == 1
    ensures Inv(With(l, t))
  {
    hide Stamped, Questioned;
  }

  lemma {:induction false} InvBounds(l: Life)
    requires Inv(l)
    ensures l.tally.delivered <= 1 + l.tally.lost
    ensures !l.born ==> l.tally == Tally(0, 0, 0, 0)
  {
  }

  lemma {:induction false} OneMoreAtMost(l: Life, run: seq<Action>)
    requires Inv(l) && !LeftBehind(l)
    requires Play(l, run).Some? && Play(l, run).GetOr(l).tally.lost == l.tally.lost
    ensures Play(l, run).GetOr(l).tally.delivered <= l.tally.delivered + 1
  {
    hide Do, DiskInv, Reserved, Stamped;
    InvBounds(l);
    if l.born {
      var t := Tally(1, 1, l.tally.passes, l.tally.pauses);
      InvIgnoresTally(l, t);
      RunIgnoresHistory(l, t, run);
      PlayKeeps(With(l, t), run);
      InvBounds(Play(With(l, t), run).value);
    } else {
      PlayKeeps(l, run);
      InvBounds(Play(l, run).value);
    }
  }

  /** Only a requeue that does not reach the store leaves a pause behind. */
  lemma {:induction false} OnlyLossLeavesBehind(l: Life, a: Action)
    requires Inv(l) && !LeftBehind(l) && Do(l, a).Some? && LeftBehind(Do(l, a).GetOr(l))
    ensures Do(l, a).GetOr(l).tally.lost > l.tally.lost
  {
    hide Do, DiskInv, Reserved, Stamped;
    var m := Do(l, a).value;
    if l.born && m.tally.lost <= l.tally.lost {
      var t := Tally(1, 1, l.tally.passes, l.tally.pauses);
      InvIgnoresTally(l, t);
      StepIgnoresTally(l, t, a);
      Keeps(With(l, t), a);
      StepIgnoresTally(l, Tally(0, 0, 0, 0), a);
      LeftBehindCounts(Do(With(l, t), a).value);
    } else if !l.born {
      NothingLeftAtBirth(l, a);
    }
  }

  lemma {:induction false} LeftBehindCounts(l: Life)
    requires Inv(l) && LeftBehind(l)
    ensures l.tally.delivered + 1 <= l.tally.lost
  {
  }

  lemma {:induction false} NothingLeftAtBirth(l: Life, a: Action)
    requires Inv(l) && !l.born && Do(l, a).Some?
    ensures !LeftBehind(Do(l, a).GetOr(l))
  {
  }

  // ---------------------------------------------------------------------------
  // With a pause left behind, two more
  // ---------------------------------------------------------------------------

  /** Some continuation delivers `more` further results, loses no requeue and works `extra` more passes. */
  predicate Aims(run: seq<Action>, l: Life, more: int, extra: int) {
    && Play(l, run).Some?
    && Play(l, run).value.tally.delivered == l.tally.delivered + more
    && Play(l, run).value.tally.lost == l.tally.lost
    && Play(l, run).value.max == l.max
    && Play(l, run).value.tally.passes >= l.tally.passes + extra
  }

  ghost predicate CanDeliver(l: Life, more: int, extra: int) {
    exists run :: Aims(run, l, more, extra)
  }

  /** One step, then the rest. */
  lemma {:induction false} StepsFirst(l: Life, a: Action, more: int, extra: int)
    requires Do(l, a).Some? && Do(l, a).GetOr(l).tally.lost == l.tally.lost && Do(l, a).GetOr(l).max == l.max
    requires Do(l, a).GetOr(l).tally.delivered == l.tally.delivered && Do(l, a).GetOr(l).tally.passes >= l.tally.passes
    requires CanDeliver(Do(l, a).GetOr(l), more, extra)
    ensures CanDeliver(l, more, extra + Do(l, a).GetOr(l).tally.passes - l.tally.passes)
  {
    hide Do;
    var run :| Aims(run, Do(l, a).value, more, extra);
    assert ([a] + run)[0] == a && ([a] + run)[1..] == run;
    assert Aims([a] + run, l, more, extra + Do(l, a).value.tally.passes - l.tally.passes);
  }

  lemma {:induction false} DeliversFirst(l: Life, a: Action, more: int, extra: int)
    requires Do(l, a).Some? && Do(l, a).GetOr(l).tally.lost == l.tally.lost && Do(l, a).GetOr(l).max == l.max
    requires Do(l, a).GetOr(l).tally.delivered == l.tally.delivered + 1
    requires Do(l, a).GetOr(l).tally.passes == l.tally.passes
    requires CanDeliver(Do(l, a).GetOr(l), more, extra)
    ensures CanDeliver(l, more + 1, extra)
  {
    hide Do;
    var run :| Aims(run, Do(l, a).value, more, extra);
    assert ([a] + run)[0] == a && ([a] + run)[1..] == run;
    assert Aims([a] + run, l, more + 1, extra);
  }

  lemma {:induction false} NothingMore(l: Life)
    ensures CanDeliver(l, 0, 0)
  {
    hide Do;
    assert Aims([], l, 0, 0);
  }

  lemma {:induction false} FewerPasses(l: Life, more: int, extra: int, fewer: int)
    requires CanDeliver(l, more, extra) && fewer <= extra
    ensures CanDeliver(l, more, fewer)
  {
    hide Do;
    var run :| Aims(run, l, more, extra);
    assert Aims(run, l, more, fewer);
  }

  lemma {:induction false} PlayJoins(l: Life, run: seq<Action>, more: seq<Action>)
    requires Play(l, run).Some?
    ensures Play(l, run + more) == Play(Play(l, run).GetOr(l), more)
    decreases |run|
  {
    hide Do;
    if run == [] {
      assert run + more == more;
    } else {
      assert (run + more)[1..] == run[1..] + more;
      PlayJoins(Do(l, run[0]).value, run[1..], more);
    }
  }

  /** Several steps, then the rest. */
  lemma {:induction false} RunsFirst(l: Life, run: seq<Action>, m: Life, more: int, extra: int)
    requires Play(l, run) == Some(m) && m.tally.lost == l.tally.lost && m.max == l.max
    requires m.tally.delivered == l.tally.delivered && m.tally.passes >= l.tally.passes
    requires CanDeliver(m, more, extra)
    ensures CanDeliver(l, more, extra + m.tally.passes - l.tally.passes)
  {
    hide Do;
    var rest :| Aims(rest, m, more, extra);
    PlayJoins(l, run, rest);
    assert Aims(run + rest, l, more, extra + m.tally.passes - l.tally.passes);
  }

  // A child at work.

  predicate Talks(l: Life, r: nat) {
    Up(l) && l.task.Some? && r < |l.crew.runners| && l.crew.runners[r].Child? && !Silent(l.crew.runners[r].talk)
  }

  /** Passes that the runner can still make. */
  function PassesLeft(pc: Pc): nat {
    if pc.Child? && !Silent(pc.talk) && pc.passes <= pc.budget then pc.budget - pc.passes else 0
  }

  /** Only the child at `r` did anything, and what it did is passes. */
  predicate OnlyWorked(l: Life, m: Life, r: nat) {
    && r < |l.crew.runners| && r < |m.crew.runners| && m.crew.runners[r].Child?
    && m == l.(crew := Move(l.crew, r, m.crew.runners[r]), disk := l.disk.(script := m.disk.script),
               tally := l.tally.(passes := m.tally.passes))
  }

  lemma {:induction false} WorkAddsUp(l: Life, a: Action, rest: seq<Action>, m: Life, n: Life, r: nat)
    requires Do(l, a) == Some(m) && Play(m, rest) == Some(n) && OnlyWorked(l, m, r) && OnlyWorked(m, n, r)
    ensures Play(l, [a] + rest) == Some(n) && OnlyWorked(l, n, r)
  {
    hide Do;
    assert ([a] + rest)[1..] == rest;
  }

  /** One message of the child. */
  lemma {:induction false} Speaks(l: Life, r: nat, s: RunStep) returns (m: Life)
    requires Talks(l, r) && (s.Note? || s.Pass? || s.Close?) && AtChild(l, r, l.crew.runners[r], s).Some?
    ensures Do(l, Runs(r, s)) == Some(m) && AtChild(l, r, l.crew.runners[r], s) == Some(m) && OnlyWorked(l, m, r)
  {
    hide DoPause, Deliver;
    m := AtChild(l, r, l.crew.runners[r], s).value;
  }

  /** All the passes that are left, none of them stored. */
  lemma {:induction false} WorksOut(l: Life, r: nat) returns (run: seq<Action>, m: Life)
    requires Talks(l, r)
    ensures Play(l, run) == Some(m) && OnlyWorked(l, m, r) && m.disk == l.disk
    ensures m.tally.passes == l.tally.passes + PassesLeft(l.crew.runners[r])
    decreases PassesLeft(l.crew.runners[r]), !l.crew.runners[r].talk.Owed?
  {
    hide Do, DoPause, Deliver;
    var pc := l.crew.runners[r];
    if PassesLeft(pc) == 0 {
      run, m := [], l;
    } else {
      var s := if pc.talk.Owed? then Pass(false, false, false) else Note(false, false, false);
      var n := Speaks(l, r, s);
      run, m := WorksOut(n, r);
      WorkAddsUp(l, Runs(r, s), run, n, m, r);
      run := [Runs(r, s)] + run;
    }
  }

  /** The last word of a child that stores everything: a final reply, or a closing message. */
  function FinalWord(pc: Pc): RunStep
    requires pc.Child?
  {
    if pc.passes < pc.budget then Pass(true, false, true) else Close(true, false)
  }

  // The second life: a single runner, a single call, a store that works.

  predicate Alone(l: Life, pc: Pc) {
    && l.mode.Live? && l.live && l.task.Some? && !l.disk.broken && l.disk.row.Some?
    && l.crew.runners == [pc]
    && |l.desk.calls| == 1 && l.desk.calls[0].Returned?
  }

  lemma {:induction false} DispatchSecond(l: Life)
    requires Alone(l, Dispatching(1))
    ensures CanDeliver(l, 1, 0)
  {
    NothingMore(Do(l, Runs(0, Succeed)).value);
    DeliversFirst(l, Runs(0, Succeed), 0, 0);
  }

  lemma {:induction false} HandSecond(l: Life, ticket: nat)
    requires Alone(l, Handing(ticket)) && |l.disk.writes| == 1 && ticket == l.disk.settled + 1
    requires !l.disk.writes[0].WQueued?
    ensures CanDeliver(l, 1, 0)
  {
    var m := Do(l, Settles(true)).value;
    DispatchSecond(Do(m, Runs(0, Proceed)).value);
    StepsFirst(m, Runs(0, Proceed), 1, 0);
    StepsFirst(l, Settles(true), 1, 0);
  }

  lemma {:induction false} RescueSecond(l: Life, pre: nat, passes: nat, budget: nat, talk: Talk)
    requires Alone(l, Child(pre, passes, budget, true, talk)) && l.disk.writes == []
    ensures CanDeliver(l, 1, 0)
  {
    HandSecond(Do(l, Runs(0, Rescue([], 0))).value, l.disk.settled + 1);
    StepsFirst(l, Runs(0, Rescue([], 0)), 1, 0);
  }

  /** What a resumed phase is worth: a result after one pass, or all the passes that are left. */
  predicate Worth(left: int, more: int, extra: int) {
    left > 0 && if more == 0 then extra == left else more == 1 && extra == 1
  }

  lemma {:induction false} ReplySecond(l: Life, pre: nat, budget: nat)
    requires Alone(l, Child(pre, 0, budget, true, Owed)) && l.disk.writes == [] && budget > 0
    ensures CanDeliver(l, 1, 1)
  {
    hide Do;
    var m := Speaks(l, 0, Pass(true, false, true));
    RescueSecond(m, pre, 1, budget, Final);
    StepsFirst(l, Runs(0, Pass(true, false, true)), 1, 0);
  }

  lemma {:induction false} ChildSecond(l: Life, pre: nat, budget: nat, more: int, extra: int)
    requires Alone(l, Child(pre, 0, budget, true, Unsaid)) && l.disk.writes == [] && Worth(budget, more, extra)
    ensures CanDeliver(l, more, extra)
  {
    hide Do;
    if more == 0 {
      var run, m := WorksOut(l, 0);
      NothingMore(m);
      RunsFirst(l, run, m, 0, 0);
    } else {
      var m := Speaks(l, 0, Note(true, false, false));
      ReplySecond(m, pre, budget);
      StepsFirst(l, Runs(0, Note(true, false, false)), 1, 1);
    }
  }

  /** An answer waits for the phase, and budget is left. */
  predicate HasAnswer(l: Life) {
    l.desk.answer.Some? && l.task.Some? && l.task.value.used < l.max
  }

  lemma {:induction false} StartSecond(l: Life, ticket: nat, more: int, extra: int)
    requires Alone(l, Starting(ticket)) && |l.disk.writes| == 1 && ticket == l.disk.settled + 1 && HasAnswer(l)
    requires !l.disk.writes[0].WQueued?
    requires Worth(l.max - l.task.value.used, more, extra)
    ensures CanDeliver(l, more, extra)
  {
    var m := Do(l, Settles(true)).value;
    ChildSecond(Do(m, Runs(0, Proceed)).value, l.desk.answer.value.pre, l.max - l.task.value.used, more, extra);
    StepsFirst(m, Runs(0, Proceed), more, extra);
    StepsFirst(l, Settles(true), more, extra);
  }

  lemma {:induction false} RunSecond(l: Life, more: int, extra: int)
    requires Alone(l, Waiting) && l.disk.writes == [] && HasAnswer(l)
    requires Worth(l.max - l.task.value.used, more, extra)
    ensures CanDeliver(l, more, extra)
  {
    StartSecond(Do(l, Runs(0, Proceed)).value, l.disk.settled + 1, more, extra);
    StepsFirst(l, Runs(0, Proceed), more, extra);
  }

  /** No runner yet; the only call is `c`. */
  predicate Resuming(l: Life, c: Call) {
    && l.mode.Live? && l.live && HasTask(l) && !l.disk.broken && l.disk.row.Some?
    && l.crew == NO_CREW && l.entries == 0 && l.desk.calls == [c] && l.desk.reservation == Some(0)
  }

  predicate HasTask(l: Life) {
    l.task.Some? && l.task.value.used < l.max
  }

  lemma {:induction false} WinSecond(l: Life, stamp: nat, ticket: nat, more: int, extra: int)
    requires Resuming(l, Requeueing(stamp, ticket)) && l.desk.answer.Some? && Is(l, Queued)
    requires l.disk.writes == [] && ticket <= l.disk.settled
    requires Worth(l.max - l.task.value.used, more, extra)
    ensures CanDeliver(l, more, extra)
  {
    var m := Do(l, Calls(0, Written)).value;
    RunSecond(Do(m, Consumes).value, more, extra);
    StepsFirst(m, Consumes, more, extra);
    StepsFirst(l, Calls(0, Written), more, extra);
  }

  lemma {:induction false} WriteSecond(l: Life, stamp: nat, ticket: nat, more: int, extra: int)
    requires Resuming(l, Requeueing(stamp, ticket)) && l.desk.answer.Some? && Is(l, Queued)
    requires |l.disk.writes| == 1 && ticket == l.disk.settled + 1
    requires Worth(l.max - l.task.value.used, more, extra)
    ensures CanDeliver(l, more, extra)
  {
    WinSecond(Do(l, Settles(true)).value, stamp, ticket, more, extra);
    StepsFirst(l, Settles(true), more, extra);
  }

  lemma {:induction false} RequeueSecond(l: Life, stamp: nat, more: int, extra: int)
    requires Resuming(l, Reopening(stamp, [])) && Is(l, AwaitingInput) && l.disk.writes == []
    requires Sound(l.disk.script)
    requires Worth(l.max - l.task.value.used, more, extra)
    ensures CanDeliver(l, more, extra)
  {
    WriteSecond(Do(l, Calls(0, Reopened)).value, stamp, l.disk.settled + 1, more, extra);
    StepsFirst(l, Calls(0, Reopened), more, extra);
  }

  /** The row holds a pause that a resume would accept. */
  predicate Resumable(row: Option<Task>, max: nat) {
    RowAwaits(row) && !row.value.incomplete && row.value.used < max
  }

  lemma {:induction false} RestartSecond(l: Life, more: int, extra: int)
    requires l == Remains(l) && Resumable(l.disk.row, l.max) && Sound(l.disk.script)
    requires Worth(l.max - l.disk.row.value.used, more, extra)
    ensures CanDeliver(l, more, extra)
  {
    var wake := Process(Restart(true, false, true, 0, 0, None));
    var m := Do(l, wake).value;
    var n := Do(m, Resumes([], false)).value;
    RequeueSecond(n, n.desk.calls[0].stamp, more, extra);
    StepsFirst(m, Resumes([], false), more, extra);
    StepsFirst(l, wake, more, extra);
  }

  /**
   Crash, restart, resume again: a pause on disk whose transcript can be reopened is worth one more
   result, or all the passes that it left.
   */
  lemma {:induction false} PauseOnDiskDelivers(l: Life, more: int, extra: int)
    requires Resumable(l.disk.row, l.max) && Sound(l.disk.script)
    requires Worth(l.max - l.disk.row.value.used, more, extra)
    ensures CanDeliver(l, more, extra)
  {
    RestartSecond(Remains(l), more, extra);
    StepsFirst(l, Process(Crash), more, extra);
  }

  // The first life: any runners and calls, a store that lost the requeue.

  predicate Lost(l: Life) {
    && l.mode.Live? && l.disk.broken && l.disk.writes == [] && l.live && l.task.Some?
    && TicketsIssued(l.crew, l.desk, l.disk)
    && Resumable(l.disk.row, l.max)
  }

  predicate Ripe(l: Life) {
    Lost(l) && Sound(l.disk.script)
  }

  lemma {:induction false} DispatchFirst(l: Life, r: nat)
    requires Ripe(l) && r < |l.crew.runners| && l.crew.runners[r].Dispatching?
    ensures CanDeliver(l, 2, 1)
  {
    PauseOnDiskDelivers(Do(l, Runs(r, Succeed)).value, 1, 1);
    DeliversFirst(l, Runs(r, Succeed), 1, 1);
  }

  lemma {:induction false} HandFirst(l: Life, r: nat)
    requires Ripe(l) && r < |l.crew.runners| && l.crew.runners[r].Handing?
    ensures CanDeliver(l, 2, 1)
  {
    DispatchFirst(Do(l, Runs(r, Proceed)).value, r);
    StepsFirst(l, Runs(r, Proceed), 2, 1);
  }

  lemma {:induction false} RescueFirst(l: Life, r: nat)
    requires Ripe(l) && r < |l.crew.runners| && (l.crew.runners[r].Child? || l.crew.runners[r].Marking?)
    ensures CanDeliver(l, 2, 1)
  {
    HandFirst(Do(l, Runs(r, Rescue([], 0))).value, r);
    StepsFirst(l, Runs(r, Rescue([], 0)), 2, 1);
  }

  lemma {:induction false} StartFirst(l: Life, r: nat)
    requires Ripe(l) && r < |l.crew.runners| && l.crew.runners[r].Starting?
    ensures CanDeliver(l, 2, 1)
  {
    RescueFirst(Do(l, Runs(r, Proceed)).value, r);
    StepsFirst(l, Runs(r, Proceed), 2, 1);
  }

  lemma {:induction false} RunFirst(l: Life, r: nat)
    requires Ripe(l) && r < |l.crew.runners| && l.crew.runners[r].Waiting?
    ensures CanDeliver(l, 2, 1)
  {
    hide DoCall, DoCancel, DoSettle, DoProcess;
    StartFirst(Do(l, Runs(r, Proceed)).value, r);
    StepsFirst(l, Runs(r, Proceed), 2, 1);
  }

  lemma {:induction false} ConsumeFirst(l: Life)
    requires Ripe(l) && l.entries > 0
    ensures CanDeliver(l, 2, 1)
  {
    hide DoRun, DoCall, DoCancel, DoSettle, DoProcess;
    RunFirst(Do(l, Consumes).value, |l.crew.runners|);
    StepsFirst(l, Consumes, 2, 1);
  }

  lemma {:induction false} WinFirst(l: Life, c: nat)
    requires Ripe(l) && c < |l.desk.calls| && l.desk.calls[c].Requeueing? && Is(l, Queued)
    ensures CanDeliver(l, 2, 1)
  {
    ConsumeFirst(Do(l, Calls(c, Written)).value);
    StepsFirst(l, Calls(c, Written), 2, 1);
  }

  /** The child still has something to say: its last word ends the transcript again. */
  lemma {:induction false} EndFirst(l: Life, r: nat)
    requires Lost(l) && Talks(l, r) && l.crew.runners[r].whole && l.crew.runners[r].talk.Owed? && !l.disk.script.cut
    ensures CanDeliver(l, 2, 1)
  {
    hide Do;
    var s := FinalWord(l.crew.runners[r]);
    var m := Speaks(l, r, s);
    RescueFirst(m, r);
    StepsFirst(l, Runs(r, s), 2, 1);
    FewerPasses(l, 2, 1 + m.tally.passes - l.tally.passes, 1);
  }

  lemma {:induction false} TalkFirst(l: Life, r: nat)
    requires Lost(l) && Talks(l, r) && l.crew.runners[r].whole && !l.disk.script.cut
    ensures CanDeliver(l, 2, 1)
  {
    hide Do;
    if l.crew.runners[r].talk.Owed? {
      EndFirst(l, r);
    } else {
      var m := Speaks(l, r, Note(true, false, false));
      EndFirst(m, r);
      StepsFirst(l, Runs(r, Note(true, false, false)), 2, 1);
    }
  }

  lemma {:induction false} LeftBehindIsLost(l: Life)
    requires Inv(l) && Rev(l) && l.mode.Live? && l.disk.writes == [] && LeftBehind(l)
    ensures Lost(l)
    ensures IsLive(l, Queued) || IsLive(l, Running) || (IsLive(l, Delivering) && !Held(l.crew).Dispatched?)
  {
  }

  lemma {:induction false} TwoMorePossible(l: Life)
    requires Inv(l) && Rev(l) && l.mode.Live? && l.disk.writes == [] && LeftBehind(l) && Reopenable(l)
    ensures CanDeliver(l, 2, 1)
  {
    hide Do, DiskInv, Reserved, Stamped;
    LeftBehindIsLost(l);
    if !l.disk.script.ending.Replied? {
      TalkFirst(l, l.crew.handle.value);
    } else if l.entries > 0 {
      ConsumeFirst(l);
    } else if IsLive(l, Queued) {
      if RequeueTicket(l.desk).Some? {
        WinFirst(l, l.desk.reservation.value);
      } else {
        RunFirst(l, l.crew.handle.value);
      }
    } else {
      var r := l.crew.handle.value;
      match l.crew.runners[r]
      case Starting(_) => StartFirst(l, r);
      case Child(_, _, _, _, _) => RescueFirst(l, r);
      case Marking(_, _) => RescueFirst(l, r);
      case Handing(_) => HandFirst(l, r);
      case Dispatching(_) => DispatchFirst(l, r);
    }
  }

  // ---------------------------------------------------------------------------
  // With a transcript that cannot be reopened, one more result at most
  // ---------------------------------------------------------------------------

  /** The stored transcript can be reopened, or the child under way has yet to say its last word in it. */
  predicate Reopenable(l: Life) {
    && !l.disk.script.cut
    && (l.disk.script.ending.Replied?
        || (Held(l.crew).Child? && Held(l.crew).whole && !Silent(Held(l.crew).talk)))
  }

  /** No phase under way could pause, which would store the transcript in full. */
  predicate Sealed(l: Life) {
    l.disk.broken || (!l.creating && !(Up(l) && (Doing(l) == Some(Queued) || Doing(l) == Some(Running))))
  }

  predicate Hopeless(l: Life) {
    l.born && !Reopenable(l) && Sealed(l)
  }

  /** Results that this process may still deliver without reopening the transcript. */
  function Chances(l: Life): nat {
    if Up(l) && (Doing(l) == Some(Queued) || Doing(l) == Some(Running)
                 || (Doing(l) == Some(AwaitingInput) && Held(l.crew).Pausing?)
                 || (Doing(l) == Some(Delivering) && !Held(l.crew).Dispatched?)) then 1 else 0
  }

  predicate Dwindles(l: Life, m: Life) {
    Hopeless(m) && m.tally.delivered + Chances(m) <= l.tally.delivered + Chances(l)
  }

  lemma {:induction false} ChildDwindles(l: Life, r: nat, s: RunStep)
    requires CrewInv(l) && Hopeless(l) && r < |l.crew.runners| && l.crew.runners[r].Child? && DoRun(l, r, s).Some?
    ensures Dwindles(l, DoRun(l, r, s).GetOr(l))
  {
  }

  lemma {:induction false} StarterDwindles(l: Life, r: nat, s: RunStep)
    requires CrewInv(l) && Rev(l) && Hopeless(l) && r < |l.crew.runners| && DoRun(l, r, s).Some?
    requires l.crew.runners[r].Waiting? || l.crew.runners[r].Starting?
    ensures Dwindles(l, DoRun(l, r, s).GetOr(l))
  {
  }

  lemma {:induction false} PauserDwindles(l: Life, r: nat, s: RunStep)
    requires Owned(l.crew, Up(l), Doing(l), Over(l), PauseOf(l)) && Hopeless(l)
    requires r < |l.crew.runners| && l.crew.runners[r].Pausing? && DoRun(l, r, s).Some?
    ensures Dwindles(l, DoRun(l, r, s).GetOr(l))
  {
  }

  lemma {:induction false} AskedDwindles(l: Life, r: nat)
    requires Hopeless(l) && r < |l.crew.runners| && l.crew.runners[r].Asking? && DoRun(l, r, Succeed).Some?
    ensures Dwindles(l, DoRun(l, r, Succeed).GetOr(l))
  {
  }

  lemma {:induction false} UnaskedDwindles(l: Life, r: nat, last: bool, error: Text)
    requires Hopeless(l) && r < |l.crew.runners| && l.crew.runners[r].Asking? && DoRun(l, r, Fail(last, error)).Some?
    ensures Dwindles(l, DoRun(l, r, Fail(last, error)).GetOr(l))
  {
    hide CrewInv;
    var pc := l.crew.runners[r];
    if pc.attempt < DISPATCH_ATTEMPTS && !last {
      assert DoRun(l, r, Fail(last, error)) == Some(Go(l, r, Asking(pc.stamp, pc.attempt + 1)));
    } else if InPause(l, pc.stamp) {
      var told := l.task.value.(error := Some(error));
      assert DoRun(l, r, Fail(last, error)) == Some(Annotated(l, r, told, WError(error)));
    }
  }

  lemma {:induction false} AskerDwindles(l: Life, r: nat, s: RunStep)
    requires Hopeless(l) && r < |l.crew.runners| && l.crew.runners[r].Asking? && DoRun(l, r, s).Some?
    ensures Dwindles(l, DoRun(l, r, s).GetOr(l))
  {
    match s
    case Succeed => AskedDwindles(l, r);
    case Fail(last, error) => UnaskedDwindles(l, r, last, error);
    case Raise(_) =>
  }

  lemma {:induction false} DispatcherDwindles(l: Life, r: nat, s: RunStep)
    requires CrewInv(l) && Hopeless(l) && r < |l.crew.runners| && DoRun(l, r, s).Some?
    requires l.crew.runners[r].Marking? || l.crew.runners[r].Dispatching? || l.crew.runners[r].Dispatched?
    ensures Dwindles(l, DoRun(l, r, s).GetOr(l))
  {
  }

  lemma {:induction false} MoverDwindles(l: Life, r: nat, s: RunStep)
    requires CrewInv(l) && Hopeless(l) && r < |l.crew.runners| && DoRun(l, r, s).Some?
    requires var pc := l.crew.runners[r]; pc.Asked? || pc.Handing? || pc.Closing? || pc.Done?
    ensures Dwindles(l, DoRun(l, r, s).GetOr(l))
  {
    hide AtChild, AtPausing, AtAsking, AtDispatching, CrewInv;
  }

  lemma {:induction false} RunDwindles(l: Life, r: nat, s: RunStep)
    requires CrewInv(l) && Rev(l) && Hopeless(l) && DoRun(l, r, s).Some?
    ensures Dwindles(l, DoRun(l, r, s).GetOr(l))
  {
    var pc := l.crew.runners[r];
    if pc.Child? {
      ChildDwindles(l, r, s);
    } else if pc.Waiting? || pc.Starting? {
      StarterDwindles(l, r, s);
    } else if pc.Pausing? {
      PauserDwindles(l, r, s);
    } else if pc.Asking? {
      AskerDwindles(l, r, s);
    } else if pc.Marking? || pc.Dispatching? || pc.Dispatched? {
      DispatcherDwindles(l, r, s);
    } else {
      MoverDwindles(l, r, s);
    }
  }

  lemma {:induction false} CallDwindles(l: Life, c: nat, s: CallStep)
    requires CrewInv(l) && Hopeless(l) && DoCall(l, c, s).Some?
    ensures Dwindles(l, DoCall(l, c, s).GetOr(l))
  {
  }

  lemma {:induction false} CancelDwindles(l: Life, now: nat)
    requires CrewInv(l) && Hopeless(l) && DoCancel(l, now).Some?
    ensures Dwindles(l, DoCancel(l, now).GetOr(l))
  {
    hide DiskInv, Stamped, Questioned, Reserved, Placed;
  }

  lemma {:induction false} ProcessDwindles(l: Life, s: ProcessStep)
    requires CrewInv(l) && Hopeless(l) && DoProcess(l, s).Some?
    ensures Dwindles(l, DoProcess(l, s).GetOr(l))
  {
    hide DiskInv, Stamped, Questioned, Reserved, Placed;
  }

  lemma {:induction false} ConsumerDwindles(l: Life)
    requires CrewInv(l) && Hopeless(l) && DoConsume(l).Some?
    ensures Dwindles(l, DoConsume(l).GetOr(l))
  {
  }

  lemma {:induction false} SettleDwindles(l: Life, ok: bool)
    requires Hopeless(l) && DoSettle(l, ok).Some?
    ensures Dwindles(l, DoSettle(l, ok).GetOr(l))
  {
  }

  lemma {:induction false} ResumeDwindles(l: Life, text: Text, refused: bool)
    requires Hopeless(l) && DoResume(l, text, refused).Some?
    ensures Dwindles(l, DoResume(l, text, refused).GetOr(l))
  {
  }

  /** The row of a hopeless task was made long ago. */
  lemma {:induction false} NothingEnqueued(l: Life, s: EnqueueStep)
    requires Shape(l) && Hopeless(l)
    ensures DoEnqueue(l, s).None?
  {
  }

  lemma {:induction false} StepDwindles(l: Life, a: Action)
    requires CrewInv(l) && Rev(l) && Hopeless(l) && Do(l, a).Some?
    ensures Dwindles(l, Do(l, a).GetOr(l))
  {
    hide DoRun, DoCall, DoCancel, DoSettle, DoProcess, DiskInv, Reserved, Stamped;
    match a
    case Runs(r, s) => RunDwindles(l, r, s);
    case Calls(c, s) => CallDwindles(l, c, s);
    case Cancels(now) => CancelDwindles(l, now);
    case Process(s) => ProcessDwindles(l, s);
    case Consumes => ConsumerDwindles(l);
    case Settles(ok) => SettleDwindles(l, ok);
    case Resumes(text, refused) => ResumeDwindles(l, text, refused);
    case Enqueues(s) => NothingEnqueued(l, s);
    case ColdDismisses =>
  }

  /** Whatever follows, lost requeues included. */
  lemma {:induction false} HopelessDeliversOnce(l: Life, run: seq<Action>)
    requires Inv(l) && Rev(l) && Hopeless(l) && Play(l, run).Some?
    ensures Dwindles(l, Play(l, run).GetOr(l))
    decreases |run|
  {
    hide Do, DiskInv, Reserved, Stamped;
    if run != [] {
      StepDwindles(l, run[0]);
      Keeps(l, run[0]);
      KeepsRev(l, run[0]);
      HopelessDeliversOnce(Do(l, run[0]).value, run[1..]);
    }
  }

  // ---------------------------------------------------------------------------
  // The exact condition
  // ---------------------------------------------------------------------------

  lemma {:induction false} TwoMoreMeansReopenable(l: Life)
    requires Inv(l) && Rev(l) && CanDeliver(l, 2, 0) && l.disk.writes == []
    ensures LeftBehind(l) && Reopenable(l)
  {
    hide Do, DiskInv, Reserved, Stamped;
    var more :| Aims(more, l, 2, 0);
    if !LeftBehind(l) {
      OneMoreAtMost(l, more);
    } else if !Reopenable(l) {
      HopelessDeliversOnce(l, more);
    }
  }

  lemma {:induction false} RunsKeepRev(l: Life, run: seq<Action>)
    requires Reached(l, run)
    ensures Inv(l) && Rev(l)
  {
    hide Do, CrewInv, DiskInv;
    UnbornIsSafe();
    PlayKeeps(UNBORN, run);
    PlayKeepsRev(UNBORN, run);
  }

  lemma {:induction false} UnbornIsSafe()
    ensures Inv(UNBORN) && Rev(UNBORN)
  {
  }

  /**
   In every reachable state whose store is idle: two more final results can reach the parent without
   another lost requeue exactly when a phase is under way, its pause is still on disk and the stored
   transcript can still be reopened.
   */
  lemma {:induction false} TwoResultsExactly(l: Life, run: seq<Action>)
    requires Reached(l, run) && l.mode.Live? && l.disk.writes == []
    ensures CanDeliver(l, 2, 0) <==> LeftBehind(l) && Reopenable(l)
  {
    hide Do, DiskInv, Reserved, Stamped;
    RunsKeepRev(l, run);
    if LeftBehind(l) && Reopenable(l) {
      TwoMorePossible(l);
      FewerPasses(l, 2, 1, 0);
    } else if CanDeliver(l, 2, 0) {
      TwoMoreMeansReopenable(l);
    }
  }

  // ---------------------------------------------------------------------------
  // It does happen
  // ---------------------------------------------------------------------------

  ghost predicate Reachable(l: Life) {
    exists run :: Reached(l, run)
  }

  lemma {:induction false} PlayOneMore(l: Life, run: seq<Action>, a: Action)
    requires Play(l, run).Some?
    ensures Play(l, run + [a]) == Do(Play(l, run).GetOr(l), a)
    decreases |run|
  {
    hide Do;
    if run == [] {
      assert Play(l, [a]) == Do(l, a);
    } else {
      assert (run + [a])[1..] == run[1..] + [a];
      PlayOneMore(Do(l, run[0]).value, run[1..], a);
    }
  }

  lemma {:induction false} Reaches(l: Life, a: Action)
    requires Reachable(l) && Do(l, a).Some?
    ensures Reachable(Do(l, a).GetOr(l))
  {
    var run :| Reached(l, run);
    PlayOneMore(UNBORN, run, a);
    assert Reached(Do(l, a).value, run + [a]);
  }

  const RUNNING := Task(Running, None, None, true, None, 0, false, None)
  const ASKING := Task(AwaitingInput, Some([]), None, false, Some(0), 1, false, Some([]))
  const ASKING_ROW := Task(AwaitingInput, Some([]), None, false, Some(0), 1, false, None)
  const REQUEUED := Task(Queued, None, None, true, None, 1, false, None)
  const RERUNNING := Task(Running, None, None, true, None, 1, false, None)

  const REGISTERED :=
    Life(Live, true, 2, 0, false, Some(FRESH_TASK), true, 1, false, NO_CREW, NO_DESK,
         Disk(false, [], 0, Some(FRESH_TASK), NO_SCRIPT), Tally(0, 0, 0, 0))

  const TOLD := Script(0, false, Awaited)
  const ONE_REPLY := Script(1, false, Replied)
  const TWO_REPLIES := Script(2, false, Replied)

  const FIRST_PHASE :=
    REGISTERED.(task := Some(RUNNING), entries := 0, crew := Crew([Child(0, 0, 2, true, Owed)], Some(0), {}),
                disk := Disk(false, [], 1, Some(RUNNING), TOLD))

  const PAUSING :=
    FIRST_PHASE.(task := Some(ASKING), clock := 1, crew := Crew([Pausing(0, 2)], Some(0), {}),
                 disk := Disk(false, [WAwaiting([], 0, 1)], 1, Some(RUNNING), ONE_REPLY), tally := Tally(0, 0, 1, 1))

  const PAUSED :=
    FIRST_PHASE.(task := Some(ASKING), clock := 1, crew := Crew([Asking(0, 1)], Some(0), {}),
                 disk := Disk(false, [], 2, Some(ASKING_ROW), ONE_REPLY), tally := Tally(0, 0, 1, 1))

  const REQUEUING :=
    PAUSED.(task := Some(REQUEUED), crew := Crew([Asking(0, 1)], None, {0}),
            desk := Desk(Some(0), [Requeueing(0, 3)], Some(Answer(0, [], 1)), [], {}),
            disk := Disk(false, [WQueued], 2, Some(ASKING_ROW), ONE_REPLY))

  const REQUEUE_LOST :=
    PAUSED.(task := Some(REQUEUED), entries := 1, crew := Crew([Asking(0, 1)], None, {0}),
            desk := Desk(None, [Returned(0, Resumed)], Some(Answer(0, [], 1)), [], {}),
            disk := Disk(true, [], 3, Some(ASKING_ROW), ONE_REPLY), tally := Tally(0, 1, 1, 1))

  const RERUN :=
    REQUEUE_LOST.(task := Some(RERUNNING), entries := 0,
                  crew := Crew([Asking(0, 1), Child(1, 0, 1, true, Unsaid)], Some(1), {0}),
                  desk := Desk(None, [Returned(0, Resumed)], None, [0], {}))

  const SECOND_PHASE :=
    RERUN.(crew := Crew([Asking(0, 1), Child(1, 1, 1, true, Final)], Some(1), {0}),
           disk := Disk(true, [], 3, Some(ASKING_ROW), TWO_REPLIES), tally := Tally(0, 1, 2, 1))

  lemma {:induction false} RegisteredIsReachable()
    ensures Reachable(REGISTERED)
  {
    assert Reached(UNBORN, []);
    var wake := Process(Restart(false, false, false, 0, 0, None));
    Reaches(UNBORN, wake);
    var l1 := Do(UNBORN, wake).value;
    Reaches(l1, Enqueues(CreateRow(2)));
    var l2 := Do(l1, Enqueues(CreateRow(2))).value;
    Reaches(l2, Enqueues(Register));
    assert Do(l2, Enqueues(Register)).value == REGISTERED;
  }

  const BEGUN :=
    REGISTERED.(task := Some(RUNNING), entries := 0, crew := Crew([Starting(1)], Some(0), {}),
                disk := Disk(false, [], 1, Some(RUNNING), NO_SCRIPT))

  lemma {:induction false} BegunIsReachable()
    ensures Reachable(BEGUN)
  {
    RegisteredIsReachable();
    Reaches(REGISTERED, Consumes);
    var l1 := Do(REGISTERED, Consumes).value;
    Reaches(l1, Runs(0, Proceed));
    var l2 := Do(l1, Runs(0, Proceed)).value;
    Reaches(l2, Settles(true));
    assert Do(l2, Settles(true)).value == BEGUN;
  }

  lemma {:induction false} FirstPhaseIsReachable()
    ensures Reachable(FIRST_PHASE)
  {
    BegunIsReachable();
    Reaches(BEGUN, Runs(0, Proceed));
    var l1 := Do(BEGUN, Runs(0, Proceed)).value;
    Reaches(l1, Runs(0, Note(true, false, false)));
    assert Do(l1, Runs(0, Note(true, false, false))).value == FIRST_PHASE;
  }

  const REPLIED :=
    FIRST_PHASE.(crew := Crew([Child(0, 1, 2, true, Final)], Some(0), {}),
                 disk := Disk(false, [], 1, Some(RUNNING), ONE_REPLY), tally := Tally(0, 0, 1, 0))

  lemma {:induction false} RepliedIsReachable()
    ensures Reachable(REPLIED)
  {
    hide DoCall, DoProcess, DoSettle, DoCancel, DoResume, DoPause;
    FirstPhaseIsReachable();
    Reaches(FIRST_PHASE, Runs(0, Pass(true, false, true)));
    assert Do(FIRST_PHASE, Runs(0, Pass(true, false, true))).value == REPLIED;
  }

  lemma {:induction false} PausingIsReachable()
    ensures Reachable(PAUSING)
  {
    hide DoCall, DoProcess, DoSettle, DoCancel, DoResume, Voiced;
    RepliedIsReachable();
    Reaches(REPLIED, Runs(0, Pause([], [])));
    assert Do(REPLIED, Runs(0, Pause([], []))).value == PAUSING;
  }

  lemma {:induction false} PausedIsReachable()
    ensures Reachable(PAUSED)
  {
    PausingIsReachable();
    var l2 := PAUSING;
    Reaches(l2, Settles(true));
    var l3 := Do(l2, Settles(true)).value;
    Reaches(l3, Runs(0, Proceed));
    assert Do(l3, Runs(0, Proceed)).value == PAUSED;
  }

  lemma {:induction false} RequeuingIsReachable()
    ensures Reachable(REQUEUING)
  {
    PausedIsReachable();
    Reaches(PAUSED, Resumes([], false));
    var l1 := Do(PAUSED, Resumes([], false)).value;
    Reaches(l1, Calls(0, Reopened));
    assert Do(l1, Calls(0, Reopened)).value == REQUEUING;
  }

  lemma {:induction false} RequeueLostIsReachable()
    ensures Reachable(REQUEUE_LOST)
  {
    RequeuingIsReachable();
    Reaches(REQUEUING, Settles(false));
    var l1 := Do(REQUEUING, Settles(false)).value;
    Reaches(l1, Calls(0, Written));
    assert Do(l1, Calls(0, Written)).value == REQUEUE_LOST;
  }

  lemma {:induction false} RerunIsReachable()
    ensures Reachable(RERUN)
  {
    RequeueLostIsReachable();
    Reaches(REQUEUE_LOST, Consumes);
    var l1 := Do(REQUEUE_LOST, Consumes).value;
    Reaches(l1, Runs(1, Proceed));
    var l2 := Do(l1, Runs(1, Proceed)).value;
    Reaches(l2, Runs(1, Proceed));
    assert Do(l2, Runs(1, Proceed)).value == RERUN;
  }

  lemma {:induction false} SecondPhaseIsReachable()
    ensures Reachable(SECOND_PHASE)
  {
    RerunIsReachable();
    Reaches(RERUN, Runs(1, Note(true, false, false)));
    var l1 := Do(RERUN, Runs(1, Note(true, false, false))).value;
    Reaches(l1, Runs(1, Pass(true, false, true)));
    assert Do(l1, Runs(1, Pass(true, false, true))).value == SECOND_PHASE;
  }

  /** The second phase ran out of iterations: tool results are in, and a closing message is due. */
  const EXHAUSTED :=
    RERUN.(crew := Crew([Asking(0, 1), Child(1, 1, 1, true, Owed)], Some(1), {0}),
           disk := Disk(true, [], 3, Some(ASKING_ROW), Script(2, false, Awaited)), tally := Tally(0, 1, 2, 1))

  /** A child out of iterations doubles too: its closing message makes the transcript one that a resume accepts. */
  lemma {:induction false} ExhaustedDoubles()
    ensures Reachable(EXHAUSTED) && CanDeliver(EXHAUSTED, 2, 1)
  {
    RerunIsReachable();
    Reaches(RERUN, Runs(1, Note(true, false, false)));
    var l1 := Do(RERUN, Runs(1, Note(true, false, false))).value;
    Reaches(l1, Runs(1, Pass(true, false, false)));
    var l2 := Do(l1, Runs(1, Pass(true, false, false))).value;
    Reaches(l2, Runs(1, Note(true, false, false)));
    assert Do(l2, Runs(1, Note(true, false, false))).value == EXHAUSTED;
    ExhaustedCloses();
  }

  lemma {:induction false} ExhaustedCloses()
    ensures CanDeliver(EXHAUSTED, 2, 1)
  {
    hide Do;
    EndFirst(EXHAUSTED, 1);
  }

  /** Playing on from a reachable life. */
  lemma {:induction false} ReachesOn(l: Life, run: seq<Action>)
    requires Reachable(l) && Play(l, run).Some?
    ensures Reachable(Play(l, run).GetOr(l))
    decreases |run|
  {
    if run != [] {
      Reaches(l, run[0]);
      ReachesOn(Do(l, run[0]).value, run[1..]);
    }
  }

  lemma {:induction false} SecondPhaseDoubles()
    ensures CanDeliver(SECOND_PHASE, 2, 1)
  {
    hide Do;
    RescueFirst(SECOND_PHASE, 1);
  }

  /** One lost requeue: the parent receives two final results and the task works past its budget. */
  lemma {:induction false} OneLossDoubles()
    ensures exists l :: Reachable(l) && l.tally.lost == 1 && l.tally.delivered == 2 && l.tally.passes > l.max
  {
    hide Do;
    SecondPhaseIsReachable();
    SecondPhaseDoubles();
    var more :| Aims(more, SECOND_PHASE, 2, 1);
    ReachesOn(SECOND_PHASE, more);
  }
}
