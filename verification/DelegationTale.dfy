/**
 What a run tells, read from its actions alone: the results that runners handed over and how their
 dispatches ended, the questions that were asked, the answers that were called in. The dict and the
 store say the same.
 */
module DelegationTale {
  import opened Wrappers
  import opened DelegationLife
  import opened DelegationInvariant
  import opened DelegationProof
  import opened DelegationMirror
  import opened DelegationHanding

  /**
   The last final result that this process handed over, with the dispatches of it; the last pause and
   the pauses whose question the parent got; the texts of the calls of resume; and, over every process,
   the iterations that the delegation was created with and the final results whose dispatch succeeded.
   */
  datatype Tale = Tale(
    result: Option<Text>,
    at: nat,
    tries: nat,             // dispatches of it that failed
    last: bool,             // the last failure ruled out another try
    done: bool,             // a dispatch of it succeeded
    raised: bool,           // and then something else raised
    spent: Option<bool>,    // the child that gave it ended by itself; out of iterations, or not
    error: Option<Text>,
    pause: Option<(Text, Text)>,
    told: set<nat>,
    failed: map<nat, Text>, // pauses whose question could not be dispatched, with the error
    texts: seq<Text>,
    max: Option<nat>,
    given: seq<Text>)

  const NO_TALE := Tale(None, 0, 0, false, false, false, None, None, None, {}, map[], [], None, [])

  function Hands(t: Tale, text: Text, now: nat): Tale {
    t.(result := Some(text), at := now, tries := 0, last := false, done := false, raised := false, error := None)
  }

  function TellDispatch(t: Tale, pc: Pc, s: RunStep): Tale {
    if pc.Dispatching? && s.Succeed? then
      t.(done := true, given := if t.result.Some? then t.given + [t.result.value] else t.given)
    else if pc.Dispatching? && s.Fail? then t.(tries := t.tries + 1, last := s.last, error := Some(s.error))
    else if pc.Dispatched? && s.Raise? then t.(raised := true, error := Some(s.error))
    else if pc.Asking? && s.Succeed? then t.(told := t.told + {pc.stamp})
    else if pc.Asking? && s.Fail? && (s.last || pc.attempt >= DISPATCH_ATTEMPTS) then
      t.(failed := t.failed[pc.stamp := s.error])
    else t
  }

  function TellRun(t: Tale, pc: Pc, s: RunStep): Tale {
    match s
    case Finish(text, now, exhausted) => Hands(t, text, now).(spent := if pc.Child? then Some(exhausted) else t.spent)
    case Rescue(text, now) => Hands(t, text, now).(spent := None)
    case Degrade(text, now) => Hands(t, text, now).(spent := None)
    case Mark(exhausted) => t.(spent := Some(exhausted))
    case Pause(text, question) => t.(pause := Some((text, question)))
    case _ => TellDispatch(t, pc, s)
  }

  /** The pause that a start loaded, if the row says that its question was told. */
  function ToldAtStart(m: Life): set<nat> {
    if Is(m, AwaitingInput) && m.task.value.notified && m.task.value.finishedAt.Some?
    then {m.task.value.finishedAt.value} else {}
  }

  /** One more action, from `l` to `m`. */
  function Tell(t: Tale, l: Life, a: Action, m: Life): Tale {
    match a
    case Runs(r, s) => if r < |l.crew.runners| then TellRun(t, l.crew.runners[r], s) else t
    case Enqueues(s) => if s.Register? then t else t.(max := Some(s.max))
    case Resumes(text, _) => t.(texts := t.texts + [text])
    case Process(s) =>
      if s.Crash? then NO_TALE.(given := t.given, max := t.max)
      else if s.Restart? then t.(told := ToldAtStart(m))
      else if s.NoticeOk? && PauseOf(l).Some? then t.(told := t.told + {PauseOf(l).value})
      else t
    case _ => t
  }

  /** The tale of a run. */
  function Recount(l: Life, t: Tale, run: seq<Action>): Tale
    decreases |run|
  {
    if run == [] then t
    else
      match Do(l, run[0])
      case None => t
      case Some(m) => Recount(m, Tell(t, l, run[0], m), run[1..])
  }

  function TaleOf(run: seq<Action>): Tale {
    Recount(UNBORN, NO_TALE, run)
  }

  // ---------------------------------------------------------------------------
  // The dict tells the tale
  // ---------------------------------------------------------------------------

  /** Nothing of an earlier phase is left. */
  predicate Blank(t: Task) {
    t.result.None? && t.error.None? && t.question.None? && t.finishedAt.None? && t.notified
  }

  predicate Handled(s: Status) {
    s.Delivering? || s.DeliveryFailed? || s.Delivered? || s.Dismissed?
  }

  /** The task holds the result that was handed over. */
  predicate Holds(k: Task, t: Tale) {
    t.result.Some? && k.result == t.result && k.finishedAt == Some(t.at)
  }

  /** The delivery failed for good: a last try failed, or something raised after the dispatch. */
  predicate GaveUp(t: Tale) {
    if t.done then t.raised else t.tries > 0 && (t.last || t.tries == DISPATCH_ATTEMPTS)
  }

  predicate TaskTells(k: Task, t: Tale) {
    match k.status
    case Queued => Blank(k) && t.result.None?
    case Running => Blank(k) && t.result.None?
    case AwaitingInput =>
      t.result.None? && (t.pause.Some? ==> k.result == Some(t.pause.value.0) && k.question == Some(t.pause.value.1))
    case Delivering => Holds(k, t)
    case Delivered => Holds(k, t) && t.done && !t.raised
    case DeliveryFailed => t.result.Some? ==> Holds(k, t) && GaveUp(t) && t.error.Some? && k.error == t.error
    case Dismissed => true
    case _ => t.result.None?
  }

  predicate RunnerTells(pc: Pc, t: Tale) {
    match pc
    case Handing(_) => t.tries == 0 && !t.done && !t.raised
    case Dispatching(n) => 1 <= n <= DISPATCH_ATTEMPTS && t.tries == n - 1 && !t.done && !t.raised
    case Dispatched => t.done && !t.raised
    case _ => true
  }

  predicate Marked(pc: Pc, k: Option<Task>) {
    pc.Marking? ==> k.Some? && k.value.incomplete
  }

  predicate DictTells(l: Life, t: Tale) {
    && (l.task.Some? ==> TaskTells(l.task.value, t))
    && (l.task.None? ==> t.result.None? && t.pause.None?)
    && (t.done ==> t.result.Some? && t.result.value in t.given)
    && (forall r | 0 <= r < |l.crew.runners| ::
          RunnerTells(l.crew.runners[r], t) && Marked(l.crew.runners[r], l.task))
  }

  /** A step of a runner that hands its result over. */
  lemma HandsOver(l: Life, r: nat, k: Task, text: Text, now: nat, used: nat, t: Tale, spent: Option<bool>)
    requires DictTells(l, t) && l.task.Some? && r < |l.crew.runners|
    requires forall i | 0 <= i < |l.crew.runners| :: i != r ==> !HandingOver(l.crew.runners[i])
    requires k == l.task.value.(question := k.question)
    ensures DictTells(Transition(l, k, WDelivering(text, now, used), Move(l.crew, r, Handing(NextTicket(l.disk)))),
                      Hands(t, text, now).(spent := spent))
  {
  }

  /** A step of a runner that hands nothing over. */
  lemma MovesOn(l: Life, m: Life, r: nat, t: Tale)
    requires DictTells(l, t) && m.task == l.task && r < |l.crew.runners|
    requires |m.crew.runners| == |l.crew.runners| && m.crew.runners == l.crew.runners[r := m.crew.runners[r]]
    requires !HandingOver(m.crew.runners[r]) && !m.crew.runners[r].Marking?
    ensures DictTells(m, t)
  {
  }

  lemma PauseTells(l: Life, r: nat, pc: Pc, text: Text, question: Text, t: Tale)
    requires DictTells(l, t) && r < |l.crew.runners| && l.crew.runners[r] == pc && pc.Child? && Is(l, Running)
    requires DoPause(l, r, pc, text, question).Some?
    ensures DictTells(DoPause(l, r, pc, text, question).GetOr(l), t.(pause := Some((text, question))))
  {
  }

  lemma MarkTells(l: Life, r: nat, pc: Pc, exhausted: bool, t: Tale)
    requires DictTells(l, t) && r < |l.crew.runners| && l.crew.runners[r] == pc && pc.Child? && Is(l, Running)
    requires AtChild(l, r, pc, Mark(exhausted)).Some?
    ensures DictTells(AtChild(l, r, pc, Mark(exhausted)).GetOr(l), t.(spent := Some(exhausted)))
  {
  }

  lemma ChildTells(l: Life, r: nat, pc: Pc, s: RunStep, t: Tale)
    requires Owned(l.crew, Up(l), Doing(l), Over(l), PauseOf(l)) && DictTells(l, t)
    requires r < |l.crew.runners| && l.crew.runners[r] == pc && pc.Child? && l.task.Some? && AtChild(l, r, pc, s).Some?
    ensures DictTells(AtChild(l, r, pc, s).GetOr(l), TellRun(t, pc, s))
  {
    hide CrewInv;
    hide DoPause, TaskTells, RunnerTells, Marked, Placed;
    var m := AtChild(l, r, pc, s).value;
    match s
    case Finish(text, now, exhausted) =>
      HandsOver(l, r, l.task.value, text, now, Used(l, pc, exhausted), t, Some(exhausted));
    case Rescue(text, now) => HandsOver(l, r, l.task.value, text, now, l.task.value.used, t, None);
    case Pause(text, question) => PauseTells(l, r, pc, text, question, t);
    case Mark(exhausted) => MarkTells(l, r, pc, exhausted, t);
    case _ => MovesOn(l, m, r, t);
  }

  lemma MarkerTells(l: Life, r: nat, pc: Pc, s: RunStep, t: Tale)
    requires Owned(l.crew, Up(l), Doing(l), Over(l), PauseOf(l)) && DictTells(l, t)
    requires r < |l.crew.runners| && l.crew.runners[r] == pc && pc.Marking? && l.task.Some?
    requires AtMarking(l, r, pc, s).Some?
    ensures DictTells(AtMarking(l, r, pc, s).GetOr(l), TellRun(t, pc, s))
  {
    HandsOver(l, r, l.task.value, s.text, s.now, if s.Finish? then pc.used else l.task.value.used, t,
              if s.Finish? then t.spent else None);
  }

  lemma PauserTells(l: Life, r: nat, pc: Pc, s: RunStep, t: Tale)
    requires Owned(l.crew, Up(l), Doing(l), Over(l), PauseOf(l)) && DictTells(l, t)
    requires r < |l.crew.runners| && l.crew.runners[r] == pc && pc.Pausing? && l.task.Some?
    requires AtPausing(l, r, pc, s).Some?
    ensures DictTells(AtPausing(l, r, pc, s).GetOr(l), TellRun(t, pc, s))
  {
    if s.Degrade? {
      HandsOver(l, r, l.task.value.(question := None), s.text, s.now, l.task.value.used, t, None);
    } else {
      MovesOn(l, AtPausing(l, r, pc, s).value, r, t);
    }
  }

  lemma AskerNotes(l: Life, r: nat, k: Task, w: Write, t: Tale)
    requires DictTells(l, t) && r < |l.crew.runners| && Is(l, AwaitingInput)
    requires k == l.task.value.(notified := k.notified, error := k.error)
    ensures DictTells(Annotated(l, r, k, w), t)
  {
  }

  lemma AskerTells(l: Life, r: nat, pc: Pc, s: RunStep, t: Tale)
    requires DictTells(l, t) && r < |l.crew.runners| && l.crew.runners[r] == pc && pc.Asking? && l.task.Some?
    requires AtAsking(l, r, pc, s).Some?
    ensures DictTells(AtAsking(l, r, pc, s).GetOr(l), TellRun(t, pc, s))
  {
    hide Apply;
    var m := AtAsking(l, r, pc, s).value;
    OnlyTold(m, t, TellRun(t, pc, s));
    if InPause(l, pc.stamp) && s.Succeed? {
      AskerNotes(l, r, l.task.value.(notified := true), WNotified, t);
    } else if InPause(l, pc.stamp) && s.Fail? && (s.last || pc.attempt >= DISPATCH_ATTEMPTS) {
      AskerNotes(l, r, l.task.value.(error := Some(s.error)), WError(s.error), t);
    } else {
      MovesOn(l, m, r, t);
    }
  }

  lemma OnlyTold(l: Life, t: Tale, u: Tale)
    requires u == t.(told := u.told, failed := u.failed)
    ensures DictTells(l, t) <==> DictTells(l, u)
  {
  }

  /** Only one runner has the result in its hands. */
  predicate AloneHands(runners: seq<Pc>, r: nat) {
    forall i | 0 <= i < |runners| :: i != r ==> !HandingOver(runners[i]) && !runners[i].Marking?
  }

  lemma HandsAlone(l: Life, r: nat)
    requires Owned(l.crew, Up(l), Doing(l), Over(l), PauseOf(l)) && r < |l.crew.runners|
    requires Working(l.crew.runners[r])
    ensures AloneHands(l.crew.runners, r)
    ensures HandingOver(l.crew.runners[r]) ==> IsLive(l, Delivering)
  {
  }

  lemma SucceedTells(l: Life, r: nat, t: Tale)
    requires DictTells(l, t) && Is(l, Delivering) && r < |l.crew.runners| && AloneHands(l.crew.runners, r)
    requires l.crew.runners[r].Dispatching?
    ensures var pc := l.crew.runners[r];
            DictTells(AtDispatching(l, r, pc, Succeed).GetOr(l), TellRun(t, pc, Succeed))
  {
    assert RunnerTells(l.crew.runners[r], t);
    var given := t.given + [t.result.value];
    assert given[|t.given|] == t.result.value && t.result.value in given;
  }

  lemma FailTells(l: Life, r: nat, last: bool, error: Text, t: Tale)
    requires DictTells(l, t) && Is(l, Delivering) && r < |l.crew.runners| && AloneHands(l.crew.runners, r)
    requires l.crew.runners[r].Dispatching?
    ensures var pc := l.crew.runners[r];
            DictTells(AtDispatching(l, r, pc, Fail(last, error)).GetOr(l), TellRun(t, pc, Fail(last, error)))
  {
    assert RunnerTells(l.crew.runners[r], t);
  }

  lemma DispatchTells(l: Life, r: nat, s: RunStep, t: Tale)
    requires Owned(l.crew, Up(l), Doing(l), Over(l), PauseOf(l)) && DictTells(l, t) && DoRun(l, r, s).Some?
    requires l.crew.runners[r].Dispatching?
    ensures DictTells(DoRun(l, r, s).GetOr(l), TellRun(t, l.crew.runners[r], s))
  {
    HandsAlone(l, r);
    hide AtChild, AtMarking, AtPausing, AtAsking, AtDispatched, Owned, DictTells, TellRun, AloneHands;
    match s
    case Succeed => SucceedTells(l, r, t);
    case Fail(last, error) => FailTells(l, r, last, error, t);
  }

  lemma DispatcherTells(l: Life, r: nat, s: RunStep, t: Tale)
    requires Owned(l.crew, Up(l), Doing(l), Over(l), PauseOf(l)) && DictTells(l, t) && DoRun(l, r, s).Some?
    requires l.crew.runners[r].Dispatched? || l.crew.runners[r].Handing?
    ensures DictTells(DoRun(l, r, s).GetOr(l), TellRun(t, l.crew.runners[r], s))
  {
    hide AtChild, AtMarking, AtPausing, AtAsking, AtDispatching;
  }

  lemma MoverTells(l: Life, r: nat, s: RunStep, t: Tale)
    requires Owned(l.crew, Up(l), Doing(l), Over(l), PauseOf(l)) && DictTells(l, t) && DoRun(l, r, s).Some?
    requires var pc := l.crew.runners[r];
             pc.Waiting? || pc.Starting? || pc.Asked? || pc.Closing? || pc.Done?
    ensures DictTells(DoRun(l, r, s).GetOr(l), TellRun(t, l.crew.runners[r], s))
  {
    hide AtChild, AtMarking, AtPausing, AtAsking, AtDispatching, AtDispatched;
  }

  lemma RunTells(l: Life, r: nat, s: RunStep, t: Tale)
    requires Owned(l.crew, Up(l), Doing(l), Over(l), PauseOf(l)) && DictTells(l, t) && DoRun(l, r, s).Some?
    ensures r < |l.crew.runners| && DictTells(DoRun(l, r, s).GetOr(l), TellRun(t, l.crew.runners[r], s))
  {
    hide Owned, DictTells, AtChild, AtMarking, AtPausing, AtAsking, AtDispatching, AtDispatched, AtWaiting, AtStarting;
    hide TellRun;
    var pc := l.crew.runners[r];
    if pc.Child? {
      ChildTells(l, r, pc, s, t);
    } else if pc.Marking? {
      MarkerTells(l, r, pc, s, t);
    } else if pc.Pausing? {
      PauserTells(l, r, pc, s, t);
    } else if pc.Asking? {
      AskerTells(l, r, pc, s, t);
    } else if pc.Dispatching? {
      DispatchTells(l, r, s, t);
    } else if pc.Handing? || pc.Dispatched? {
      DispatcherTells(l, r, s, t);
    } else {
      MoverTells(l, r, s, t);
    }
  }

  lemma RequeueStartsClean(l: Life, c: nat, stamp: nat, text: Text, t: Tale)
    requires DictTells(l, t) && c < |l.desk.calls| && Is(l, AwaitingInput)
    ensures DictTells(Requeue(l, c, stamp, text), t)
  {
  }

  lemma FlagKeepsTale(l: Life, t: Tale)
    requires DictTells(l, t) && l.task.Some?
    ensures DictTells(l.(task := Some(l.task.value.(incomplete := true))), t)
  {
  }

  lemma CallTells(l: Life, c: nat, s: CallStep, t: Tale)
    requires DictTells(l, t) && DoCall(l, c, s).Some?
    ensures DictTells(DoCall(l, c, s).GetOr(l), t)
  {
    hide Requeue, TaskTells, RunnerTells, Marked;
    var call := l.desk.calls[c];
    if call.Reopening? && !s.StoreFailed? && IsLive(l, AwaitingInput) {
      if s.FoundInconsistent? {
        FlagKeepsTale(l, t);
      } else if !l.mode.Stopped? {
        RequeueStartsClean(l, c, call.stamp, call.answer, t);
      }
    }
  }

  lemma CancelTells(l: Life, now: nat, t: Tale)
    requires Shape(l) && DictTells(l, t) && DoCancel(l, now).Some?
    ensures DictTells(DoCancel(l, now).GetOr(l), t)
  {
  }

  lemma EnqueueTells(l: Life, s: EnqueueStep, t: Tale)
    requires Shape(l) && DictTells(l, t) && DoEnqueue(l, s).Some?
    ensures DictTells(DoEnqueue(l, s).GetOr(l), t)
  {
  }

  lemma ProcessTells(l: Life, s: ProcessStep, t: Tale)
    requires Shape(l) && DictTells(l, t) && DoProcess(l, s).Some?
    ensures DictTells(DoProcess(l, s).GetOr(l), Tell(t, l, Process(s), DoProcess(l, s).GetOr(l)))
  {
    hide Sweep, Prunable;
  }

  lemma StepTells(l: Life, a: Action, t: Tale)
    requires Inv(l) && DictTells(l, t) && Do(l, a).Some?
    ensures DictTells(Do(l, a).GetOr(l), Tell(t, l, a, Do(l, a).GetOr(l)))
  {
    hide DoRun, DoCall, DoCancel, DoSettle, DoProcess, DoEnqueue, DiskInv, Reserved, Stamped, Placed, TellRun;
    var m := Do(l, a).value;
    match a
    case Runs(r, s) => RunTells(l, r, s, t);
    case Calls(c, s) => CallTells(l, c, s, t);
    case Cancels(now) => CancelTells(l, now, t);
    case Enqueues(s) => EnqueueTells(l, s, t);
    case Process(s) => ProcessTells(l, s, t);
    case Settles(ok) => SettleLeaves(l, ok);
    case _ => OthersLeave(l, a);
  }

  lemma SettleLeaves(l: Life, ok: bool)
    requires DoSettle(l, ok).Some?
    ensures var m := DoSettle(l, ok).GetOr(l);
            m.task == l.task && m.crew == l.crew && m.desk == l.desk && m.clock == l.clock
  {
  }

  lemma OthersLeave(l: Life, a: Action)
    requires Do(l, a).Some? && (a.Consumes? || a.ColdDismisses? || a.Resumes?)
    ensures var m := Do(l, a).GetOr(l);
            && m.task == l.task && m.clock == l.clock
            && (m.crew.runners == l.crew.runners || m.crew.runners == l.crew.runners + [Waiting])
  {
    hide DoRun, DoCall, DoCancel, DoSettle, DoProcess;
  }

  // ---------------------------------------------------------------------------
  // The calls of resume
  // ---------------------------------------------------------------------------

  /** Each call that reopens the transcript holds its own text, and so does the answer that waits. */
  predicate DeskTells(desk: Desk, task: Option<Task>, texts: seq<Text>) {
    && |texts| == |desk.calls|
    && (forall c | 0 <= c < |desk.calls| ::
          && (desk.calls[c].Reopening? ==> desk.calls[c].answer == texts[c])
          && (desk.calls[c].Flagging? ==> task.Some? && task.value.incomplete))
    && (desk.answer.Some? ==>
          desk.answer.value.call < |texts| && desk.answer.value.text == texts[desk.answer.value.call])
  }

  /** The desk may lose its answer, and the task is not mended. */
  predicate Lessens(l: Life, m: Life) {
    && m.desk.calls == l.desk.calls && (m.desk.answer == l.desk.answer || m.desk.answer.None?)
    && (l.task.Some? && l.task.value.incomplete ==> m.task.Some? && m.task.value.incomplete)
  }

  lemma ChildLessens(l: Life, r: nat, pc: Pc, s: RunStep)
    requires r < |l.crew.runners| && l.task.Some? && pc.Child? && AtChild(l, r, pc, s).Some?
    ensures Lessens(l, AtChild(l, r, pc, s).GetOr(l))
  {
  }

  lemma PauserLessens(l: Life, r: nat, pc: Pc, s: RunStep)
    requires r < |l.crew.runners| && l.task.Some?
    ensures pc.Marking? && AtMarking(l, r, pc, s).Some? ==> Lessens(l, AtMarking(l, r, pc, s).GetOr(l))
    ensures pc.Pausing? && AtPausing(l, r, pc, s).Some? ==> Lessens(l, AtPausing(l, r, pc, s).GetOr(l))
    ensures pc.Asking? && AtAsking(l, r, pc, s).Some? ==> Lessens(l, AtAsking(l, r, pc, s).GetOr(l))
  {
  }

  lemma DispatcherLessens(l: Life, r: nat, pc: Pc, s: RunStep)
    requires r < |l.crew.runners| && l.task.Some?
    ensures pc.Dispatching? && AtDispatching(l, r, pc, s).Some? ==> Lessens(l, AtDispatching(l, r, pc, s).GetOr(l))
    ensures AtDispatched(l, r, s).Some? ==> Lessens(l, AtDispatched(l, r, s).GetOr(l))
  {
  }

  lemma RunLessens(l: Life, r: nat, s: RunStep)
    requires DoRun(l, r, s).Some?
    ensures Lessens(l, DoRun(l, r, s).GetOr(l))
  {
    hide AtChild, AtMarking, AtPausing, AtAsking, AtDispatching, AtDispatched;
    var pc := l.crew.runners[r];
    if pc.Child? {
      ChildLessens(l, r, pc, s);
    } else if pc.Marking? || pc.Pausing? || pc.Asking? {
      PauserLessens(l, r, pc, s);
    } else if pc.Dispatching? || pc.Dispatched? {
      DispatcherLessens(l, r, pc, s);
    }
  }

  lemma CancelLessens(l: Life, now: nat)
    requires DoCancel(l, now).Some?
    ensures Lessens(l, DoCancel(l, now).GetOr(l))
  {
  }

  lemma LessTells(l: Life, m: Life, texts: seq<Text>)
    requires DeskTells(l.desk, l.task, texts) && Lessens(l, m)
    ensures DeskTells(m.desk, m.task, texts)
  {
  }

  lemma ReturnTells(l: Life, c: nat, stamp: nat, outcome: Outcome, texts: seq<Text>)
    requires DeskTells(l.desk, l.task, texts) && c < |l.desk.calls|
    ensures DeskTells(Answered(l.desk, c, stamp, outcome), l.task, texts)
  {
  }

  lemma FlagTells(l: Life, c: nat, call: Call, texts: seq<Text>)
    requires DeskTells(l.desk, l.task, texts) && c < |l.desk.calls| && l.task.Some?
    requires call.Flagging? || (call.Requeueing? && l.desk.calls[c].Reopening?)
    ensures DeskTells(l.desk.(calls := l.desk.calls[c := call]), Some(l.task.value.(incomplete := true)), texts)
    ensures call.Requeueing? ==> DeskTells(l.desk.(calls := l.desk.calls[c := call]), l.task, texts)
  {
  }

  lemma RequeueTells(l: Life, c: nat, texts: seq<Text>)
    requires DeskTells(l.desk, l.task, texts) && c < |l.desk.calls| && l.task.Some? && l.desk.calls[c].Reopening?
    ensures var call := l.desk.calls[c];
            var m := Requeue(l, c, call.stamp, call.answer);
            DeskTells(m.desk, m.task, texts)
  {
    var call := l.desk.calls[c];
    FlagTells(l, c, Requeueing(call.stamp, NextTicket(l.disk)), texts);
  }

  lemma CallKeepsTexts(l: Life, c: nat, s: CallStep, texts: seq<Text>)
    requires DeskTells(l.desk, l.task, texts) && DoCall(l, c, s).Some?
    requires l.task.Some?
    ensures DeskTells(DoCall(l, c, s).GetOr(l).desk, DoCall(l, c, s).GetOr(l).task, texts)
  {
    hide DeskTells, Requeue, Answered;
    var call := l.desk.calls[c];
    forall stamp, outcome ensures DeskTells(Answered(l.desk, c, stamp, outcome), l.task, texts) {
      ReturnTells(l, c, stamp, outcome, texts);
    }
    if call.Reopening? && IsLive(l, AwaitingInput) && !s.StoreFailed? {
      if s.FoundInconsistent? {
        FlagTells(l, c, Flagging(call.stamp, NextTicket(l.disk)), texts);
      } else if !l.mode.Stopped? {
        RequeueTells(l, c, texts);
      }
    }
  }

  lemma ResumeAddsText(l: Life, text: Text, refused: bool, texts: seq<Text>)
    requires DeskTells(l.desk, l.task, texts) && DoResume(l, text, refused).Some?
    ensures var m := DoResume(l, text, refused).GetOr(l); DeskTells(m.desk, m.task, texts + [text])
  {
    var m := DoResume(l, text, refused).value;
    forall c | 0 <= c < |m.desk.calls| && m.desk.calls[c].Reopening?
      ensures m.desk.calls[c].answer == (texts + [text])[c]
    {
      if c < |l.desk.calls| {
        assert m.desk.calls[c] == l.desk.calls[c];
      }
    }
  }

  lemma ProcessKeepsTexts(l: Life, s: ProcessStep, t: Tale)
    requires Shape(l) && DeskTells(l.desk, l.task, t.texts) && DoProcess(l, s).Some?
    ensures var m := DoProcess(l, s).GetOr(l); DeskTells(m.desk, m.task, Tell(t, l, Process(s), m).texts)
  {
    hide Sweep, Prunable;
  }

  lemma EnqueueKeepsTexts(l: Life, s: EnqueueStep, texts: seq<Text>)
    requires Shape(l) && DeskTells(l.desk, l.task, texts) && DoEnqueue(l, s).Some?
    ensures DeskTells(DoEnqueue(l, s).GetOr(l).desk, DoEnqueue(l, s).GetOr(l).task, texts)
  {
  }

  lemma RunTellsNoText(t: Tale, pc: Pc, s: RunStep)
    ensures TellRun(t, pc, s).texts == t.texts
  {
  }

  lemma StepKeepsTexts(l: Life, a: Action, t: Tale)
    requires Inv(l) && DeskTells(l.desk, l.task, t.texts) && Do(l, a).Some?
    ensures var m := Do(l, a).GetOr(l); DeskTells(m.desk, m.task, Tell(t, l, a, m).texts)
  {
    hide DoRun, DoCall, DoCancel, DoResume, DoSettle, DoProcess, DoEnqueue, DiskInv, Owned, Stamped, Placed, TellRun;
    hide DeskTells, Lessens;
    var m := Do(l, a).value;
    match a
    case Runs(r, s) =>
      RunLessens(l, r, s);
      LessTells(l, m, t.texts);
      if r < |l.crew.runners| {
        RunTellsNoText(t, l.crew.runners[r], s);
      }
    case Calls(c, s) =>
      CallNeedsTask(l, c, s);
      CallKeepsTexts(l, c, s, t.texts);
    case Cancels(now) =>
      CancelLessens(l, now);
      LessTells(l, m, t.texts);
    case Resumes(text, refused) => ResumeAddsText(l, text, refused, t.texts);
    case Enqueues(s) => EnqueueKeepsTexts(l, s, t.texts);
    case Process(s) => ProcessKeepsTexts(l, s, t);
    case Settles(ok) => SettleLeaves(l, ok);
    case _ => OthersKeepDesk(l, a);
  }

  lemma OthersKeepDesk(l: Life, a: Action)
    requires Do(l, a).Some? && (a.Consumes? || a.ColdDismisses?)
    ensures Do(l, a).GetOr(l).desk == l.desk && Do(l, a).GetOr(l).task == l.task
  {
    hide DoRun, DoCall, DoCancel, DoSettle, DoProcess;
  }

  lemma CallNeedsTask(l: Life, c: nat, s: CallStep)
    requires Shape(l) && Reserved(l.desk, Up(l), l.task.Some?, Doing(l), Held(l.crew).Starting?)
    requires DoCall(l, c, s).Some?
    ensures l.task.Some?
  {
  }

  // ---------------------------------------------------------------------------
  // What the store says was delivered
  // ---------------------------------------------------------------------------

  /** The row holds a result that the parent got. */
  predicate RowGave(row: Option<Task>, given: seq<Text>) {
    row.Some? && row.value.result.Some? && row.value.result.value in given
  }

  predicate WriteGives(d: Disk, i: int, given: seq<Text>)
    requires 0 <= i < |d.writes|
  {
    d.writes[i].WDelivered? ==> RowGave(d.row, given) && forall j | 0 <= j < i :: Idles(d.writes[j])
  }

  predicate DiskTells(d: Disk, given: seq<Text>) {
    && (d.row.Some? && d.row.value.status.Delivered? ==> RowGave(d.row, given))
    && (forall i {:trigger WriteGives(d, i, given)} | 0 <= i < |d.writes| :: WriteGives(d, i, given))
  }

  lemma PushTells(d: Disk, w: Write, given: seq<Text>)
    requires DiskTells(d, given)
    requires w.WDelivered? && !d.broken ==> RowGave(d.row, given) && QuietFrom(d.writes, 0)
    ensures DiskTells(Push(d, w), given)
  {
    var e := Push(d, w);
    forall i | 0 <= i < |e.writes| ensures WriteGives(e, i, given) {
      if i < |d.writes| {
        assert WriteGives(d, i, given);
        assert forall j | 0 <= j < i :: e.writes[j] == d.writes[j];
      } else {
        assert forall j | 0 <= j < i :: e.writes[j] == d.writes[j];
      }
    }
  }

  lemma MoreGiven(d: Disk, given: seq<Text>, more: seq<Text>)
    requires DiskTells(d, given) && given <= more
    ensures DiskTells(d, more)
  {
    assert forall x | x in given :: x in more;
    forall i | 0 <= i < |d.writes| ensures WriteGives(d, i, more) {
      assert WriteGives(d, i, given);
    }
  }

  lemma SettleTells(l: Life, ok: bool, given: seq<Text>)
    requires DiskTells(l.disk, given) && DoSettle(l, ok).Some?
    ensures DiskTells(DoSettle(l, ok).GetOr(l).disk, given)
  {
    var d, e := l.disk, DoSettle(l, ok).value.disk;
    assert WriteGives(d, 0, given);
    forall i | 0 <= i < |e.writes| ensures WriteGives(e, i, given) {
      assert WriteGives(d, i + 1, given);
      assert forall j | 0 <= j < i :: e.writes[j] == d.writes[j + 1];
      assert e.writes[i].WDelivered? ==> Idles(d.writes[0]);
    }
  }

  /** The disk is as it was, or one write longer, and that write says nothing of a delivery. */
  predicate OneWrite(d: Disk, e: Disk) {
    && e.row == d.row
    && (e.writes == d.writes
        || (|e.writes| == |d.writes| + 1 && d.writes <= e.writes && !e.writes[|d.writes|].WDelivered?))
  }

  lemma OneWriteTells(d: Disk, e: Disk, given: seq<Text>)
    requires DiskTells(d, given) && OneWrite(d, e)
    ensures DiskTells(e, given)
  {
    forall i | 0 <= i < |e.writes| ensures WriteGives(e, i, given) {
      if i < |d.writes| {
        assert WriteGives(d, i, given);
        assert forall j | 0 <= j <= i :: e.writes[j] == d.writes[j];
      }
    }
  }

  lemma ChildWrites(l: Life, r: nat, pc: Pc, s: RunStep)
    requires r < |l.crew.runners| && l.task.Some? && pc.Child? && AtChild(l, r, pc, s).Some?
    ensures var m := AtChild(l, r, pc, s).GetOr(l);
            OneWrite(l.disk, m.disk) && m.tally.delivered == l.tally.delivered
  {
    hide Apply;
  }

  lemma PauserWrites(l: Life, r: nat, pc: Pc, s: RunStep)
    requires r < |l.crew.runners| && l.task.Some?
    ensures pc.Marking? && AtMarking(l, r, pc, s).Some? ==>
              var m := AtMarking(l, r, pc, s).GetOr(l);
              OneWrite(l.disk, m.disk) && m.tally.delivered == l.tally.delivered
    ensures pc.Pausing? && AtPausing(l, r, pc, s).Some? ==>
              var m := AtPausing(l, r, pc, s).GetOr(l);
              OneWrite(l.disk, m.disk) && m.tally.delivered == l.tally.delivered
    ensures pc.Asking? && AtAsking(l, r, pc, s).Some? ==>
              var m := AtAsking(l, r, pc, s).GetOr(l);
              OneWrite(l.disk, m.disk) && m.tally.delivered == l.tally.delivered
  {
    hide Apply;
  }

  lemma SpeakerWrites(l: Life, r: nat, s: RunStep)
    requires DoRun(l, r, s).Some? && !HandingOver(l.crew.runners[r])
    ensures var m := DoRun(l, r, s).GetOr(l); OneWrite(l.disk, m.disk) && m.tally.delivered == l.tally.delivered
  {
    hide Apply, AtChild, AtMarking, AtPausing, AtAsking;
    var pc := l.crew.runners[r];
    if pc.Child? {
      ChildWrites(l, r, pc, s);
    } else if pc.Marking? || pc.Pausing? || pc.Asking? {
      PauserWrites(l, r, pc, s);
    }
  }

  lemma FailureWrites(l: Life, r: nat, s: RunStep)
    requires DoRun(l, r, s).Some? && HandingOver(l.crew.runners[r])
    requires !(l.crew.runners[r].Dispatched? && s.Proceed?) && !(l.crew.runners[r].Dispatching? && s.Succeed?)
    ensures var m := DoRun(l, r, s).GetOr(l); OneWrite(l.disk, m.disk) && m.tally.delivered == l.tally.delivered
  {
    hide Apply, AtChild, AtMarking, AtPausing, AtAsking;
  }

  /** What was given is what was counted. */
  predicate Gives(l: Life, t: Tale) {
    DiskTells(l.disk, t.given) && l.tally.delivered == |t.given|
  }

  lemma DeliveryGives(l: Life, r: nat, s: RunStep, t: Tale)
    requires Inv(l) && Secured(l) && DictTells(l, t) && Gives(l, t) && DoRun(l, r, s).Some?
    requires l.crew.runners[r].Dispatched? && s.Proceed?
    ensures Gives(DoRun(l, r, s).GetOr(l), t)
  {
    hide AtChild, AtMarking, AtPausing, AtAsking, AtDispatching, DiskInv, Reserved, Stamped, Placed, DiskTells;
    HandsAlone(l, r);
    assert RunnerTells(l.crew.runners[r], t) && TaskTells(l.task.value, t);
    PushTells(l.disk, WDelivered, t.given);
  }

  lemma SuccessGives(l: Life, r: nat, t: Tale)
    requires Inv(l) && DictTells(l, t) && Gives(l, t) && DoRun(l, r, Succeed).Some? && l.crew.runners[r].Dispatching?
    ensures Gives(DoRun(l, r, Succeed).GetOr(l), TellRun(t, l.crew.runners[r], Succeed))
  {
    hide AtChild, AtMarking, AtPausing, AtAsking, DiskInv, Reserved, Stamped, Placed, DiskTells;
    HandsAlone(l, r);
    assert TaskTells(l.task.value, t);
    MoreGiven(l.disk, t.given, t.given + [t.result.value]);
  }

  lemma OtherRunsGive(t: Tale, pc: Pc, s: RunStep)
    requires !(pc.Dispatching? && s.Succeed?)
    ensures TellRun(t, pc, s).given == t.given
  {
  }

  lemma RunGives(l: Life, r: nat, s: RunStep, t: Tale)
    requires Inv(l) && Secured(l) && DictTells(l, t) && Gives(l, t) && DoRun(l, r, s).Some?
    ensures r < |l.crew.runners| && Gives(DoRun(l, r, s).GetOr(l), TellRun(t, l.crew.runners[r], s))
  {
    hide Inv, Secured, DictTells, DiskTells, TellRun, AtChild, AtMarking, AtPausing, AtAsking, AtDispatching;
    hide AtDispatched, AtWaiting, AtStarting, OneWrite;
    var pc := l.crew.runners[r];
    var m := DoRun(l, r, s).value;
    if pc.Dispatching? && s.Succeed? {
      SuccessGives(l, r, t);
    } else {
      OtherRunsGive(t, pc, s);
      if pc.Dispatched? && s.Proceed? {
        DeliveryGives(l, r, s, t);
      } else if HandingOver(pc) {
        FailureWrites(l, r, s);
        OneWriteTells(l.disk, m.disk, t.given);
      } else {
        SpeakerWrites(l, r, s);
        OneWriteTells(l.disk, m.disk, t.given);
      }
    }
  }

  lemma RequeueWrites(l: Life, c: nat, stamp: nat, text: Text)
    requires c < |l.desk.calls| && l.task.Some?
    ensures var m := Requeue(l, c, stamp, text);
            OneWrite(l.disk, m.disk) && m.tally.delivered == l.tally.delivered
  {
    hide Apply;
  }

  lemma CallWrites(l: Life, c: nat, s: CallStep)
    requires DoCall(l, c, s).Some?
    ensures var m := DoCall(l, c, s).GetOr(l); OneWrite(l.disk, m.disk) && m.tally.delivered == l.tally.delivered
  {
    hide Requeue;
    var call := l.desk.calls[c];
    if call.Reopening? && !s.StoreFailed? && IsLive(l, AwaitingInput) && !s.FoundInconsistent? && !l.mode.Stopped? {
      RequeueWrites(l, c, call.stamp, call.answer);
    }
  }

  lemma CancelWrites(l: Life, now: nat)
    requires DoCancel(l, now).Some?
    ensures OneWrite(l.disk, DoCancel(l, now).GetOr(l).disk) && DoCancel(l, now).GetOr(l).tally == l.tally
  {
    hide Apply;
  }

  lemma EnqueueGives(l: Life, s: EnqueueStep, t: Tale)
    requires Shape(l) && Gives(l, t) && DoEnqueue(l, s).Some?
    ensures Gives(DoEnqueue(l, s).GetOr(l), t)
  {
  }

  lemma ProcessGives(l: Life, s: ProcessStep, t: Tale)
    requires Shape(l) && Gives(l, t) && DoProcess(l, s).Some?
    ensures var m := DoProcess(l, s).GetOr(l); Gives(m, Tell(t, l, Process(s), m))
  {
    hide Apply;
    var m := DoProcess(l, s).value;
    if s.NoticeOk? {
      OneWriteTells(l.disk, m.disk, t.given);
    }
  }

  lemma StepGives(l: Life, a: Action, t: Tale)
    requires Inv(l) && Secured(l) && DictTells(l, t) && Gives(l, t) && Do(l, a).Some?
    ensures var m := Do(l, a).GetOr(l); Gives(m, Tell(t, l, a, m))
  {
    hide DoRun, DoCall, DoCancel, DoSettle, DoProcess, DoEnqueue, DiskInv, Reserved, Stamped, Placed, Owned, TellRun;
    hide DiskTells, OneWrite, Secured, DictTells;
    var m := Do(l, a).value;
    match a
    case Runs(r, s) => RunGives(l, r, s, t);
    case Calls(c, s) =>
      CallWrites(l, c, s);
      OneWriteTells(l.disk, m.disk, t.given);
    case Cancels(now) =>
      CancelWrites(l, now);
      OneWriteTells(l.disk, m.disk, t.given);
    case Enqueues(s) => EnqueueGives(l, s, t);
    case Process(s) => ProcessGives(l, s, t);
    case Settles(ok) =>
      SettleTells(l, ok, t.given);
      SettleCounts(l, ok);
    case _ =>
      OthersWrite(l, a);
      OneWriteTells(l.disk, m.disk, t.given);
  }

  lemma SettleCounts(l: Life, ok: bool)
    requires DoSettle(l, ok).Some?
    ensures DoSettle(l, ok).GetOr(l).tally.delivered == l.tally.delivered
  {
  }

  lemma OthersWrite(l: Life, a: Action)
    requires Do(l, a).Some? && (a.Consumes? || a.ColdDismisses? || a.Resumes?)
    ensures OneWrite(l.disk, Do(l, a).GetOr(l).disk) && Do(l, a).GetOr(l).tally == l.tally
  {
  }

  // ---------------------------------------------------------------------------
  // What the parent was told of
  // ---------------------------------------------------------------------------

  /** The error of a pause is that of its question, if no try of it could be dispatched. */
  predicate Complains(k: Task, t: Tale) {
    k.finishedAt.Some? && t.pause.Some? ==>
      k.error == if k.finishedAt.value in t.failed then Some(t.failed[k.finishedAt.value]) else None
  }

  /** A pause is marked as told exactly when it was; a loaded interruption that was told is dropped. */
  predicate NotesTell(l: Life, t: Tale) {
    && (Is(l, AwaitingInput) ==>
          && (l.task.value.finishedAt.Some? ==>
                (l.task.value.notified <==> l.task.value.finishedAt.value in t.told))
          && Complains(l.task.value, t))
    && (forall p | p in t.told :: p < l.clock) && (forall p | p in t.failed :: p < l.clock)
    && (Up(l) && IsLive(l, Interrupted) ==> !l.task.value.notified)
  }

  lemma PauseNotes(l: Life, r: nat, pc: Pc, text: Text, question: Text, t: Tale)
    requires NotesTell(l, t) && r < |l.crew.runners| && l.task.Some? && pc.Child?
    requires DoPause(l, r, pc, text, question).Some?
    ensures NotesTell(DoPause(l, r, pc, text, question).GetOr(l), t.(pause := Some((text, question))))
  {
  }

  lemma MovedNotes(l: Life, r: nat, pc: Pc, t: Tale)
    requires NotesTell(l, t) && r < |l.crew.runners|
    ensures NotesTell(Go(l, r, pc), t)
  {
  }

  lemma PastNotes(l: Life, r: nat, pc: Pc, stamp: nat, error: Text, t: Tale)
    requires NotesTell(l, t) && r < |l.crew.runners| && stamp < l.clock && !InPause(l, stamp)
    ensures NotesTell(Go(l, r, pc), t.(told := t.told + {stamp}))
    ensures NotesTell(Go(l, r, pc), t.(failed := t.failed[stamp := error]))
  {
  }

  lemma ToldNotes(l: Life, r: nat, stamp: nat, t: Tale)
    requires NotesTell(l, t) && r < |l.crew.runners| && stamp < l.clock && InPause(l, stamp)
    ensures NotesTell(Annotated(l, r, l.task.value.(notified := true), WNotified), t.(told := t.told + {stamp}))
  {
    hide Push, Move;
  }

  lemma FailedNotes(l: Life, r: nat, stamp: nat, error: Text, t: Tale)
    requires NotesTell(l, t) && r < |l.crew.runners| && stamp < l.clock && InPause(l, stamp)
    ensures NotesTell(Annotated(l, r, l.task.value.(error := Some(error)), WError(error)),
                      t.(failed := t.failed[stamp := error]))
  {
    hide Push, Move;
  }

  lemma AskerNoted(l: Life, r: nat, pc: Pc, s: RunStep, t: Tale)
    requires NotesTell(l, t) && r < |l.crew.runners| && l.task.Some? && pc.Asking? && pc.stamp < l.clock
    requires AtAsking(l, r, pc, s).Some?
    ensures NotesTell(AtAsking(l, r, pc, s).GetOr(l), TellRun(t, pc, s))
  {
    hide NotesTell, Go, Annotated;
    match s
    case Succeed =>
      if InPause(l, pc.stamp) {
        ToldNotes(l, r, pc.stamp, t);
      } else {
        PastNotes(l, r, Asked(0), pc.stamp, "", t);
      }
    case Fail(last, error) =>
      if pc.attempt < DISPATCH_ATTEMPTS && !last {
        MovedNotes(l, r, Asking(pc.stamp, pc.attempt + 1), t);
      } else if InPause(l, pc.stamp) {
        FailedNotes(l, r, pc.stamp, error, t);
      } else {
        PastNotes(l, r, Asked(0), pc.stamp, error, t);
      }
    case _ => MovedNotes(l, r, Done, t);
  }

  /** The pause, if it is one, is left as it was. */
  predicate NotesStay(l: Life, m: Life) {
    && m.clock == l.clock && m.mode == l.mode && (m.live ==> l.live)
    && (m.task.Some? && (m.task.value.status.AwaitingInput? || m.task.value.status.Interrupted?) ==>
          l.task.Some? && m.task.value.status == l.task.value.status && m.task.value.error == l.task.value.error
          && m.task.value.notified == l.task.value.notified && m.task.value.finishedAt == l.task.value.finishedAt)
  }

  lemma StayNotes(l: Life, m: Life, t: Tale, u: Tale)
    requires NotesTell(l, t) && NotesStay(l, m) && u.told == t.told && u.failed == t.failed && u.pause == t.pause
    ensures NotesTell(m, u)
  {
  }

  lemma ChildStays(l: Life, r: nat, pc: Pc, s: RunStep)
    requires r < |l.crew.runners| && l.task.Some? && pc.Child? && AtChild(l, r, pc, s).Some? && !s.Pause?
    ensures NotesStay(l, AtChild(l, r, pc, s).GetOr(l))
  {
  }

  lemma PauserStays(l: Life, r: nat, pc: Pc, s: RunStep)
    requires r < |l.crew.runners| && l.task.Some?
    ensures pc.Marking? && AtMarking(l, r, pc, s).Some? ==> NotesStay(l, AtMarking(l, r, pc, s).GetOr(l))
    ensures pc.Pausing? && AtPausing(l, r, pc, s).Some? ==> NotesStay(l, AtPausing(l, r, pc, s).GetOr(l))
    ensures pc.Dispatching? && AtDispatching(l, r, pc, s).Some? ==> NotesStay(l, AtDispatching(l, r, pc, s).GetOr(l))
    ensures AtDispatched(l, r, s).Some? ==> NotesStay(l, AtDispatched(l, r, s).GetOr(l))
  {
  }

  lemma QuietTells(t: Tale, pc: Pc, s: RunStep)
    requires !pc.Asking? && !s.Pause?
    ensures var u := TellRun(t, pc, s); u.told == t.told && u.failed == t.failed && u.pause == t.pause
  {
  }

  lemma OtherNoted(l: Life, r: nat, s: RunStep, t: Tale)
    requires NotesTell(l, t) && DoRun(l, r, s).Some? && !l.crew.runners[r].Asking? && !s.Pause?
    ensures NotesTell(DoRun(l, r, s).GetOr(l), TellRun(t, l.crew.runners[r], s))
  {
    hide AtChild, AtMarking, AtPausing, AtDispatching, AtDispatched, NotesTell, TellRun;
    var pc := l.crew.runners[r];
    if pc.Child? {
      ChildStays(l, r, pc, s);
    } else if pc.Marking? || pc.Pausing? || pc.Dispatching? || pc.Dispatched? {
      PauserStays(l, r, pc, s);
    }
    QuietTells(t, pc, s);
    StayNotes(l, DoRun(l, r, s).value, t, TellRun(t, pc, s));
  }

  lemma RunNotes(l: Life, r: nat, s: RunStep, t: Tale)
    requires CrewInv(l) && NotesTell(l, t) && DoRun(l, r, s).Some?
    ensures r < |l.crew.runners| && NotesTell(DoRun(l, r, s).GetOr(l), TellRun(t, l.crew.runners[r], s))
  {
    hide AtChild, AtMarking, AtPausing, AtAsking, AtDispatching, AtDispatched, AtWaiting, AtStarting, Owned, Placed;
    hide Reserved, Stamped, NotesTell, Shape;
    var pc := l.crew.runners[r];
    if pc.Asking? {
      AskerNoted(l, r, pc, s, t);
    } else if s.Pause? {
      OnlyChildrenPause(l, r, s);
      PauseNotes(l, r, pc, s.text, s.question, t);
    } else {
      OtherNoted(l, r, s, t);
    }
  }

  lemma OnlyChildrenPause(l: Life, r: nat, s: RunStep)
    requires DoRun(l, r, s).Some? && s.Pause?
    ensures l.task.Some? && l.crew.runners[r].Child?
    ensures DoRun(l, r, s) == DoPause(l, r, l.crew.runners[r], s.text, s.question)
  {
  }

  lemma CallNotes(l: Life, c: nat, s: CallStep, t: Tale)
    requires NotesTell(l, t) && DoCall(l, c, s).Some?
    ensures NotesTell(DoCall(l, c, s).GetOr(l), t)
  {
  }

  lemma CancelNotes(l: Life, now: nat, t: Tale)
    requires NotesTell(l, t) && DoCancel(l, now).Some?
    ensures NotesTell(DoCancel(l, now).GetOr(l), t)
  {
  }

  lemma NoticeNotes(l: Life, s: ProcessStep, t: Tale)
    requires NotesTell(l, t) && DoProcess(l, s).Some? && s.NoticeOk?
    requires PauseOf(l).Some? ==> PauseOf(l).value < l.clock
    ensures var m := DoProcess(l, s).GetOr(l); NotesTell(m, Tell(t, l, Process(s), m))
  {
  }

  lemma LoadedNotes(l: Life, s: ProcessStep, t: Tale)
    requires Inv(l) && NotesTell(l, t) && DoProcess(l, s).Some? && s.Restart? && t.pause.None?
    ensures var m := DoProcess(l, s).GetOr(l); NotesTell(m, Tell(t, l, Process(s), m))
  {
    hide AccountInv, Owned, Placed, Reserved;
  }

  lemma ProcessNotes(l: Life, s: ProcessStep, t: Tale)
    requires Inv(l) && NotesTell(l, t) && DoProcess(l, s).Some? && (l.task.None? ==> t.pause.None?)
    ensures var m := DoProcess(l, s).GetOr(l); NotesTell(m, Tell(t, l, Process(s), m))
  {
    hide AccountInv, Owned, Placed, Reserved;
    if s.Restart? {
      LoadedNotes(l, s, t);
    } else if s.NoticeOk? {
      NoticeNotes(l, s, t);
    }
  }

  lemma EnqueueNotes(l: Life, s: EnqueueStep, t: Tale)
    requires Shape(l) && NotesTell(l, t) && DoEnqueue(l, s).Some?
    ensures NotesTell(DoEnqueue(l, s).GetOr(l), t)
  {
  }

  lemma StepNotes(l: Life, a: Action, t: Tale)
    requires Inv(l) && DictTells(l, t) && NotesTell(l, t) && Do(l, a).Some?
    ensures var m := Do(l, a).GetOr(l); NotesTell(m, Tell(t, l, a, m))
  {
    hide DoRun, DoCall, DoCancel, DoSettle, DoProcess, DoEnqueue, DiskInv, Reserved, Stamped, Placed, Owned, TellRun;
    hide TaskTells, RunnerTells, Marked;
    var m := Do(l, a).value;
    match a
    case Runs(r, s) => RunNotes(l, r, s, t);
    case Calls(c, s) => CallNotes(l, c, s, t);
    case Cancels(now) => CancelNotes(l, now, t);
    case Enqueues(s) => EnqueueNotes(l, s, t);
    case Process(s) => ProcessNotes(l, s, t);
    case Settles(ok) => SettleLeavesNotes(l, ok);
    case _ => OthersLeaveNotes(l, a);
  }

  lemma SettleLeavesNotes(l: Life, ok: bool)
    requires DoSettle(l, ok).Some?
    ensures var m := DoSettle(l, ok).GetOr(l);
            m.task == l.task && m.live == l.live && m.clock == l.clock && m.mode == l.mode
  {
  }

  lemma OthersLeaveNotes(l: Life, a: Action)
    requires Do(l, a).Some? && (a.Consumes? || a.ColdDismisses? || a.Resumes?)
    ensures var m := Do(l, a).GetOr(l);
            m.task == l.task && m.live == l.live && m.clock == l.clock && m.mode == l.mode
  {
    hide DoRun, DoCall, DoCancel, DoSettle, DoProcess;
  }

  // ---------------------------------------------------------------------------
  // The iterations that a result reports
  // ---------------------------------------------------------------------------

  /** All iterations, if the child ran out of them; else the passes of all phases. */
  predicate Reports(used: nat, l: Life, t: Tale) {
    t.spent.Some? ==> used == if t.spent.value then l.max else l.tally.passes
  }

  predicate Reported(s: Status) {
    s.Delivering? || s.DeliveryFailed? || s.Delivered?
  }

  predicate UseTells(l: Life, t: Tale) {
    l.tally.lost == 0 ==>
      && (forall r | 0 <= r < |l.crew.runners| ::
            l.crew.runners[r].Marking? ==> t.spent.Some? && Reports(l.crew.runners[r].used, l, t))
      && (t.result.Some? && l.task.Some? && Reported(l.task.value.status) ==> Reports(l.task.value.used, l, t))
  }

  /** A step that leaves passes, marks and reported results as they were. */
  predicate UsesLessOrSame(l: Life, m: Life) {
    && m.tally.passes == l.tally.passes && m.tally.lost >= l.tally.lost && m.max == l.max
    && (forall r | 0 <= r < |m.crew.runners| :: m.crew.runners[r].Marking? ==>
          r < |l.crew.runners| && m.crew.runners[r] == l.crew.runners[r])
    && (m.task.Some? && Reported(m.task.value.status) ==>
          l.task.Some? && Reported(l.task.value.status) && m.task.value.used == l.task.value.used)
  }

  lemma SameUseTells(l: Life, m: Life, t: Tale, u: Tale)
    requires UseTells(l, t) && UsesLessOrSame(l, m) && u.result == t.result && u.spent == t.spent
    ensures UseTells(m, u)
  {
  }

  lemma SameUse(l: Life, t: Tale, u: Tale)
    requires UseTells(l, t) && u.result == t.result && u.spent == t.spent
    ensures UseTells(l, u)
  {
  }

  /** The child's own count is that of all phases. */
  lemma ChildCounts(l: Life, r: nat)
    requires Inv(l) && Up(l) && r < |l.crew.runners| && l.crew.runners[r].Child? && l.tally.lost == 0
    ensures l.crew.runners[r].pre + l.crew.runners[r].passes == l.tally.passes
  {
    hide OrderInv, Reserved, Stamped, Placed;
  }

  lemma ChildUses(l: Life, r: nat, pc: Pc, s: RunStep, t: Tale)
    requires Inv(l) && DictTells(l, t) && UseTells(l, t) && Up(l) && r < |l.crew.runners| && l.crew.runners[r] == pc
    requires pc.Child? && l.task.Some? && AtChild(l, r, pc, s).Some?
    ensures UseTells(AtChild(l, r, pc, s).GetOr(l), TellRun(t, pc, s))
  {
    HandsAlone(l, r);
    if l.tally.lost == 0 {
      ChildCounts(l, r);
    }
    hide Inv, Owned, TaskTells, RunnerTells, Marked;
  }

  lemma MarkerUses(l: Life, r: nat, pc: Pc, s: RunStep, t: Tale)
    requires CrewInv(l) && UseTells(l, t) && r < |l.crew.runners| && l.crew.runners[r] == pc && pc.Marking?
    requires l.task.Some? && AtMarking(l, r, pc, s).Some?
    ensures UseTells(AtMarking(l, r, pc, s).GetOr(l), TellRun(t, pc, s))
  {
    HandsAlone(l, r);
    hide Owned;
  }

  lemma PauserUses(l: Life, r: nat, pc: Pc, s: RunStep, t: Tale)
    requires CrewInv(l) && UseTells(l, t) && r < |l.crew.runners| && l.crew.runners[r] == pc && pc.Pausing?
    requires l.task.Some? && AtPausing(l, r, pc, s).Some?
    ensures UseTells(AtPausing(l, r, pc, s).GetOr(l), TellRun(t, pc, s))
  {
    if s.Degrade? {
      assert InPause(l, pc.stamp);
    }
  }

  lemma AskerUses(l: Life, r: nat, pc: Pc, s: RunStep)
    requires r < |l.crew.runners| && l.task.Some? && pc.Asking? && AtAsking(l, r, pc, s).Some?
    ensures UsesLessOrSame(l, AtAsking(l, r, pc, s).GetOr(l))
  {
  }

  lemma DispatcherUses(l: Life, r: nat, pc: Pc, s: RunStep)
    requires r < |l.crew.runners| && Is(l, Delivering)
    ensures pc.Dispatching? && AtDispatching(l, r, pc, s).Some? ==>
            UsesLessOrSame(l, AtDispatching(l, r, pc, s).GetOr(l))
    ensures AtDispatched(l, r, s).Some? ==> UsesLessOrSame(l, AtDispatched(l, r, s).GetOr(l))
  {
    hide CrewInv;
  }

  lemma StarterUses(l: Life, r: nat)
    requires r < |l.crew.runners| && IsLive(l, Queued)
    ensures UsesLessOrSame(l, AtWaiting(l, r))
  {
  }

  lemma PhaseUses(l: Life, r: nat, ticket: nat)
    requires r < |l.crew.runners| && l.task.Some? && AtStarting(l, r, ticket).Some?
    ensures UsesLessOrSame(l, AtStarting(l, r, ticket).GetOr(l))
  {
  }

  lemma OtherUses(l: Life, r: nat, s: RunStep)
    requires DoRun(l, r, s).Some?
    requires var pc := l.crew.runners[r]; !pc.Child? && !pc.Marking? && !pc.Pausing?
    requires l.crew.runners[r].Dispatching? || l.crew.runners[r].Dispatched? ==> Is(l, Delivering)
    requires l.crew.runners[r].Waiting? ==> IsLive(l, Queued)
    ensures UsesLessOrSame(l, DoRun(l, r, s).GetOr(l))
  {
    hide AtChild, AtMarking, AtPausing, AtAsking, AtDispatching, AtDispatched, AtWaiting, AtStarting;
    var pc := l.crew.runners[r];
    if pc.Asking? {
      AskerUses(l, r, pc, s);
    } else if pc.Waiting? {
      StarterUses(l, r);
    } else if pc.Starting? {
      PhaseUses(l, r, pc.ticket);
    } else if pc.Dispatching? || pc.Dispatched? {
      DispatcherUses(l, r, pc, s);
    }
  }

  lemma OtherTellsUse(t: Tale, pc: Pc, s: RunStep)
    requires !s.Finish? && !s.Rescue? && !s.Degrade? && !s.Mark?
    ensures TellRun(t, pc, s).result == t.result && TellRun(t, pc, s).spent == t.spent
  {
  }

  lemma OthersSayLess(l: Life, r: nat, s: RunStep)
    requires DoRun(l, r, s).Some?
    requires var pc := l.crew.runners[r]; !pc.Child? && !pc.Marking? && !pc.Pausing?
    ensures !s.Finish? && !s.Rescue? && !s.Degrade? && !s.Mark?
  {
  }

  lemma RunUses(l: Life, r: nat, s: RunStep, t: Tale)
    requires Inv(l) && DictTells(l, t) && UseTells(l, t) && DoRun(l, r, s).Some?
    ensures r < |l.crew.runners| && UseTells(DoRun(l, r, s).GetOr(l), TellRun(t, l.crew.runners[r], s))
  {
    hide DictTells, UseTells, UsesLessOrSame, TellRun, AtChild, AtMarking, AtPausing, AtAsking, AtDispatching;
    hide AtDispatched, AtWaiting, AtStarting, DiskInv, Placed, Reserved, Stamped;
    var pc := l.crew.runners[r];
    if pc.Child? {
      ChildUses(l, r, pc, s, t);
    } else if pc.Marking? {
      MarkerUses(l, r, pc, s, t);
    } else if pc.Pausing? {
      PauserUses(l, r, pc, s, t);
    } else {
      OthersSayLess(l, r, s);
      OtherTellsUse(t, pc, s);
      OtherUses(l, r, s);
      SameUseTells(l, DoRun(l, r, s).value, t, TellRun(t, pc, s));
    }
  }

  lemma RequeueUses(l: Life, c: nat, stamp: nat, text: Text)
    requires c < |l.desk.calls| && l.task.Some?
    ensures UsesLessOrSame(l, Requeue(l, c, stamp, text))
  {
  }

  lemma CallUses(l: Life, c: nat, s: CallStep)
    requires DoCall(l, c, s).Some?
    ensures UsesLessOrSame(l, DoCall(l, c, s).GetOr(l))
  {
    hide Requeue;
    var call := l.desk.calls[c];
    if call.Reopening? && !s.StoreFailed? && IsLive(l, AwaitingInput) && !s.FoundInconsistent? && !l.mode.Stopped? {
      RequeueUses(l, c, call.stamp, call.answer);
    }
  }

  lemma CancelUses(l: Life, now: nat)
    requires DoCancel(l, now).Some?
    ensures UsesLessOrSame(l, DoCancel(l, now).GetOr(l))
  {
  }

  lemma SettleUses(l: Life, ok: bool)
    requires DoSettle(l, ok).Some?
    ensures UsesLessOrSame(l, DoSettle(l, ok).GetOr(l))
  {
  }

  lemma EnqueueUses(l: Life, s: EnqueueStep, t: Tale)
    requires Shape(l) && DictTells(l, t) && UseTells(l, t) && DoEnqueue(l, s).Some?
    ensures UseTells(DoEnqueue(l, s).GetOr(l), t)
  {
  }

  lemma ProcessUses(l: Life, s: ProcessStep, t: Tale)
    requires Shape(l) && DictTells(l, t) && UseTells(l, t) && DoProcess(l, s).Some?
    ensures var m := DoProcess(l, s).GetOr(l); UseTells(m, Tell(t, l, Process(s), m))
  {
    hide Sweep, Prunable, TaskTells, RunnerTells;
  }

  lemma StepUses(l: Life, a: Action, t: Tale)
    requires Inv(l) && DictTells(l, t) && UseTells(l, t) && Do(l, a).Some?
    ensures var m := Do(l, a).GetOr(l); UseTells(m, Tell(t, l, a, m))
  {
    hide DoRun, DoCall, DoCancel, DoSettle, DoProcess, DoEnqueue, DiskInv, Reserved, Stamped, Placed, Owned, TellRun;
    hide UseTells, UsesLessOrSame, DictTells;
    var m := Do(l, a).value;
    match a
    case Runs(r, s) => RunUses(l, r, s, t);
    case Calls(c, s) =>
      CallUses(l, c, s);
      SameUseTells(l, m, t, t);
    case Cancels(now) =>
      CancelUses(l, now);
      SameUseTells(l, m, t, t);
    case Enqueues(s) =>
      EnqueueUses(l, s, t);
      SameUse(m, t, Tell(t, l, a, m));
    case Process(s) => ProcessUses(l, s, t);
    case Settles(ok) =>
      SettleUses(l, ok);
      SameUseTells(l, m, t, t);
    case _ =>
      OthersUse(l, a);
      SameUseTells(l, m, t, Tell(t, l, a, m));
  }

  lemma OthersUse(l: Life, a: Action)
    requires Do(l, a).Some? && (a.Consumes? || a.ColdDismisses? || a.Resumes?)
    ensures UsesLessOrSame(l, Do(l, a).GetOr(l))
  {
  }

  // ---------------------------------------------------------------------------
  // One delegation, one budget
  // ---------------------------------------------------------------------------

  predicate BirthTells(l: Life, t: Tale) {
    (l.born <==> t.max.Some?) && (l.born ==> t.max == Some(l.max))
  }

  predicate SameBirth(l: Life, o: Option<Life>) {
    o.Some? ==> o.value.born == l.born && o.value.max == l.max
  }

  lemma ChildKeepsBirth(l: Life, r: nat, pc: Pc, s: RunStep)
    requires r < |l.crew.runners| && l.task.Some?
    ensures pc.Child? ==> SameBirth(l, AtChild(l, r, pc, s))
    ensures pc.Marking? ==> SameBirth(l, AtMarking(l, r, pc, s))
  {
    hide Apply;
  }

  lemma PauserKeepsBirth(l: Life, r: nat, pc: Pc, s: RunStep)
    requires r < |l.crew.runners| && l.task.Some?
    ensures pc.Pausing? ==> SameBirth(l, AtPausing(l, r, pc, s))
    ensures pc.Asking? ==> SameBirth(l, AtAsking(l, r, pc, s))
    ensures pc.Dispatching? ==> SameBirth(l, AtDispatching(l, r, pc, s))
    ensures SameBirth(l, AtDispatched(l, r, s))
  {
    hide Apply;
  }

  lemma RunKeepsBirth(l: Life, r: nat, s: RunStep)
    ensures SameBirth(l, DoRun(l, r, s))
  {
    hide Apply, AtChild, AtMarking, AtPausing, AtAsking, AtDispatching, AtDispatched;
    if r < |l.crew.runners| && l.task.Some? {
      ChildKeepsBirth(l, r, l.crew.runners[r], s);
      PauserKeepsBirth(l, r, l.crew.runners[r], s);
    }
  }

  lemma RunTellsNoBirth(t: Tale, pc: Pc, s: RunStep)
    ensures TellRun(t, pc, s).max == t.max
  {
  }

  lemma OthersKeepBirth(l: Life, a: Action)
    requires Do(l, a).Some? && !a.Runs? && !a.Enqueues?
    ensures var m := Do(l, a).GetOr(l); m.born == l.born && m.max == l.max
  {
    hide Apply, Sweep, Prunable;
  }

  lemma StepKeepsBirth(l: Life, a: Action, t: Tale)
    requires BirthTells(l, t) && Do(l, a).Some?
    ensures var m := Do(l, a).GetOr(l); BirthTells(m, Tell(t, l, a, m))
  {
    hide DoRun, DoCall, DoCancel, DoResume, DoSettle, DoProcess, TellRun;
    match a
    case Runs(r, s) =>
      RunKeepsBirth(l, r, s);
      if r < |l.crew.runners| {
        RunTellsNoBirth(t, l.crew.runners[r], s);
      }
    case Enqueues(_) =>
    case _ => OthersKeepBirth(l, a);
  }

  // ---------------------------------------------------------------------------
  // Every run tells
  // ---------------------------------------------------------------------------

  predicate Tells(l: Life, t: Tale) {
    DictTells(l, t) && DeskTells(l.desk, l.task, t.texts) && Gives(l, t) && NotesTell(l, t) && UseTells(l, t)
    && BirthTells(l, t)
  }

  lemma {:induction false} PlayTells(l: Life, t: Tale, run: seq<Action>)
    requires Inv(l) && Secured(l) && Tells(l, t) && Play(l, run).Some?
    ensures Tells(Play(l, run).GetOr(l), Recount(l, t, run))
    decreases |run|
  {
    hide Do, CrewInv, DiskInv, Secured, Tell, DictTells, DeskTells, Gives, NotesTell, UseTells, BirthTells;
    if run != [] {
      var m := Do(l, run[0]).value;
      StepTells(l, run[0], t);
      StepKeepsTexts(l, run[0], t);
      StepGives(l, run[0], t);
      StepNotes(l, run[0], t);
      StepUses(l, run[0], t);
      StepKeepsBirth(l, run[0], t);
      StepKeepsSecured(l, run[0]);
      Keeps(l, run[0]);
      PlayTells(m, Tell(t, l, run[0], m), run[1..]);
    }
  }

  lemma {:induction false} RunsTell(l: Life, run: seq<Action>)
    requires Reached(l, run)
    ensures Tells(l, TaleOf(run)) && Inv(l)
  {
    hide Do, Recount;
    UnbornIsKept();
    PlayTells(UNBORN, NO_TALE, run);
    RunsKeepInvariant(l, run);
  }

  /**
   Over every run, with any number of crashes: nothing is marked as delivered, in the dict, in the store or
   on its way there, whose dispatch to the parent did not succeed; the dispatches that did are counted.
   */
  lemma {:induction false} DeliveredWasGiven(l: Life, run: seq<Action>)
    requires Reached(l, run)
    ensures var given := TaleOf(run).given;
            && |given| == l.tally.delivered
            && (Is(l, Delivered) ==> l.task.value.result.Some? && l.task.value.result.value in given)
            && (l.disk.row.Some? && l.disk.row.value.status.Delivered? ==> RowGave(l.disk.row, given))
            && (WDelivered in l.disk.writes ==> RowGave(l.disk.row, given))
    ensures (Is(l, Delivered) || WDelivered in l.disk.writes
             || (l.disk.row.Some? && l.disk.row.value.status.Delivered?)) ==> l.tally.delivered >= 1
  {
    hide Do, Recount, CrewInv, DiskInv;
    RunsTell(l, run);
    if WDelivered in l.disk.writes {
      var i :| 0 <= i < |l.disk.writes| && l.disk.writes[i] == WDelivered;
      assert WriteGives(l.disk, i, TaleOf(run).given);
    }
  }

  /**
   What the dict says of a result is what became of it: the text that was handed over, at its time;
   delivered only after a dispatch that succeeded and raised nothing; failed only after the last try, or
   when something raised after the dispatch, and then with that error.
   */
  lemma {:induction false} ResultTellsItsFate(l: Life, run: seq<Action>)
    requires Reached(l, run)
    ensures var t := TaleOf(run);
            && (Is(l, Delivering) || Is(l, Delivered) || (Is(l, DeliveryFailed) && t.result.Some?) ==>
                  t.result.Some? && l.task.value.result == t.result && l.task.value.finishedAt == Some(t.at))
            && (Is(l, Delivered) ==> t.done && !t.raised)
            && (Is(l, DeliveryFailed) && t.result.Some? ==>
                  && l.task.value.error == t.error && t.error.Some?
                  && (if t.done then t.raised else t.tries > 0 && (t.last || t.tries == DISPATCH_ATTEMPTS)))
            && (t.result.Some? && Up(l) && !Is(l, Delivered) && !Is(l, Dismissed) ==>
                  IsLive(l, Delivering) || IsLive(l, DeliveryFailed))
  {
    hide Do, Recount, DiskInv, Reserved, Stamped, Owned, Placed;
    RunsTell(l, run);
  }

  /** A queued or running task carries nothing of an earlier phase; a pause carries its own text and question. */
  lemma {:induction false} PhasesStartClean(l: Life, run: seq<Action>)
    requires Reached(l, run)
    ensures var t := TaleOf(run);
            && (Is(l, Queued) || Is(l, Running) ==>
                  l.task.value.result.None? && l.task.value.error.None? && l.task.value.question.None?
                  && l.task.value.finishedAt.None? && l.task.value.notified)
            && (Is(l, AwaitingInput) && t.pause.Some? ==>
                  l.task.value.result == Some(t.pause.value.0) && l.task.value.question == Some(t.pause.value.1))
  {
    hide Do, Recount, CrewInv, DiskInv;
    RunsTell(l, run);
  }

  /**
   A pause is marked as notified exactly when its question was dispatched, or was when it was loaded; one
   of this process has an error exactly when the last try of its question failed, and that error.
   */
  lemma {:induction false} NotifiedExactly(l: Life, run: seq<Action>)
    requires Reached(l, run) && Is(l, AwaitingInput)
    ensures l.task.value.finishedAt.Some?
    ensures l.task.value.notified <==> l.task.value.finishedAt.value in TaleOf(run).told
    ensures var t, stamp := TaleOf(run), l.task.value.finishedAt.value;
            t.pause.Some? ==> l.task.value.error == if stamp in t.failed then Some(t.failed[stamp]) else None
  {
    hide Do, Recount, DiskInv;
    RunsTell(l, run);
  }

  /** The answer that waits for the next phase is the text of the call that left it. */
  lemma {:induction false} AnswersAreTheirs(l: Life, run: seq<Action>)
    requires Reached(l, run)
    ensures var texts := TaleOf(run).texts;
            && |texts| == |l.desk.calls|
            && (l.desk.answer.Some? ==> l.desk.answer.value.call < |texts|
                                        && l.desk.answer.value.text == texts[l.desk.answer.value.call])
    ensures forall c | 0 <= c < |l.desk.calls| :: l.desk.calls[c].Flagging? ==> l.task.Some? && l.task.value.incomplete
    ensures forall r | 0 <= r < |l.crew.runners| ::
              l.crew.runners[r].Marking? ==> l.task.Some? && l.task.value.incomplete
  {
    hide Do, Recount, CrewInv, DiskInv;
    RunsTell(l, run);
    assert forall r | 0 <= r < |l.crew.runners| :: Marked(l.crew.runners[r], l.task);
  }

  /** One more action is one more state of a run. */
  lemma {:induction false} ReachesOn(l: Life, run: seq<Action>, a: Action)
    requires Play(l, run).Some? && Do(Play(l, run).value, a).Some?
    ensures Play(l, run + [a]) == Do(Play(l, run).GetOr(l), a)
    decreases |run|
  {
    hide Do;
    if run == [] {
      assert [a][1..] == [] && run + [a] == [a];
    } else {
      assert (run + [a])[1..] == run[1..] + [a];
      ReachesOn(Do(l, run[0]).value, run[1..], a);
    }
  }

  lemma LastFailureCloses(l: Life, r: nat, last: bool, error: Text)
    requires Inv(l) && Up(l) && r < |l.crew.runners| && l.crew.runners[r].Dispatching?
    requires last || l.crew.runners[r].attempt >= DISPATCH_ATTEMPTS
    ensures var m := Do(l, Runs(r, Fail(last, error)));
            && m.Some? && l.task.Some?
            && IsLive(m.value, DeliveryFailed) && Up(m.value) && m.value.disk.broken == l.disk.broken
            && m.value.task.value == l.task.value.(status := DeliveryFailed, error := Some(error))
            && m.value.tally == l.tally
  {
    hide DiskInv, Reserved, Stamped, Placed;
  }

  /**
   A dispatch whose last try failed: the task stays, live, as a failed delivery with the result that was
   handed over and the error; and so does its row, once the writes under way are applied.
   */
  lemma {:induction false} FailureIsKept(l: Life, run: seq<Action>, r: nat, last: bool, error: Text)
    requires Reached(l, run) && Up(l) && r < |l.crew.runners| && l.crew.runners[r].Dispatching?
    requires last || l.crew.runners[r].attempt >= DISPATCH_ATTEMPTS
    ensures var t, m := TaleOf(run), Do(l, Runs(r, Fail(last, error)));
            && m.Some? && IsLive(m.value, DeliveryFailed) && t.result.Some?
            && m.value.task.value.result == t.result && m.value.task.value.error == Some(error)
            && m.value.tally == l.tally
            && (!l.disk.broken ==>
                  && m.value.disk.row.Some?
                  && var row := Settled(m.value.disk.row.value, m.value.disk.writes);
                     row.status.DeliveryFailed? && row.result == t.result && row.error == Some(error))
  {
    RunsTell(l, run);
    LastFailureCloses(l, r, last, error);
    hide Do, Recount, DiskInv, Reserved, Stamped, Placed, Settled;
    HandsAlone(l, r);
    var a := Runs(r, Fail(last, error));
    ReachesOn(UNBORN, run, a);
    if !l.disk.broken {
      StoreMirrorsDict(Do(l, a).value, run + [a]);
    }
  }

  /** Before that it is tried again, and nothing is lost or written. */
  lemma {:induction false} FailureIsRetried(l: Life, run: seq<Action>, r: nat, error: Text)
    requires Reached(l, run) && Up(l) && r < |l.crew.runners| && l.crew.runners[r].Dispatching?
    requires l.crew.runners[r].attempt < DISPATCH_ATTEMPTS
    ensures var m := Do(l, Runs(r, Fail(false, error)));
            && m.Some? && m.value.task == l.task && m.value.disk == l.disk && m.value.live
            && r < |m.value.crew.runners| && m.value.crew.runners[r] == Dispatching(TaleOf(run).tries + 2)
  {
    RunsTell(l, run);
    hide Recount, DiskInv, Reserved, Stamped, Placed;
    HandsAlone(l, r);
    assert RunnerTells(l.crew.runners[r], TaleOf(run));
  }

  /**
   Without a lost requeue, the result of a child that ended by itself reports exactly the passes of all
   its phases, or all its iterations if it ran out of them.
   */
  lemma {:induction false} UsedIsExact(l: Life, run: seq<Action>)
    requires Reached(l, run) && l.tally.lost == 0
    requires Is(l, Delivering) || Is(l, Delivered) || Is(l, DeliveryFailed)
    ensures var t := TaleOf(run);
            t.result.Some? && t.spent.Some? ==>
              l.task.value.used == if t.spent.value then l.max else l.tally.passes
  {
    hide Do, Recount, CrewInv, DiskInv;
    RunsTell(l, run);
  }

  /** The budget that every phase shares is the one that the delegation was created with, once. */
  lemma {:induction false} BudgetIsTheFirst(l: Life, run: seq<Action>)
    requires Reached(l, run)
    ensures (l.born <==> TaleOf(run).max.Some?) && (l.born ==> TaleOf(run).max == Some(l.max))
  {
    hide Do, Recount, CrewInv, DiskInv;
    RunsTell(l, run);
  }
}
