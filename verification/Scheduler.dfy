/**
 The scheduler service over its repository. Any await can be the last one of the process, and any call of
 the repository can raise: the methods say what holds then too, and a restart recovers from there.
 */
module Scheduler {
  import opened Wrappers

  type Id = nat
  type Time = int
  type Text = string

  datatype Kind = Oneshot | Recurrent

  datatype Status = Pending | Running | Completed | Failed | Missed

  /**
   A row of the schedule. The last five fields are history that no step reads: the executions it was
   created with, executions begun, those that succeeded, those whose success was recorded, and those
   whose success was not, because the process died or the repository raised in between.
   */
  datatype Task = Task(
    kind: Kind,
    status: Status,
    enabled: bool,
    schedule: Text,
    nextRun: Option<Time>,
    remaining: Option<int>,
    retries: nat,
    lastRun: Option<Time>,
    logs: bool,
    total: Option<int>,
    begun: nat,
    succeeded: nat,
    recorded: nat,
    lost: nat)

  datatype LogStatus = LogSuccess | LogFailed | LogMissed

  datatype Log = Log(id: Id, status: LogStatus, manual: bool)

  function Failures(id: Id, n: nat): seq<Log> {
    seq(n, i => Log(id, LogFailed, false))
  }

  /** A countdown is exact, and the last recorded success completes the task. */
  predicate Balanced(t: Task) {
    && t.succeeded == t.recorded + t.lost && t.succeeded <= t.begun
    && (t.kind.Recurrent? && t.total.Some? && t.total.value >= 1 ==>
          if t.status.Completed? then t.recorded == t.total.value
          else t.remaining.Some? && t.recorded + t.remaining.value == t.total.value && t.remaining.value >= 1)
    && (t.kind.Recurrent? ==> t.status.Pending? || t.status.Running? || t.status.Completed?)
    && (t.kind.Oneshot? ==> t.begun <= 1 && (t.status.Pending? || t.status.Missed? ==> t.begun == 0))
  }

  /** A row as the use case creates it. */
  predicate Fresh(t: Task) {
    t.status.Pending? && t.total == t.remaining && t.begun == 0 && t.succeeded == 0 && t.recorded == 0 && t.lost == 0
  }

  lemma FreshIsBalanced(t: Task)
    requires Fresh(t)
    ensures Balanced(t)
  {
  }

  /** A recurrent task moves to the next slot after `now`, without recording an execution. */
  function Advanced(t: Task, cron: (Text, Time) -> Time, now: Time): Task {
    t.(status := Pending, nextRun := Some(cron(t.schedule, now)), retries := 0)
  }

  predicate Waits(t: Task) {
    t.enabled && t.status.Pending? && t.nextRun.Some?
  }

  predicate Due(t: Task, now: Time) {
    Waits(t) && t.nextRun.value <= now
  }

  /** What a restart makes of a row. */
  function Recovered(t: Task, cron: (Text, Time) -> Time, now: Time): Task {
    if t.status.Running? then (if t.kind.Oneshot? then t.(status := Failed) else Advanced(t, cron, now))
    else if Due(t, now) then (if t.kind.Oneshot? then t.(status := Missed) else Advanced(t, cron, now))
    else t
  }

  /** A recorded success: the countdown falls, and at zero the task is over. */
  function Finalized(t: Task, cron: (Text, Time) -> Time, now: Time): Task {
    var left := if t.remaining.Some? then Some(t.remaining.value - 1) else None;
    if t.kind.Oneshot? || left == Some(0) then t.(status := Completed, recorded := t.recorded + 1)
    else Advanced(t, cron, now).(lastRun := Some(now), remaining := left, recorded := t.recorded + 1)
  }

  /** An execution that failed every attempt: only a recurrent task lives on. */
  function GivenUp(t: Task, cron: (Text, Time) -> Time, now: Time): Task {
    if t.kind.Recurrent? then Advanced(t, cron, now) else t.(status := Failed)
  }

  /** The row while an execution is under way. */
  predicate UnderWay(before: Task, t: Task) {
    t == before.(status := Running, retries := t.retries, begun := before.begun + 1)
  }

  /** The success happened and was not recorded. */
  function Unrecorded(t: Task): Task {
    t.(succeeded := t.succeeded + 1, lost := t.lost + 1)
  }

  /** How an execution can stop before it is closed: the process goes on if a call of the repository raised. */
  datatype Stop = Died | Raised

  /** A stopped execution: not begun, or still marked as running, before or after its success. */
  predicate Cut(before: Task, t: Task) {
    t == before || UnderWay(before, t) || (t.succeeded > 0 && t.lost > 0 && UnderWay(Unrecorded(before), t))
  }

  /**
   What a closed execution made of the row it began with: over, or waiting for the next slot of its cron
   expression; a recorded success takes one from the countdown and is over at none left.
   */
  predicate Closed(before: Task, t: Task, success: bool, cron: (Text, Time) -> Time, now: Time) {
    && t == before.(status := t.status, nextRun := t.nextRun, remaining := t.remaining, retries := t.retries,
                    lastRun := t.lastRun, begun := before.begun + 1,
                    succeeded := before.succeeded + (if success then 1 else 0),
                    recorded := before.recorded + (if success then 1 else 0))
    && (t.status.Pending? <==> before.kind.Recurrent? && !(success && before.remaining == Some(1)))
    && (!t.status.Pending? ==>
          && t.status == (if success then Completed else Failed)
          && t.nextRun == before.nextRun && t.remaining == before.remaining && t.lastRun == before.lastRun)
    && (t.status.Pending? ==>
          && t.nextRun == Some(cron(before.schedule, now)) && t.nextRun.value > now && t.retries == 0
          && t.lastRun == (if success then Some(now) else before.lastRun)
          && (success && before.remaining.Some? ==> t.remaining == Some(before.remaining.value - 1))
          && (!(success && before.remaining.Some?) ==> t.remaining == before.remaining))
  }

  lemma FinalizedCloses(before: Task, t: Task, cron: (Text, Time) -> Time, now: Time)
    requires Balanced(before) && before.status.Pending? && UnderWay(before, t) && cron(t.schedule, now) > now
    ensures var done := Finalized(t.(succeeded := t.succeeded + 1), cron, now);
            Balanced(done) && Closed(before, done, true, cron, now)
  {
  }

  lemma StopCuts(before: Task, t: Task)
    requires Balanced(before) && before.status.Pending? && UnderWay(before, t)
    ensures Cut(before, t) && Cut(before, Unrecorded(t))
  {
  }

  lemma GivenUpCloses(before: Task, t: Task, cron: (Text, Time) -> Time, now: Time)
    requires Balanced(before) && before.status.Pending? && UnderWay(before, t) && cron(t.schedule, now) > now
    ensures Balanced(GivenUp(t, cron, now)) && Closed(before, GivenUp(t, cron, now), false, cron, now)
  {
  }

  function Unstuck(t: Task, cron: (Text, Time) -> Time, now: Time): Task {
    if t.status.Running? then Recovered(t, cron, now) else t
  }

  function Unmissed(t: Task, cron: (Text, Time) -> Time, now: Time): Task {
    if Due(t, now) then Recovered(t, cron, now) else t
  }

  /**
   A row after a restart: one that was running or due is over, or waits for the next slot of its cron
   expression if it is recurrent; any other is as it was.
   */
  predicate Restarted(before: Task, t: Task, cron: (Text, Time) -> Time, now: Time) {
    && (!before.status.Running? && !Due(before, now) ==> t == before)
    && t == before.(status := t.status, nextRun := t.nextRun, retries := t.retries)
    && (before.status.Running? || Due(before, now) ==>
          if before.kind.Recurrent?
          then t.status.Pending? && t.nextRun == Some(cron(before.schedule, now)) && t.retries == 0
          else
            && t.status == (if before.status.Running? then Failed else Missed)
            && t.nextRun == before.nextRun && t.retries == before.retries)
  }

  /** The stuck ones first, then the missed ones: no task is recovered twice. */
  lemma RecoversInTwoParts(t: Task, cron: (Text, Time) -> Time, now: Time)
    requires Balanced(t) && cron(t.schedule, now) > now
    ensures Unmissed(Unstuck(t, cron, now), cron, now) == Recovered(t, cron, now)
    ensures Balanced(Recovered(t, cron, now)) && Restarted(t, Recovered(t, cron, now), cron, now)
    ensures !Recovered(t, cron, now).status.Running? && !Due(Recovered(t, cron, now), now)
    ensures Due(Unstuck(t, cron, now), now) <==> Due(t, now)
  {
  }

  // ---------------------------------------------------------------------------
  // The life of one row
  // ---------------------------------------------------------------------------

  /** How an execution ended: recorded, failed, or stopped with its row running, after a success or not. */
  datatype Ending = Recorded(now: Time) | Failing(now: Time) | Stopped(cause: Stop, succeeded: bool)

  /** What can happen to a row: an execution with its retries, or what a restart makes of it. */
  datatype Move = Execution(start: Time, retries: nat, ending: Ending) | Recovery(now: Time)

  function Executed(t: Task, e: Ending, cron: (Text, Time) -> Time): Task {
    match e
    case Recorded(now) => Finalized(t.(succeeded := t.succeeded + 1), cron, now)
    case Failing(now) => GivenUp(t, cron, now)
    case Stopped(_, succeeded) => if succeeded then Unrecorded(t) else t
  }

  function Moved(t: Task, m: Move, cron: (Text, Time) -> Time): Option<Task> {
    match m
    case Execution(start, retries, ending) =>
      if Due(t, start)
      then Some(Executed(t.(status := Running, begun := t.begun + 1, retries := retries), ending, cron)) else None
    case Recovery(now) => Some(Recovered(t, cron, now))
  }

  /** What an execution makes of a row, closed or stopped. */
  lemma ExecutionCloses(before: Task, start: Time, retries: nat, e: Ending, cron: (Text, Time) -> Time, now: Time)
    requires Balanced(before) && Due(before, start) && cron(before.schedule, now) > now
    requires e.Stopped? || e.now == now
    ensures var t := Moved(before, Execution(start, retries, e), cron).value;
            if e.Stopped? then Cut(before, t) else Closed(before, t, e.Recorded?, cron, now)
  {
    hide Balanced, Closed, Cut, Finalized, GivenUp, Unrecorded;
    var t := before.(status := Running, begun := before.begun + 1, retries := retries);
    match e
    case Recorded(_) => FinalizedCloses(before, t, cron, now);
    case Failing(_) => GivenUpCloses(before, t, cron, now);
    case Stopped(_, _) => StopCuts(before, t);
  }

  function MovedAll(t: Task, moves: seq<Move>, cron: (Text, Time) -> Time): Option<Task>
    decreases |moves|
  {
    if moves == [] then Some(t)
    else
      var before := MovedAll(t, moves[..|moves| - 1], cron);
      if before.None? then None else Moved(before.value, moves[|moves| - 1], cron)
  }

  /** Some moves lead from one row to the other. */
  ghost predicate Leads(t: Task, u: Task, cron: (Text, Time) -> Time) {
    exists moves :: MovedAll(t, moves, cron) == Some(u)
  }

  lemma LeadsNowhere(t: Task, cron: (Text, Time) -> Time)
    ensures Leads(t, t, cron)
  {
    assert MovedAll(t, [], cron) == Some(t);
  }

  lemma {:induction false} LeadsOn(t: Task, u: Task, m: Move, cron: (Text, Time) -> Time)
    requires Leads(t, u, cron) && Moved(u, m, cron).Some?
    ensures Leads(t, Moved(u, m, cron).value, cron)
  {
    var moves :| MovedAll(t, moves, cron) == Some(u);
    assert (moves + [m])[..|moves|] == moves;
    assert MovedAll(t, moves + [m], cron) == Moved(u, m, cron);
  }

  lemma {:induction false} LeadsThrough(t: Task, u: Task, moves: seq<Move>, cron: (Text, Time) -> Time)
    requires Leads(t, u, cron) && MovedAll(u, moves, cron).Some?
    ensures Leads(t, MovedAll(u, moves, cron).value, cron)
    decreases |moves|
  {
    if moves != [] {
      LeadsThrough(t, u, moves[..|moves| - 1], cron);
      LeadsOn(t, MovedAll(u, moves[..|moves| - 1], cron).value, moves[|moves| - 1], cron);
    }
  }

  lemma {:induction false} LeadsAcross(t: Task, u: Task, v: Task, cron: (Text, Time) -> Time)
    requires Leads(t, u, cron) && Leads(u, v, cron)
    ensures Leads(t, v, cron)
  {
    var moves :| MovedAll(u, moves, cron) == Some(v);
    LeadsThrough(t, u, moves, cron);
  }

  /** The success of this execution is not recorded. */
  predicate Loses(m: Move) {
    m.Execution? && m.ending.Stopped? && m.ending.succeeded
  }

  function Losses(moves: seq<Move>): nat {
    if moves == [] then 0 else Losses(moves[..|moves| - 1]) + if Loses(moves[|moves| - 1]) then 1 else 0
  }

  /** What a step may do to a row: the balance stays, and `n` more successes are lost. */
  predicate Balances(t: Task, u: Task, n: nat) {
    Balanced(u) && u.lost == t.lost + n && u.kind == t.kind && u.total == t.total
  }

  lemma RecordBalances(t: Task, u: Task, cron: (Text, Time) -> Time, now: Time)
    requires Balanced(t) && t.status.Pending? && UnderWay(t, u)
    ensures Balances(t, Finalized(u.(succeeded := u.succeeded + 1), cron, now), 0)
  {
  }

  lemma FailureBalances(t: Task, u: Task, cron: (Text, Time) -> Time, now: Time)
    requires Balanced(t) && t.status.Pending? && UnderWay(t, u)
    ensures Balances(t, GivenUp(u, cron, now), 0)
  {
  }

  lemma StopBalances(t: Task, u: Task)
    requires Balanced(t) && t.status.Pending? && UnderWay(t, u)
    ensures Balances(t, u, 0) && Balances(t, Unrecorded(u), 1)
  {
  }

  lemma RecoveryBalances(t: Task, cron: (Text, Time) -> Time, now: Time)
    requires Balanced(t)
    ensures Balances(t, Recovered(t, cron, now), 0)
  {
  }

  lemma MoveKeepsBalance(t: Task, m: Move, cron: (Text, Time) -> Time)
    requires Balanced(t) && Moved(t, m, cron).Some?
    ensures Balances(t, Moved(t, m, cron).value, if Loses(m) then 1 else 0)
  {
    hide Balances, Balanced, Finalized, GivenUp, Unrecorded, Recovered;
    match m
    case Recovery(now) => RecoveryBalances(t, cron, now);
    case Execution(_, retries, ending) =>
      var u := t.(status := Running, begun := t.begun + 1, retries := retries);
      match ending
      case Recorded(now) => RecordBalances(t, u, cron, now);
      case Failing(now) => FailureBalances(t, u, cron, now);
      case Stopped(_, _) => StopBalances(t, u);
  }

  /**
   Over every life of a row. Its successes are the recorded ones and those of executions that stopped in
   between, whether the process died or the repository raised: all are recorded if and only if there was
   no such execution. So a countdown of n completes at exactly its n-th success if and only if there was
   none before, and a oneshot that succeeded is completed if and only if it was not one itself.
   */
  lemma {:induction false} SuccessesExactly(t: Task, moves: seq<Move>, cron: (Text, Time) -> Time)
    requires Fresh(t) && MovedAll(t, moves, cron).Some?
    ensures var u := MovedAll(t, moves, cron).value;
            && u.succeeded == u.recorded + Losses(moves) && u.lost == Losses(moves) && Balanced(u)
            && u.kind == t.kind && u.total == t.total
            && (u.succeeded == u.recorded <==> forall i | 0 <= i < |moves| :: !Loses(moves[i]))
            && (t.kind.Recurrent? && t.total.Some? && t.total.value >= 1 && u.status.Completed? ==>
                  u.succeeded == t.total.value + Losses(moves))
            && (t.kind.Oneshot? && u.succeeded > 0 ==> (u.recorded == 1 <==> Losses(moves) == 0))
    decreases |moves|
  {
    if moves == [] {
      FreshIsBalanced(t);
    } else {
      var before, last := moves[..|moves| - 1], moves[|moves| - 1];
      assert moves == before + [last];
      SuccessesExactly(t, before, cron);
      MoveKeepsBalance(MovedAll(t, before, cron).value, last, cron);
    }
  }

  /** When a move may arm the row anew. */
  function ArmedAt(m: Move): Option<Time> {
    match m
    case Recovery(now) => Some(now)
    case Execution(_, _, Stopped(_, _)) => None
    case Execution(_, _, ending) => Some(ending.now)
  }

  /** The slot and the last run of a row are its first ones, or those of some move. */
  ghost predicate Traced(t: Task, moves: seq<Move>, u: Task, cron: (Text, Time) -> Time) {
    && u.kind == t.kind && u.enabled == t.enabled && u.schedule == t.schedule && u.logs == t.logs
    && (u.nextRun == t.nextRun
        || exists i :: 0 <= i < |moves| && ArmedAt(moves[i]).Some?
             && u.nextRun == Some(cron(t.schedule, ArmedAt(moves[i]).value)))
    && (u.lastRun == t.lastRun
        || exists i :: 0 <= i < |moves| && moves[i].Execution? && moves[i].ending.Recorded?
             && u.lastRun == Some(moves[i].ending.now))
  }

  /** What one move leaves of slot and last run. */
  lemma MoveArms(t: Task, m: Move, cron: (Text, Time) -> Time)
    requires Moved(t, m, cron).Some?
    ensures var u := Moved(t, m, cron).value;
            && u.kind == t.kind && u.enabled == t.enabled && u.schedule == t.schedule && u.logs == t.logs
            && (u.nextRun == t.nextRun
                || (ArmedAt(m).Some? && u.nextRun == Some(cron(t.schedule, ArmedAt(m).value))))
            && (u.lastRun == t.lastRun
                || (m.Execution? && m.ending.Recorded? && u.lastRun == Some(m.ending.now)))
  {
  }

  /** Over every life of a row: no slot is made up, and no last run. */
  lemma {:induction false} SlotsAreTraced(t: Task, moves: seq<Move>, cron: (Text, Time) -> Time)
    requires MovedAll(t, moves, cron).Some?
    ensures Traced(t, moves, MovedAll(t, moves, cron).value, cron)
    decreases |moves|
  {
    if moves != [] {
      var before, last := moves[..|moves| - 1], moves[|moves| - 1];
      var u := MovedAll(t, before, cron).value;
      SlotsAreTraced(t, before, cron);
      MoveArms(u, last, cron);
      var v := Moved(u, last, cron).value;
      if v.nextRun == u.nextRun && u.nextRun != t.nextRun {
        var i :| 0 <= i < |before| && ArmedAt(before[i]).Some?
                 && u.nextRun == Some(cron(t.schedule, ArmedAt(before[i]).value));
        assert moves[i] == before[i];
      }
      if v.lastRun == u.lastRun && u.lastRun != t.lastRun {
        var i :| 0 <= i < |before| && before[i].Execution? && before[i].ending.Recorded?
                 && u.lastRun == Some(before[i].ending.now);
        assert moves[i] == before[i];
      }
    }
  }

  /** A row lived by some moves, and its slot and last run are those of one of them. */
  ghost predicate Lives(t: Task, u: Task, cron: (Text, Time) -> Time) {
    exists moves :: MovedAll(t, moves, cron) == Some(u) && Traced(t, moves, u, cron)
  }

  lemma LeadsLives(t: Task, u: Task, cron: (Text, Time) -> Time)
    requires Leads(t, u, cron)
    ensures Lives(t, u, cron)
  {
    var moves :| MovedAll(t, moves, cron) == Some(u);
    SlotsAreTraced(t, moves, cron);
  }

  const ONCE: Task := Task(Recurrent, Pending, true, "", Some(0), Some(1), 0, None, false, Some(1), 0, 0, 0, 0)

  /**
   A countdown of one that succeeds twice and is not complete: the process dies before the first record,
   and the repository raises at the second.
   */
  lemma {:induction false} OneTooMany(cron: (Text, Time) -> Time)
    ensures exists t :: Fresh(ONCE) && Leads(ONCE, t, cron) && t.succeeded == 2 && t.recorded == 0
                        && !t.status.Completed?
  {
    LeadsNowhere(ONCE, cron);
    LeadsOn(ONCE, ONCE, Execution(0, 0, Stopped(Died, true)), cron);
    var t1 := Moved(ONCE, Execution(0, 0, Stopped(Died, true)), cron).value;
    LeadsOn(ONCE, t1, Recovery(0), cron);
    var t2 := Moved(t1, Recovery(0), cron).value;
    LeadsOn(ONCE, t2, Execution(cron("", 0), 0, Stopped(Raised, true)), cron);
  }

  const AT_ONCE: Task := ONCE.(kind := Oneshot, remaining := None, total := None)

  /** A oneshot that succeeds and ends as failed: the repository raises at its record, and the service restarts. */
  lemma {:induction false} SuccessEndsFailed(cron: (Text, Time) -> Time)
    ensures exists t :: Fresh(AT_ONCE) && Leads(AT_ONCE, t, cron) && t.succeeded == 1 && t.status.Failed?
  {
    LeadsNowhere(AT_ONCE, cron);
    LeadsOn(AT_ONCE, AT_ONCE, Execution(0, 0, Stopped(Raised, true)), cron);
    var t1 := Moved(AT_ONCE, Execution(0, 0, Stopped(Raised, true)), cron).value;
    LeadsOn(AT_ONCE, t1, Recovery(0), cron);
  }

  class SchedulerService {
    const maxRetries: nat
    const cron: (Text, Time) -> Time
    var tasks: map<Id, Task>
    var logs: seq<Log>

    constructor (maxRetries: int, cron: (Text, Time) -> Time, tasks: map<Id, Task>)
      requires forall schedule, t :: cron(schedule, t) > t
      requires forall id | id in tasks :: Fresh(tasks[id])
      ensures Valid() && this.tasks == tasks && logs == []
    {
      this.maxRetries := if maxRetries < 0 then 0 else maxRetries;
      this.cron, this.tasks, logs := cron, tasks, [];
    }

    ghost predicate Valid()
      reads this
    {
      && (forall schedule, t :: cron(schedule, t) > t)
      && (forall id | id in tasks :: Balanced(tasks[id]))
    }

    /** Only the row of `id` may have changed. */
    twostate predicate OnlyAt(id: Id)
      reads this
    {
      tasks.Keys == old(tasks).Keys && forall j | j in tasks && j != id :: tasks[j] == old(tasks)[j]
    }

    method Write(id: Id, t: Task)
      requires id in tasks
      modifies `tasks
      ensures tasks == old(tasks)[id := t]
    {
      tasks := tasks[id := t];
    }

    method SaveLog(id: Id, status: LogStatus, manual: bool)
      modifies `logs
      ensures logs == old(logs) + [Log(id, status, manual)]
    {
      logs := logs + [Log(id, status, manual)];
    }

    /** The enabled pending task with the earliest slot. */
    method NextDue() returns (next: Option<Id>)
      ensures next.Some? ==> next.value in tasks && Waits(tasks[next.value])
                             && forall j | j in tasks && Waits(tasks[j]) ::
                                  tasks[next.value].nextRun.value <= tasks[j].nextRun.value
      ensures next.None? ==> forall j | j in tasks :: !Waits(tasks[j])
    {
      next := None;
      var todo := tasks.Keys;
      while todo != {}
        invariant todo <= tasks.Keys
        invariant next.Some? ==> next.value in tasks && Waits(tasks[next.value])
                                 && forall j | j in tasks && j !in todo && Waits(tasks[j]) ::
                                      tasks[next.value].nextRun.value <= tasks[j].nextRun.value
        invariant next.None? ==> forall j | j in tasks && j !in todo :: !Waits(tasks[j])
        decreases |todo|
      {
        var id :| id in todo;
        todo := todo - {id};
        var t := tasks[id];
        if Waits(t)
           && (next.None? || t.nextRun.value < tasks[next.value].nextRun.value) {
          next := Some(id);
        }
      }
    }

    /** The log of the tries of one execution: each failed one. */
    static function Tried(id: Id, logged: bool, success: bool, attempts: nat): seq<Log> {
      if logged then Failures(id, if success && attempts > 0 then attempts - 1 else attempts) else []
    }

    static lemma OneMoreTry(was: seq<Log>, now: seq<Log>, id: Id, logged: bool, n: nat)
      requires now == was + Tried(id, logged, false, n)
      ensures now == was + Tried(id, logged, true, n + 1)
      ensures now + (if logged then [Log(id, LogFailed, false)] else []) == was + Tried(id, logged, false, n + 1)
    {
      assert Failures(id, n + 1) == Failures(id, n) + [Log(id, LogFailed, false)];
    }

    /** What a closed execution logs: each failed try, and then its success. */
    static function Report(id: Id, logged: bool, success: bool, attempts: nat): seq<Log> {
      Tried(id, logged, success, attempts) + if success && logged then [Log(id, LogSuccess, false)] else []
    }

    /**
     The trigger, tried at most 1 + maxRetries times; `stop` when the process died meanwhile, or the
     repository raised while a failure was noted.
     */
    method Attempt(id: Id) returns (success: bool, attempts: nat, stop: Option<Stop>)
      requires id in tasks && tasks[id].status.Running?
      modifies this
      ensures id in tasks && tasks == old(tasks)[id := tasks[id]]
              && tasks[id] == old(tasks)[id].(retries := tasks[id].retries)
      ensures attempts <= 1 + maxRetries
      ensures success ==> stop.None?
      ensures !success && stop.None? ==> attempts == 1 + maxRetries && tasks[id].retries == attempts
      ensures stop.None? ==> logs == old(logs) + Tried(id, tasks[id].logs, success, attempts)
    {
      success, attempts, stop := false, 0, None;
      while attempts < 1 + maxRetries && !success && stop.None?
        invariant id in tasks && tasks == old(tasks)[id := tasks[id]]
                  && tasks[id] == old(tasks)[id].(retries := tasks[id].retries)
        invariant attempts <= 1 + maxRetries && (success ==> stop.None? && attempts > 0)
        invariant !success && stop.None? && attempts > 0 ==> tasks[id].retries == attempts
        invariant stop.None? ==> logs == old(logs) + Tried(id, old(tasks)[id].logs, success, attempts)
        decreases 1 + maxRetries - attempts
      {
        OneMoreTry(old(logs), logs, id, tasks[id].logs, attempts);
        attempts := attempts + 1;
        if * {
          success := true;
        } else if * {
          stop := *;
        }
        if !success && stop.None? {
          Write(id, tasks[id].(status := Running, retries := attempts));
          stop := *;
          if stop.None? && tasks[id].logs {
            SaveLog(id, LogFailed, false);
          }
        }
      }
    }

    /** Success: the countdown first in memory, then the row. */
    method Finalize(id: Id, now: Time)
      requires id in tasks
      modifies `tasks
      ensures tasks == old(tasks)[id := Finalized(old(tasks)[id], cron, now)]
    {
      var t := tasks[id].(recorded := tasks[id].recorded + 1);
      if t.kind.Oneshot? {
        Write(id, t.(status := Completed));
        return;
      }
      var left := t.remaining;
      if left.Some? {
        left := Some(left.value - 1);
      }
      if left == Some(0) {
        Write(id, t.(status := Completed));
      } else {
        Write(id, Advanced(t, cron, now).(remaining := left, lastRun := Some(now)));
      }
    }

    /** A success is logged, then recorded, unless the process dies or the repository raises before. */
    method Succeed(id: Id, now: Time) returns (stop: Option<Stop>)
      requires id in tasks
      modifies this
      ensures id in tasks && tasks == old(tasks)[id := tasks[id]]
      ensures tasks[id] == Executed(old(tasks)[id],
                                    if stop.Some? then Stopped(stop.value, true) else Recorded(now), cron)
      ensures stop.None? ==>
                logs == old(logs) + if old(tasks)[id].logs then [Log(id, LogSuccess, false)] else []
    {
      var t := tasks[id];
      stop := *;
      var early: bool := *;
      if t.logs && !(stop.Some? && early) {
        SaveLog(id, LogSuccess, false);
      }
      if stop.Some? {
        Write(id, Unrecorded(t));
      } else {
        Write(id, t.(succeeded := t.succeeded + 1));
        Finalize(id, now);
      }
    }

    /** Every attempt failed: a recurrent task goes on, a oneshot is over, unless that is not written. */
    method GiveUpOn(id: Id, now: Time, attempts: nat) returns (stop: Option<Stop>)
      requires id in tasks && tasks[id].status.Running? && tasks[id].retries == attempts
      modifies `tasks
      ensures id in tasks && tasks == old(tasks)[id := tasks[id]]
      ensures tasks[id] == Executed(old(tasks)[id],
                                    if stop.Some? then Stopped(stop.value, false) else Failing(now), cron)
    {
      var t := tasks[id];
      assert tasks == tasks[id := t];
      stop := *;
      if stop.Some? {
        return;
      }
      if t.kind.Recurrent? {
        Write(id, Advanced(t, cron, now));
      } else {
        Write(id, t.(status := Failed, retries := attempts));
      }
    }

    /** The end of an execution. */
    method Conclude(id: Id, now: Time, success: bool, attempts: nat) returns (stop: Option<Stop>, ghost ending: Ending)
      requires id in tasks && tasks[id].status.Running? && (!success ==> tasks[id].retries == attempts)
      modifies this
      ensures id in tasks && tasks == old(tasks)[id := tasks[id]]
      ensures tasks[id] == Executed(old(tasks)[id], ending, cron)
      ensures if stop.Some? then ending == Stopped(stop.value, success)
              else ending == if success then Recorded(now) else Failing(now)
      ensures stop.None? ==>
                logs == old(logs) + if success && old(tasks)[id].logs then [Log(id, LogSuccess, false)] else []
    {
      if success {
        stop := Succeed(id, now);
      } else {
        stop := GiveUpOn(id, now, attempts);
      }
      ending := if stop.Some? then Stopped(stop.value, success) else if success then Recorded(now) else Failing(now);
    }

    /** The row is marked, the trigger tried, and the outcome written at `end`: one execution, if it begins at all. */
    method Perform(id: Id, start: Time)
      returns (stop: Option<Stop>, success: bool, attempts: nat, end: Time, ghost ending: Option<Ending>,
               ghost retries: nat)
      requires id in tasks && Due(tasks[id], start)
      modifies this
      ensures id in tasks && tasks == old(tasks)[id := tasks[id]] && attempts <= 1 + maxRetries
      ensures ending.None? ==> stop.Some? && tasks == old(tasks)
      ensures ending.Some? ==> Moved(old(tasks)[id], Execution(start, retries, ending.value), cron) == Some(tasks[id])
      ensures stop.None? ==> ending == Some(if success then Recorded(end) else Failing(end))
      ensures stop.Some? && ending.Some? ==> ending.value == Stopped(stop.value, success)
      ensures stop.None? ==> (!success ==> attempts == 1 + maxRetries) 
                             && logs == old(logs) + Report(id, old(tasks)[id].logs, success, attempts)
    {
      ending, retries, success, attempts, end := None, 0, false, 0, start;
      stop := *;
      if stop.Some? {
        return;
      }
      ghost var t := tasks[id];
      Write(id, tasks[id].(status := Running, begun := tasks[id].begun + 1));
      success, attempts, stop := Attempt(id);
      end := *;
      retries := tasks[id].retries;
      ghost var tried := tasks[id];
      assert tried == t.(status := Running, begun := t.begun + 1, retries := retries);
      assert tasks == old(tasks)[id := tried];
      if stop.Some? {
        ending := Some(Stopped(stop.value, false));
      } else {
        ghost var conclusion: Ending;
        ghost var before := logs;
        stop, conclusion := Conclude(id, end, success, attempts);
        assert stop.None? ==>
            logs == before + if success && t.logs then [Log(id, LogSuccess, false)] else [];
        ending := Some(conclusion);
      }
    }

    /**
     Runs a task that is due, with its retries, and closes the execution. `stop`: the process died at some
     await or the repository raised, after which the row says running if the execution had begun.
     */
    method ExecuteTask(id: Id, start: Time)
      returns (stop: Option<Stop>, success: bool, attempts: nat, end: Time)
      requires Valid() && id in tasks && Due(tasks[id], start)
      modifies this
      ensures Valid() && OnlyAt(id) && attempts <= 1 + maxRetries
      ensures if stop.Some? then Cut(old(tasks)[id], tasks[id])
              else Closed(old(tasks)[id], tasks[id], success, cron, end)
      ensures stop.None? ==> (!success ==> attempts == 1 + maxRetries) 
                             && logs == old(logs) + Report(id, old(tasks)[id].logs, success, attempts)
      ensures Leads(old(tasks)[id], tasks[id], cron)
    {
      ghost var before := tasks[id];
      ghost var ending, retries;
      stop, success, attempts, end, ending, retries := Perform(id, start);
      LeadsNowhere(before, cron);
      if ending.Some? {
        LeadsOn(before, before, Execution(start, retries, ending.value), cron);
        MoveKeepsBalance(before, Execution(start, retries, ending.value), cron);
        ExecutionCloses(before, start, retries, ending.value, cron, end);
      }
    }

    /** A manual run leaves every row as it was. */
    method RunNow(id: Id) returns (found: bool, success: bool)
      modifies `logs
      ensures found <==> id in tasks
      ensures logs == old(logs) + if found && tasks[id].logs
                                  then [Log(id, if success then LogSuccess else LogFailed, true)] else []
    {
      if id !in tasks {
        return false, false;
      }
      found := true;
      success := *;
      if tasks[id].logs {
        SaveLog(id, if success then LogSuccess else LogFailed, true);
      }
    }

    /**
     After a restart nothing is running and nothing enabled is due; countdowns, successes and the last
     run are as they were. Each row that was running or due is logged once, if it is logged.
     */
    method Recover(now: Time) returns (ghost stuck: seq<Log>, ghost missed: seq<Log>)
      requires Valid()
      modifies this
      ensures Valid() && tasks.Keys == old(tasks).Keys
      ensures forall id | id in tasks :: Restarted(old(tasks)[id], tasks[id], cron, now)
      ensures forall id | id in tasks :: !tasks[id].status.Running? && !Due(tasks[id], now)
      ensures forall id | id in tasks :: Leads(old(tasks)[id], tasks[id], cron)
      ensures logs == old(logs) + stuck + missed
      ensures OneEach(stuck, Stuck(old(tasks)), LogFailed)
      ensures OneEach(missed, Overdue(old(tasks), now), LogMissed)
    {
      ghost var before := tasks;
      stuck := RecoverStuck(now);
      ghost var between := tasks;
      missed := RecoverMissed(now);
      forall id | id in tasks
        ensures Restarted(before[id], tasks[id], cron, now) && Balanced(tasks[id])
        ensures !tasks[id].status.Running? && !Due(tasks[id], now) && Leads(before[id], tasks[id], cron)
        ensures (Due(between[id], now) <==> Due(before[id], now)) && between[id].logs == before[id].logs
      {
        RecoversInTwoParts(before[id], cron, now);
        LeadsNowhere(before[id], cron);
        LeadsOn(before[id], before[id], Recovery(now), cron);
      }
      assert Overdue(between, now) == Overdue(before, now);
    }

    /** The logged rows that a restart finds running. */
    static function Stuck(rows: map<Id, Task>): set<Id> {
      set id | id in rows && rows[id].status.Running? && rows[id].logs
    }

    /** The logged rows whose slot passed while nothing ran. */
    static function Overdue(rows: map<Id, Task>, now: Time): set<Id> {
      set id | id in rows && Due(rows[id], now) && rows[id].logs
    }

    /** Those of the rows that are logged. */
    static function Noted(rows: map<Id, Task>, ids: set<Id>): set<Id> {
      set id | id in ids && id in rows && rows[id].logs
    }

    static function Noting(t: Task, id: Id, status: LogStatus): seq<Log> {
      if t.logs then [Log(id, status, false)] else []
    }

    /** What the rows log, in this order. */
    static function Entries(rows: map<Id, Task>, order: seq<Id>, status: LogStatus): seq<Log> {
      if order == [] then []
      else
        var id := order[|order| - 1];
        Entries(rows, order[..|order| - 1], status) + if id in rows then Noting(rows[id], id, status) else []
    }

    static lemma {:induction false} EntriesAreOneEach(rows: map<Id, Task>, order: seq<Id>, status: LogStatus)
      requires forall i, j | 0 <= i < j < |order| :: order[i] != order[j]
      ensures OneEach(Entries(rows, order, status), Noted(rows, set id | id in order), status)
      decreases |order|
    {
      if order != [] {
        var before, id := order[..|order| - 1], order[|order| - 1];
        EntriesAreOneEach(rows, before, status);
        assert order == before + [id];
        assert id !in before;
        if id in rows && rows[id].logs {
          OneMore(Entries(rows, before, status), Noted(rows, set i | i in before), id, status);
          assert Noted(rows, set i | i in order) == Noted(rows, set i | i in before) + {id};
        } else {
          assert Noted(rows, set i | i in order) == Noted(rows, set i | i in before);
        }
      }
    }

    /** A row that a restart ends or, if it is recurrent, arms anew. */
    static function Ended(t: Task, ending: Status, cron: (Text, Time) -> Time, now: Time): Task {
      if t.kind.Oneshot? then t.(status := ending) else Advanced(t, cron, now)
    }

    /** One entry for each of the ids, and none else. */
    static ghost predicate OneEach(added: seq<Log>, ids: set<Id>, status: LogStatus) {
      && (forall l :: l in added <==> l.id in ids && l == Log(l.id, status, false))
      && (forall i, j | 0 <= i < j < |added| :: added[i] != added[j])
    }

    static lemma OneMore(added: seq<Log>, ids: set<Id>, id: Id, status: LogStatus)
      requires OneEach(added, ids, status) && id !in ids
      ensures OneEach(added + [Log(id, status, false)], ids + {id}, status)
    {
    }

    /** Each of the rows is logged, if it is logged at all, and over or armed anew. */
    method RecoverRows(ids: set<Id>, ending: Status, status: LogStatus, now: Time) returns (ghost added: seq<Log>)
      requires ids <= tasks.Keys
      modifies this
      ensures tasks.Keys == old(tasks).Keys
      ensures forall id | id in tasks && id !in ids :: tasks[id] == old(tasks)[id]
      ensures forall id | id in ids :: tasks[id] == Ended(old(tasks)[id], ending, cron, now)
      ensures logs == old(logs) + added && OneEach(added, Noted(old(tasks), ids), status)
    {
      var todo := ids;
      ghost var was, logged, order := tasks, logs, [];
      assert Halfway(was, tasks, logged, logs, ids, todo, order, ending, status, cron, now);
      hide Halfway, Ended, OneEach, Noted;
      while todo != {}
        invariant Halfway(was, tasks, logged, logs, ids, todo, order, ending, status, cron, now)
        decreases |todo|
      {
        var id :| id in todo;
        OneRowOn(was, tasks, logged, logs, ids, todo, order, ending, status, cron, now, id);
        todo, order := todo - {id}, order + [id];
        RecoverRow(id, ending, status, now);
      }
      added := AllRowsDone(was, tasks, logged, logs, ids, order, ending, status, cron, now);
    }

    /** Recovering the rows one by one: those in `order` are done, those in `todo` are not. */
    static ghost predicate Halfway(was: map<Id, Task>, rows: map<Id, Task>, logged: seq<Log>, logs: seq<Log>,
                                   ids: set<Id>, todo: set<Id>, order: seq<Id>, ending: Status, status: LogStatus,
                                   cron: (Text, Time) -> Time, now: Time) {
      && todo <= ids <= was.Keys == rows.Keys
      && (forall id | id in rows :: rows[id] == if id in order then Ended(was[id], ending, cron, now) else was[id])
      && (forall id :: id in order <==> id in ids && id !in todo)
      && (forall i, j | 0 <= i < j < |order| :: order[i] != order[j])
      && logs == logged + Entries(was, order, status)
    }

    static lemma OneRowOn(was: map<Id, Task>, rows: map<Id, Task>, logged: seq<Log>, logs: seq<Log>, ids: set<Id>,
                          todo: set<Id>, order: seq<Id>, ending: Status, status: LogStatus,
                          cron: (Text, Time) -> Time, now: Time, id: Id)
      requires Halfway(was, rows, logged, logs, ids, todo, order, ending, status, cron, now) && id in todo
      ensures id in rows
      ensures Halfway(was, rows[id := Ended(rows[id], ending, cron, now)], logged, logs + Noting(rows[id], id, status),
                      ids, todo - {id}, order + [id], ending, status, cron, now)
    {
      assert (order + [id])[..|order|] == order;
    }

    static lemma AllRowsDone(was: map<Id, Task>, rows: map<Id, Task>, logged: seq<Log>, logs: seq<Log>, ids: set<Id>,
                             order: seq<Id>, ending: Status, status: LogStatus, cron: (Text, Time) -> Time, now: Time)
      returns (added: seq<Log>)
      requires Halfway(was, rows, logged, logs, ids, {}, order, ending, status, cron, now)
      ensures rows.Keys == was.Keys
      ensures forall id | id in rows && id !in ids :: rows[id] == was[id]
      ensures forall id | id in ids :: id in rows && rows[id] == Ended(was[id], ending, cron, now)
      ensures logs == logged + added && OneEach(added, Noted(was, ids), status)
    {
      added := Entries(was, order, status);
      EntriesAreOneEach(was, order, status);
      assert (set id | id in order) == ids;
    }

    method RecoverRow(id: Id, ending: Status, status: LogStatus, now: Time)
      requires id in tasks
      modifies this
      ensures tasks == old(tasks)[id := Ended(old(tasks)[id], ending, cron, now)]
      ensures logs == old(logs) + Noting(old(tasks)[id], id, status)
    {
      var t := tasks[id];
      if t.logs {
        SaveLog(id, status, false);
      }
      Write(id, if t.kind.Oneshot? then t.(status := ending) else Advanced(t, cron, now));
    }

    method RecoverStuck(now: Time) returns (ghost added: seq<Log>)
      modifies this
      ensures tasks.Keys == old(tasks).Keys
      ensures forall id | id in tasks :: tasks[id] == Unstuck(old(tasks)[id], cron, now)
      ensures logs == old(logs) + added && OneEach(added, Stuck(old(tasks)), LogFailed)
    {
      var ids := set id | id in tasks && tasks[id].status.Running?;
      assert Noted(tasks, ids) == Stuck(tasks);
      added := RecoverRows(ids, Failed, LogFailed, now);
    }

    method RecoverMissed(now: Time) returns (ghost added: seq<Log>)
      modifies this
      ensures tasks.Keys == old(tasks).Keys
      ensures forall id | id in tasks :: tasks[id] == Unmissed(old(tasks)[id], cron, now)
      ensures logs == old(logs) + added && OneEach(added, Overdue(old(tasks), now), LogMissed)
    {
      var ids := set id | id in tasks && Due(tasks[id], now);
      assert Noted(tasks, ids) == Overdue(tasks, now);
      added := RecoverRows(ids, Missed, LogMissed, now);
    }

    /** One turn of the loop at some time: the earliest task, if its slot has come. */
    method Tick(now: Time) returns (ran: Option<Id>, stop: Option<Stop>)
      requires Valid()
      modifies this
      ensures Valid() && tasks.Keys == old(tasks).Keys
      ensures ran.None? ==> tasks == old(tasks) && stop.None? && forall id | id in tasks :: !Due(tasks[id], now)
      ensures ran.Some? ==> ran.value in tasks && OnlyAt(ran.value) && Due(old(tasks)[ran.value], now)
                            && forall j | j in tasks && Waits(old(tasks)[j]) ::
                                 old(tasks)[ran.value].nextRun.value <= old(tasks)[j].nextRun.value
      ensures ran.Some? && stop.None? ==>
                exists success, end :: Closed(old(tasks)[ran.value], tasks[ran.value], success, cron, end)
      ensures forall id | id in tasks :: Leads(old(tasks)[id], tasks[id], cron)
    {
      forall id | id in tasks ensures Leads(tasks[id], tasks[id], cron) {
        LeadsNowhere(tasks[id], cron);
      }
      ran := NextDue();
      stop := None;
      if ran.None? {
        return;
      }
      if tasks[ran.value].nextRun.value > now {
        return None, None;
      }
      var success, attempts, end;
      stop, success, attempts, end := ExecuteTask(ran.value, now);
    }

    /** A restart, or a turn of the loop that may be the last before one; if something raised, the loop goes on. */
    method LiveOn()
      requires Valid()
      modifies this
      ensures Valid() && tasks.Keys == old(tasks).Keys
      ensures forall id | id in tasks :: Leads(old(tasks)[id], tasks[id], cron)
    {
      var now: Time := *;
      if * {
        ghost var _, _ := Recover(now);
      } else {
        var ran, stop := Tick(now);
        if stop == Some(Died) {
          var later: Time := *;
          ghost var before := tasks;
          ghost var _, _ := Recover(later);
          forall id | id in tasks ensures Leads(old(tasks)[id], tasks[id], cron) {
            LeadsAcross(old(tasks)[id], before[id], tasks[id], cron);
          }
        }
      }
    }

    /**
     Any run of the service, with failures, manual runs, calls of the repository that raise, and deaths at
     any await followed by restarts: countdowns stay exact and a oneshot task is executed at most once.
     */
    method Serve(steps: nat)
      requires Valid()
      modifies this
      ensures Valid() && tasks.Keys == old(tasks).Keys
      ensures forall id | id in tasks && tasks[id].kind.Recurrent? && tasks[id].total.Some?
              && tasks[id].total.value >= 1 ::
                if tasks[id].status.Completed? then tasks[id].recorded == tasks[id].total.value
                else tasks[id].remaining == Some(tasks[id].total.value - tasks[id].recorded)
      ensures forall id | id in tasks && tasks[id].kind.Oneshot? :: tasks[id].begun <= 1
      ensures forall id | id in tasks :: tasks[id].succeeded == tasks[id].recorded + tasks[id].lost
      ensures forall id | id in tasks :: Lives(old(tasks)[id], tasks[id], cron)
    {
      hide Lives, Leads;
      var n := steps;
      forall id | id in tasks ensures Leads(tasks[id], tasks[id], cron) {
        LeadsNowhere(tasks[id], cron);
      }
      while n > 0
        invariant Valid() && tasks.Keys == old(tasks).Keys
        invariant forall id | id in tasks :: Leads(old(tasks)[id], tasks[id], cron)
      {
        n := n - 1;
        if * {
          var id: Id := *;
          var _, _ := RunNow(id);
        } else {
          ghost var before := tasks;
          LiveOn();
          forall id | id in tasks ensures Leads(old(tasks)[id], tasks[id], cron) {
            LeadsAcross(old(tasks)[id], before[id], tasks[id], cron);
          }
        }
      }
      forall id | id in tasks ensures Lives(old(tasks)[id], tasks[id], cron) {
        LeadsLives(old(tasks)[id], tasks[id], cron);
      }
    }
  }
}
