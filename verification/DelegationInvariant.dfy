/**
 What every step of a delegation's life keeps. Each predicate takes only the parts of the life it
 speaks of, so that a step which leaves those parts alone keeps it at once.
 */
module DelegationInvariant {
  import opened Wrappers
  import opened DelegationLife

  // ---------------------------------------------------------------------------
  // Views of a life
  // ---------------------------------------------------------------------------

  /** The status of a task that is in the dict. */
  function Doing(l: Life): Option<Status> {
    if l.live && l.task.Some? then Some(l.task.value.status) else None
  }

  /** The stamp of the pause the task is in. */
  function PauseOf(l: Life): Option<nat> {
    if Is(l, AwaitingInput) then l.task.value.finishedAt else None
  }

  /** The task has left the runner's hands. */
  predicate Over(l: Life) {
    l.task.Some? && (l.task.value.status.DeliveryFailed? || Terminal(l.task.value.status))
  }

  /** The runner that cancel would cut. */
  function Held(crew: Crew): Pc {
    if crew.handle.Some? && crew.handle.value < |crew.runners| then crew.runners[crew.handle.value] else Done
  }

  /** The ticket of the resume that is inside its write. */
  function RequeueTicket(desk: Desk): Option<nat> {
    if desk.reservation.Some? && desk.reservation.value < |desk.calls| && desk.calls[desk.reservation.value].Requeueing?
    then Some(desk.calls[desk.reservation.value].ticket) else None
  }

  // ---------------------------------------------------------------------------
  // Who runs the task
  // ---------------------------------------------------------------------------

  predicate Shape(l: Life) {
    && (l.mode.Down? ==> l == Remains(l))
    && (l.task.None? ==> !l.live && l.entries == 0 && l.crew == NO_CREW && l.desk.answer.None?
                         && l.desk.reservation.None?)
    && (l.task.Some? && l.live ==> !Terminal(l.task.value.status))
    && (l.task.Some? && !l.live ==> Terminal(l.task.value.status) || Is(l, Interrupted))
    && (l.task.Some? && !l.disk.broken ==> l.disk.row.Some?)
    && (Is(l, AwaitingInput) ==> l.task.value.finishedAt.Some?)
    && (!l.born ==> l.task.None? && !l.creating && l.disk == UNBORN.disk && l.tally == UNBORN.tally)
    && (l.creating ==> l.task.None? && !l.disk.broken && l.disk.writes == [] && l.disk.row == Some(FRESH_TASK))
  }

  predicate Working(pc: Pc) {
    !pc.Pausing? && !pc.Asking? && !pc.Asked? && !pc.Done?
  }

  predicate Executing(pc: Pc) {
    pc.Starting? || pc.Child? || pc.Marking?
  }

  predicate HandingOver(pc: Pc) {
    pc.Handing? || pc.Dispatching? || pc.Dispatched?
  }

  /** Every runner is reachable, and only the held one works on the task. */
  predicate Owned(crew: Crew, up: bool, doing: Option<Status>, over: bool, pause: Option<nat>) {
    && (crew.handle.Some? ==> crew.handle.value < |crew.runners|)
    && (forall r | r in crew.lingering :: r < |crew.runners|)
    && (forall r | 0 <= r < |crew.runners| ::
          var pc := crew.runners[r];
          && (!pc.Done? ==> up && (crew.handle == Some(r) || r in crew.lingering))
          && (Working(pc) ==> crew.handle == Some(r) && r !in crew.lingering)
          && (pc.Waiting? ==> doing == Some(Queued))
          && (Executing(pc) ==> doing == Some(Running))
          && (HandingOver(pc) ==> doing == Some(Delivering))
          && (pc.Closing? ==> over)
          && ((pc.Pausing? || pc.Asking?) && pause == Some(pc.stamp) ==> crew.handle == Some(r)
                                                                         && r !in crew.lingering))
    && (up && doing == Some(Running) ==> Executing(Held(crew)))
    && (up && doing == Some(Delivering) ==> HandingOver(Held(crew)))
  }

  /** A queued task is in exactly one place: an entry, a waiting runner or a resume's write. */
  predicate Placed(entries: nat, up: bool, doing: Option<Status>, crew: Crew, requeues: bool) {
    && (up && doing.Some? && entries > 0 ==> doing == Some(Queued))
    && (up && doing == Some(Queued) ==>
          && entries <= 1
          && (entries == 1 ==> !requeues && crew.handle.None?)
          && (requeues ==> crew.handle.None?)
          && (entries == 0 ==> Held(crew).Waiting? != requeues))
  }

  // ---------------------------------------------------------------------------
  // Reservations, answers and pauses
  // ---------------------------------------------------------------------------

  predicate Won(c: Call) {
    c.Returned? && c.outcome.Resumed?
  }

  /** The call spends the pause it saw. */
  predicate Claims(c: Call) {
    c.Requeueing? || Won(c)
  }

  predicate Reserved(desk: Desk, up: bool, known: bool, doing: Option<Status>, starting: bool) {
    && (forall c | 0 <= c < |desk.calls| :: !desk.calls[c].Returned? ==> desk.reservation == Some(c))
    && (desk.reservation.Some? ==> desk.reservation.value < |desk.calls|
                                   && !desk.calls[desk.reservation.value].Returned?)
    && (!known ==> forall c | 0 <= c < |desk.calls| :: !Claims(desk.calls[c]))
    && (doing == Some(Running) ==> desk.reservation.None?)
    && (doing == Some(Queued) ==> desk.reservation.None? || RequeueTicket(desk).Some?)
    && (desk.answer.Some? ==>
          && (doing == Some(Queued) || (doing == Some(Running) && starting))
          && desk.answer.value.call < |desk.calls|
          && desk.answer.value.call !in desk.taken
          && Claims(desk.calls[desk.answer.value.call]))
    && (up && RequeueTicket(desk).Some? && doing == Some(Queued) ==>
          desk.answer.Some? && desk.reservation == Some(desk.answer.value.call))
    && (forall c | c in desk.taken :: c < |desk.calls| && Won(desk.calls[c]))
    && (forall i, j | 0 <= i < j < |desk.taken| :: desk.taken[i] != desk.taken[j])
  }

  /** Which pause each call and each dismissal saw; a pause is spent once. */
  predicate Stamped(desk: Desk, pause: Option<nat>, clock: nat) {
    && (pause.Some? ==> pause.value < clock)
    && (forall c | 0 <= c < |desk.calls| ::
          && (Claims(desk.calls[c]) || desk.calls[c].Reopening? ==> desk.calls[c].stamp < clock)
          && (desk.calls[c].Reopening? && pause.Some? ==> pause == Some(desk.calls[c].stamp))
          && (Claims(desk.calls[c]) ==> desk.calls[c].stamp !in desk.dismissed && pause != Some(desk.calls[c].stamp)))
    && (forall c, d | 0 <= c < d < |desk.calls| ::
          Claims(desk.calls[c]) && Claims(desk.calls[d]) ==> desk.calls[c].stamp != desk.calls[d].stamp)
    && (forall p | p in desk.dismissed :: p < clock && pause != Some(p))
  }

  predicate Questioned(crew: Crew, clock: nat) {
    forall r | 0 <= r < |crew.runners| :: crew.runners[r].Pausing? || crew.runners[r].Asking? ==>
        crew.runners[r].stamp < clock
  }

  predicate RowAwaits(row: Option<Task>) {
    row.Some? && row.value.status.AwaitingInput?
  }

  predicate Stored(row: Option<Task>, writes: seq<Write>, clock: nat) {
    && (RowAwaits(row) ==> row.value.finishedAt.Some? && row.value.finishedAt.value < clock)
    && (forall i | 0 <= i < |writes| :: writes[i].WAwaiting? ==> writes[i].stamp < clock)
  }

  // ---------------------------------------------------------------------------
  // What the disk could still bring back
  // ---------------------------------------------------------------------------

  predicate NoPausePending(writes: seq<Write>) {
    forall i | 0 <= i < |writes| :: !writes[i].WAwaiting?
  }

  /** No crash, now or after pending writes, finds a pause on disk. */
  predicate NoPauseOnDisk(d: Disk) {
    !RowAwaits(d.row) && NoPausePending(d.writes)
  }

  predicate NoRequeuePending(writes: seq<Write>) {
    forall i | 0 <= i < |writes| :: !writes[i].WQueued?
  }

  /** Writes that can break persistence only lie before position `n`. */
  predicate HardBefore(writes: seq<Write>, n: int) {
    forall i | 0 <= i < |writes| :: Hard(writes[i]) ==> i < n
  }

  /** The write that a ticket waits for is at this position. */
  function Position(d: Disk, ticket: nat): int {
    ticket - 1 - d.settled
  }

  predicate Ordered(writes: seq<Write>) {
    forall i, j | 0 <= i < j < |writes| :: writes[i].WQueued? ==> !writes[j].WAwaiting? && !writes[j].WQueued?
  }

  /** A requeue under way lies where its call waits for it. */
  predicate LinedRequeue(d: Disk, n: int) {
    && (n >= 0 ==> n < |d.writes| && d.writes[n].WQueued?)
    && (n < 0 ==> NoRequeuePending(d.writes))
    && (!d.broken ==> HardBefore(d.writes, n + 1))
    && (!d.broken && n < 0 ==> !RowAwaits(d.row))
  }

  /** A pause under way lies where its runner waits for it. */
  predicate LinedPause(d: Disk, n: int) {
    && (n >= 0 ==>
          && !d.broken && !RowAwaits(d.row)
          && n < |d.writes| && d.writes[n].WAwaiting?
          && (forall i | 0 <= i < |d.writes| :: i < n ==> !Hard(d.writes[i]))
          && (forall i | 0 <= i < |d.writes| :: i > n ==> !d.writes[i].WAwaiting?))
    && (n < 0 && d.broken ==> NoPauseOnDisk(d))
  }

  predicate Lined(d: Disk, up: bool, doing: Option<Status>, pause: Option<nat>, held: Pc, requeue: Option<nat>) {
    && Ordered(d.writes)
    && (pause.Some? ==> NoRequeuePending(d.writes))
    && (up && doing.Some? && !NoRequeuePending(d.writes) ==> doing == Some(Queued) && requeue.Some?)
    && (up && !d.broken && doing == Some(Queued) && requeue.None? ==> HardBefore(d.writes, 0) && !RowAwaits(d.row))
    && (up && !d.broken && held.Child? ==> HardBefore(d.writes, 0) && !RowAwaits(d.row))
    && (up && !d.broken && held.Starting? ==>
          HardBefore(d.writes, Position(d, held.ticket) + 1) && !RowAwaits(d.row) && NoPausePending(d.writes))
    && (up && requeue.Some? && doing == Some(Queued) ==> LinedRequeue(d, Position(d, requeue.value)))
    && (up && held.Pausing? && pause == Some(held.stamp) ==> LinedPause(d, Position(d, held.ticket)))
  }

  /** This process may still dispatch a final result. */
  predicate MayDeliver(up: bool, creating: bool, doing: Option<Status>, held: Pc) {
    up && (creating || doing == Some(Queued) || doing == Some(Running) || doing == Some(AwaitingInput)
           || (doing == Some(Delivering) && !held.Dispatched?))
  }

  /** One final result per task, plus one for each requeue that did not reach the store. */
  predicate Righted(tally: Tally, d: Disk, mayDeliver: bool, paused: bool) {
    && tally.delivered <= 1 + tally.lost
    && (mayDeliver ==> tally.delivered <= tally.lost)
    && (!NoPauseOnDisk(d) && !mayDeliver ==> tally.delivered <= tally.lost)
    && (!NoPauseOnDisk(d) && mayDeliver && !paused && NoRequeuePending(d.writes) ==> tally.delivered + 1 <= tally.lost)
  }

  // ---------------------------------------------------------------------------
  // The iteration budget
  // ---------------------------------------------------------------------------

  /** A pause that stored `used` is exact: it counts every pass and leaves one. */
  predicate Exact(tally: Tally, said: nat, max: nat, used: nat) {
    used == tally.passes && used == said && used < max && tally.pauses <= used
  }

  /** While queued or starting: a first phase, or one whose answer carries the count so far. */
  predicate Counted(tally: Tally, max: nat, used: nat, answer: Option<Answer>) {
    && used == tally.passes && tally.pauses <= tally.passes
    && (answer.None? ==> tally.passes == 0)
    && (answer.Some? ==> answer.value.pre == tally.passes && tally.passes < max)
  }

  predicate Budgeted(l: Life) {
    l.tally.lost == 0 ==>
      && l.tally.passes <= l.max
      && (l.tally.pauses == 0 || l.tally.pauses < l.max)
      && (l.creating ==> l.tally.passes == 0 && l.tally.pauses == 0)
      && (Up(l) && (IsLive(l, Queued) || (IsLive(l, Running) && Held(l.crew).Starting?)) ==>
            Counted(l.tally, l.max, l.task.value.used, l.desk.answer))
      && (Up(l) && Held(l.crew).Child? ==>
            var pc := Held(l.crew);
            && l.tally.pauses <= pc.pre && pc.pre + pc.passes == l.tally.passes
            && pc.passes <= pc.budget && pc.pre + pc.budget == l.max && (pc.talk.Final? ==> pc.passes > 0))
      && (Is(l, AwaitingInput) ==> Exact(l.tally, l.disk.script.said, l.max, l.task.value.used))
      && (RowAwaits(l.disk.row) ==> Exact(l.tally, l.disk.script.said, l.max, l.disk.row.value.used))
      && (forall i | 0 <= i < |l.disk.writes| ::
            l.disk.writes[i].WAwaiting? ==> Exact(l.tally, l.disk.script.said, l.max, l.disk.writes[i].used))
  }

  predicate CrewInv(l: Life) {
    && Shape(l)
    && Owned(l.crew, Up(l), Doing(l), Over(l), PauseOf(l))
    && Placed(l.entries, Up(l), Doing(l), l.crew, RequeueTicket(l.desk).Some?)
    && Reserved(l.desk, Up(l), l.task.Some?, Doing(l), Held(l.crew).Starting?)
    && Stamped(l.desk, PauseOf(l), l.clock)
    && Questioned(l.crew, l.clock)
  }

  predicate OrderInv(l: Life) {
    && Stored(l.disk.row, l.disk.writes, l.clock)
    && Lined(l.disk, Up(l), Doing(l), PauseOf(l), Held(l.crew), RequeueTicket(l.desk))
  }

  predicate AccountInv(l: Life) {
    && Righted(l.tally, l.disk, MayDeliver(Up(l), l.creating, Doing(l), Held(l.crew)), Is(l, AwaitingInput))
    && Budgeted(l)
  }

  predicate DiskInv(l: Life) {
    OrderInv(l) && AccountInv(l)
  }

  predicate Inv(l: Life) {
    CrewInv(l) && DiskInv(l)
  }
}
