// The background job lifecycle of internal/sandbox/jobs.go as a transition system.
//
// Every shared-memory access of every thread is one step, so the compare-and-swap on a
// job's state, the write of outcome and finishedAt, the notifier call, close(done) and
// wg.Done interleave freely with concurrent Cancels, Waits, Shutdown and the TTL reaper.
// A step is named by a Label that carries everything the step does not determine itself
// (what run returned, which thread moves); Apply is then a function of state and label.

module JobProtocol {
  import opened Common

  /** Jobs are numbered in creation order; the number stands for the "job-<uuid>" handle. */
  type JobId = nat

  datatype JobState = Running | Succeeded | Failed | Cancelled

  predicate IsTerminal(st: JobState) {
    st == Succeeded || st == Failed || st == Cancelled
  }

  datatype JobOutcome = JobOutcome(
    resultText: string, outputPath: string, exitCode: int, costUSD: real, totalUsageUSD: real)

  const ZERO_OUTCOME := JobOutcome("", "", 0, 0.0, 0.0)

  /** What the run function did; a history variable. */
  datatype RunResult = NotRun | Ret(outcome: JobOutcome, failed: bool) | Panic

  /** Which thread won the compare-and-swap; a history variable. */
  datatype Winner = NoWinner | ByReturn | ByPanic | ByCancel(thread: nat)

  /** Where the job's goroutine is; each value names the step that comes next. */
  datatype GoPc =
    | Unspawned                                  // registered, before wg.Add(1)
    | Added                                      // before the go statement
    | InRun                                      // inside run
    | Returned(ret: JobOutcome, failed: bool)    // before the compare-and-swap
    | WonReturn(ret: JobOutcome, status: JobState)  // before writing outcome and finishedAt
    | NotifyReturn(status: JobState)             // before calling the notifier
    | Panicked                                   // in the recover handler, before its compare-and-swap
    | WonPanic                                   // before writing finishedAt
    | NotifyPanic                                // before calling the notifier
    | Closing                                    // before close(done)
    | Leaving                                    // before wg.Done
    | Exited

  datatype Job = Job(
    parent: Option<JobId>,
    hasNotify: bool,
    state: JobState,
    outcome: JobOutcome,
    finishedAt: Option<int>,
    done: bool,
    ctxCancelled: bool,
    pc: GoPc,
    ran: RunResult,
    winner: Winner,
    notified: seq<JobState>)

  /** One activation of cancelSubtree: its children snapshot and the next child to visit. */
  datatype Frame = Frame(id: JobId, kids: seq<JobId>, next: nat)

  datatype CancelPc =
    | Entering(id: JobId)    // a call of cancelSubtree(id), before the snapshot under the read lock
    | Walking                // in the child loop of the top frame, or before its compare-and-swap
    | Flipped(id: JobId)     // won, before writing finishedAt
    | Stamped(id: JobId)     // before j.cancel()
    | Signalled(id: JobId)   // before calling the notifier
    | Complete               // the outermost call returned

  datatype CancelThread = CancelThread(root: JobId, stack: seq<Frame>, pc: CancelPc)

  datatype WaitPc =
    | Found                  // the job was looked up, before the first state load
    | OnDone                 // fast path, blocked on done
    | Selecting              // blocked in the select statement
    | Observed               // done was seen closed, before the state load of buildWaitResult
    | Loaded(status: JobState)
    | Finished(status: JobState, outcome: JobOutcome)
    | TimedOut
    | Abandoned

  datatype Waiter = Waiter(id: JobId, pc: WaitPc)

  /** One reapExpired call; each registered job is visited once, in any order. */
  datatype Sweep = Sweep(cutoff: int, todo: set<JobId>)

  datatype Shutdown = Open | Waiting | Down

  datatype State = State(
    jobs: seq<Job>,                      // every job ever started
    registered: set<JobId>,              // the keys of m.jobs
    children: map<JobId, seq<JobId>>,    // m.children
    cancels: seq<CancelThread>,
    waiters: seq<Waiter>,
    sweep: Option<Sweep>,
    wg: int,
    shutdown: Shutdown,
    clock: int)

  const INIT := State([], {}, map[], [], [], None, 0, Open, 0)

  /** jobTTL, one hour, in the clock's unit (seconds). */
  const JOB_TTL := 3600

  /** What moves a job's goroutine: Start's tail, the run function, or its own next step. */
  datatype GoAct =
    | Add                                        // wg.Add(1)
    | Go                                         // the go statement
    | RunReturns(outcome: JobOutcome, failed: bool)
    | RunPanics
    | Advance
    | NotifierPanics

  datatype Label =
    | StartRegister(parent: Option<JobId>, hasNotify: bool)
    | Goroutine(id: JobId, act: GoAct)
    | CancelInvoke(id: JobId)
    | CancelStep(thread: nat)
    | SweepBegin
    | SweepVisit(id: JobId)
    | SweepEnd
    | WaitInvoke(id: JobId)
    | WaitStep(waiter: nat)
    | WaitTimesOut(waiter: nat)
    | WaitAbandoned(waiter: nat)
    | ShutdownCall
    | ShutdownReturn
    | Tick(elapsed: nat)

  function Kids(s: State, id: JobId): seq<JobId> {
    if id in s.children then s.children[id] else []
  }

  predicate GoEnabled(j: Job, act: GoAct) {
    match act
    case Add => j.pc == Unspawned
    case Go => j.pc == Added
    case RunReturns(_, _) => j.pc == InRun
    case RunPanics => j.pc == InRun
    case NotifierPanics => j.pc.NotifyReturn? && j.hasNotify
    case Advance =>
      j.pc.Returned? || j.pc.WonReturn? || j.pc.NotifyReturn? || j.pc.Panicked? || j.pc.WonPanic?
      || j.pc.NotifyPanic? || j.pc.Closing? || j.pc.Leaving?
  }

  predicate Enabled(s: State, l: Label) {
    match l
    case StartRegister(parent, _) => parent.Some? ==> parent.value < |s.jobs|
    case Goroutine(id, act) => id < |s.jobs| && GoEnabled(s.jobs[id], act)
    case CancelInvoke(id) => id in s.registered
    case CancelStep(t) => t < |s.cancels| && CancelEnabled(s, s.cancels[t])
    case SweepBegin => s.sweep.None?
    case SweepVisit(id) => s.sweep.Some? && id in s.sweep.value.todo && id < |s.jobs|
    case SweepEnd => s.sweep.Some? && s.sweep.value.todo == {}
    case WaitInvoke(id) => id in s.registered
    case WaitStep(w) => w < |s.waiters| && WaitEnabled(s, s.waiters[w])
    case WaitTimesOut(w) => w < |s.waiters| && s.waiters[w].pc == Selecting
    case WaitAbandoned(w) => w < |s.waiters| && s.waiters[w].pc == Selecting
    case ShutdownCall => s.shutdown == Open
    case ShutdownReturn => s.shutdown == Waiting && s.wg == 0
    case Tick(_) => true
  }

  predicate CancelEnabled(s: State, th: CancelThread) {
    match th.pc
    case Entering(_) => true
    case Walking =>
      |th.stack| > 0 && var top := th.stack[|th.stack| - 1]; top.next <= |top.kids| && top.id < |s.jobs|
    case Flipped(id) => |th.stack| > 0 && id < |s.jobs|
    case Stamped(id) => |th.stack| > 0 && id < |s.jobs|
    case Signalled(id) => |th.stack| > 0 && id < |s.jobs|
    case Complete => false
  }

  predicate WaitEnabled(s: State, w: Waiter) {
    w.id < |s.jobs| &&
    match w.pc
    case Found => true
    case OnDone => s.jobs[w.id].done
    case Selecting => s.jobs[w.id].done
    case Observed => true
    case Loaded(_) => true
    case _ => false
  }

  function Notify(j: Job, status: JobState): Job {
    if j.hasNotify then j.(notified := j.notified + [status]) else j
  }

  /** The goroutine's own steps after run: the completion path and the recover handler. */
  function Advanced(j: Job, clock: int): Job
    requires GoEnabled(j, Advance)
  {
    match j.pc
    case Returned(o, failed) =>
      var newState := if failed then Failed else Succeeded;
      if j.state == Running then j.(state := newState, winner := ByReturn, pc := WonReturn(o, newState))
      else j.(pc := Closing)
    case WonReturn(o, status) => j.(outcome := o, finishedAt := Some(clock), pc := NotifyReturn(status))
    case NotifyReturn(status) => Notify(j, status).(pc := Closing)
    case Panicked =>
      if j.state == Running then j.(state := Failed, winner := ByPanic, pc := WonPanic)
      else j.(pc := Closing)
    case WonPanic => j.(finishedAt := Some(clock), pc := NotifyPanic)
    case NotifyPanic => Notify(j, Failed).(pc := Closing)
    case Closing => j.(done := true, pc := Leaving)
    case Leaving => j.(pc := Exited)
  }

  /** One step of a job's goroutine, from the tail of Start to wg.Done (jobs.go:285-318). */
  function StepJob(j: Job, act: GoAct, clock: int): Job
    requires GoEnabled(j, act)
  {
    match act
    case Add => j.(pc := Added)
    case Go => j.(pc := InRun)
    case RunReturns(o, failed) => j.(ran := Ret(o, failed), pc := Returned(o, failed))
    case RunPanics => j.(ran := Panic, pc := Panicked)
    case Advance => Advanced(j, clock)
    case NotifierPanics => Notify(j, j.pc.status).(pc := Panicked)
  }

  function WgDelta(j: Job, act: GoAct): int {
    if act == Add then 1 else if act == Advance && j.pc == Leaving then -1 else 0
  }

  function SetJob(s: State, id: JobId, j: Job): State
    requires id < |s.jobs|
  {
    s.(jobs := s.jobs[id := j])
  }

  function SetCancel(s: State, t: nat, th: CancelThread): State
    requires t < |s.cancels|
  {
    s.(cancels := s.cancels[t := th])
  }

  function Pop(th: CancelThread): CancelThread
    requires |th.stack| > 0
  {
    var rest := th.stack[..|th.stack| - 1];
    th.(stack := rest, pc := if rest == [] then Complete else Walking)
  }

  /** One step of a cancelSubtree recursion (jobs.go:470-498). */
  function StepCancel(s: State, t: nat): State
    requires t < |s.cancels| && CancelEnabled(s, s.cancels[t])
  {
    var th := s.cancels[t];
    match th.pc
    case Entering(id) =>
      if id in s.registered then
        SetCancel(s, t, th.(stack := th.stack + [Frame(id, Kids(s, id), 0)], pc := Walking))
      else
        SetCancel(s, t, th.(pc := if th.stack == [] then Complete else Walking))
    case Walking =>
      var k := |th.stack| - 1;
      var top := th.stack[k];
      if top.next < |top.kids| then
        SetCancel(s, t, th.(stack := th.stack[k := top.(next := top.next + 1)], pc := Entering(top.kids[top.next])))
      else if s.jobs[top.id].state == Running then
        SetCancel(SetJob(s, top.id, s.jobs[top.id].(state := Cancelled, winner := ByCancel(t))),
                  t, th.(pc := Flipped(top.id)))
      else
        SetCancel(s, t, Pop(th))
    case Flipped(id) =>
      SetCancel(SetJob(s, id, s.jobs[id].(finishedAt := Some(s.clock))), t, th.(pc := Stamped(id)))
    case Stamped(id) =>
      SetCancel(SetJob(s, id, s.jobs[id].(ctxCancelled := true)), t, th.(pc := Signalled(id)))
    case Signalled(id) =>
      SetCancel(SetJob(s, id, Notify(s.jobs[id], Cancelled)), t, Pop(th))
  }

  /** One step of Wait and buildWaitResult (jobs.go:388-446). */
  function StepWait(s: State, w: Waiter): Waiter
    requires WaitEnabled(s, w)
  {
    var j := s.jobs[w.id];
    match w.pc
    case Found => w.(pc := if IsTerminal(j.state) then OnDone else Selecting)
    case OnDone => w.(pc := Observed)
    case Selecting => w.(pc := Observed)
    case Observed => w.(pc := Loaded(j.state))
    case Loaded(status) => w.(pc := Finished(status, j.outcome))
  }

  /** The reaper's condition on one job: terminal, finish time recorded, and older than the cutoff. */
  predicate Expired(j: Job, cutoff: int) {
    IsTerminal(j.state) && j.finishedAt.Some? && j.finishedAt.value < cutoff
  }

  function NewJob(parent: Option<JobId>, hasNotify: bool): Job {
    Job(parent, hasNotify, Running, ZERO_OUTCOME, None, false, false, Unspawned, NotRun, NoWinner, [])
  }

  function Apply(s: State, l: Label): State
    requires Enabled(s, l)
  {
    match l
    case StartRegister(parent, hasNotify) =>
      var id := |s.jobs|;
      s.(jobs := s.jobs + [NewJob(parent, hasNotify)],
         registered := s.registered + {id},
         children := if parent.Some?
                     then s.children[parent.value := Kids(s, parent.value) + [id]] else s.children)
    case Goroutine(id, act) =>
      SetJob(s, id, StepJob(s.jobs[id], act, s.clock)).(wg := s.wg + WgDelta(s.jobs[id], act))
    case CancelInvoke(id) => s.(cancels := s.cancels + [CancelThread(id, [], Entering(id))])
    case CancelStep(t) => StepCancel(s, t)
    case SweepBegin => s.(sweep := Some(Sweep(s.clock - JOB_TTL, s.registered)))
    case SweepVisit(id) =>
      var sw := s.sweep.value;
      var s' := s.(sweep := Some(sw.(todo := sw.todo - {id})));
      if Expired(s.jobs[id], sw.cutoff)
      then s'.(registered := s.registered - {id}, children := s.children - {id}) else s'
    case SweepEnd => s.(sweep := None)
    case WaitInvoke(id) => s.(waiters := s.waiters + [Waiter(id, Found)])
    case WaitStep(w) => s.(waiters := s.waiters[w := StepWait(s, s.waiters[w])])
    case WaitTimesOut(w) => s.(waiters := s.waiters[w := s.waiters[w].(pc := TimedOut)])
    case WaitAbandoned(w) => s.(waiters := s.waiters[w := s.waiters[w].(pc := Abandoned)])
    case ShutdownCall => s.(shutdown := Waiting)
    case ShutdownReturn => s.(shutdown := Down)
    case Tick(elapsed) => s.(clock := s.clock + elapsed)
  }

  /** A run: every label is enabled where it is taken. */
  ghost predicate Legal(s: State, ls: seq<Label>)
    decreases |ls|
  {
    ls == [] || (Enabled(s, ls[0]) && Legal(Apply(s, ls[0]), ls[1..]))
  }

  ghost function Exec(s: State, ls: seq<Label>): State
    requires Legal(s, ls)
    decreases |ls|
  {
    if ls == [] then s else Exec(Apply(s, ls[0]), ls[1..])
  }

  ghost predicate Reachable(s: State) {
    exists ls :: Legal(INIT, ls) && Exec(INIT, ls) == s
  }
}
