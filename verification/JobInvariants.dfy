// What every step of every thread keeps, and the safety results that follow for all runs.

module JobInvariants {
  import opened Common
  import opened JobProtocol

  // ---------------------------------------------------------------- one job

  predicate Unwinding(pc: CancelPc, i: JobId) {
    pc == Flipped(i) || pc == Stamped(i) || pc == Signalled(i)
  }

  /** The winner has not yet recorded the finish time; inCancel says so of a cancelling winner. */
  predicate StampPending(j: Job, inCancel: bool) {
    match j.winner
    case NoWinner => true
    case ByReturn => j.pc.WonReturn?
    case ByPanic => j.pc.WonPanic?
    case ByCancel(_) => inCancel
  }

  /** The winner has not yet called the notifier; inCancel says so of a cancelling winner. */
  predicate NotifyPending(j: Job, inCancel: bool) {
    match j.winner
    case NoWinner => true
    case ByReturn => j.pc.WonReturn? || j.pc.NotifyReturn?
    case ByPanic => j.pc.WonPanic? || j.pc.NotifyPanic?
    case ByCancel(_) => inCancel
  }

  /** The winner determines the state, and the winning path determines the outcome. */
  predicate WinnerInv(j: Job) {
    && (j.winner == NoWinner <==> j.state == Running)
    && (j.winner == ByReturn ==> j.ran.Ret? && j.state == (if j.ran.failed then Failed else Succeeded))
    && (j.winner == ByPanic ==> j.ran == Panic && j.state == Failed)
    && (j.winner.ByCancel? ==> j.state == Cancelled)
    && j.outcome == (if j.winner == ByReturn && !j.pc.WonReturn? then j.ran.outcome else ZERO_OUTCOME)
  }

  /** What the goroutine's position says about the job. */
  predicate PcInv(j: Job) {
    && (j.done <==> j.pc == Leaving || j.pc == Exited)
    && match j.pc
       case Returned(o, failed) => j.ran == Ret(o, failed) && (j.winner == NoWinner || j.winner.ByCancel?)
       case WonReturn(o, status) => j.winner == ByReturn && j.ran.Ret? && j.ran.outcome == o && j.state == status
       case NotifyReturn(status) => j.winner == ByReturn && j.state == status
       case Panicked => j.winner != ByPanic && (j.winner == ByReturn || j.ran == Panic)
       case WonPanic => j.winner == ByPanic
       case NotifyPanic => j.winner == ByPanic
       case Closing => j.winner != NoWinner
       case Leaving => j.winner != NoWinner
       case Exited => j.winner != NoWinner
       case _ => j.ran == NotRun && (j.winner == NoWinner || j.winner.ByCancel?)
  }

  /** Everything known of one job record, given where its canceller stands. */
  predicate RecordInv(j: Job, clock: int, stampInCancel: bool, notifyInCancel: bool) {
    && WinnerInv(j)
    && PcInv(j)
    && (j.finishedAt.None? <==> StampPending(j, stampInCancel))
    && (j.finishedAt.Some? ==> j.finishedAt.value <= clock)
    && j.notified == (if !j.hasNotify || NotifyPending(j, notifyInCancel) then [] else [j.state])
  }

  predicate CancellerStamps(s: State, i: JobId)
    requires i < |s.jobs|
  {
    var w := s.jobs[i].winner;
    w.ByCancel? && w.thread < |s.cancels| && s.cancels[w.thread].pc == Flipped(i)
  }

  predicate CancellerNotifies(s: State, i: JobId)
    requires i < |s.jobs|
  {
    var w := s.jobs[i].winner;
    w.ByCancel? && w.thread < |s.cancels| && Unwinding(s.cancels[w.thread].pc, i)
  }

  predicate JobInv(s: State, i: JobId)
    requires i < |s.jobs|
  {
    && RecordInv(s.jobs[i], s.clock, CancellerStamps(s, i), CancellerNotifies(s, i))
    && (s.jobs[i].winner.ByCancel? ==> s.jobs[i].winner.thread < |s.cancels|)
  }

  predicate JobsInv(s: State) {
    forall i :: 0 <= i < |s.jobs| ==> JobInv(s, i)
  }

  // ---------------------------------------------------------------- the children index

  /** In a children list: a later job whose parent is the list's owner, in creation order. */
  predicate ListInv(s: State, p: JobId, kids: seq<JobId>) {
    && (forall k :: 0 <= k < |kids| ==> p < kids[k] < |s.jobs| && s.jobs[kids[k]].parent == Some(p))
    && (forall k, m :: 0 <= k < m < |kids| ==> kids[k] < kids[m])
  }

  /** m.children agrees with the parent fields wherever the parent is still registered. */
  predicate TreeInv(s: State) {
    && (forall i <- s.registered :: i < |s.jobs|)
    && (forall p <- s.children :: ListInv(s, p, s.children[p]))
    && (forall c :: 0 <= c < |s.jobs| && s.jobs[c].parent.Some? ==> s.jobs[c].parent.value < c)
    && (forall c :: 0 <= c < |s.jobs| && s.jobs[c].parent.Some? && s.jobs[c].parent.value in s.registered
          ==> c in Kids(s, s.jobs[c].parent.value))
  }

  // ---------------------------------------------------------------- the other threads

  predicate FrameInv(s: State, f: Frame) {
    f.id < |s.jobs| && f.next <= |f.kids| && forall k :: 0 <= k < |f.kids| ==> f.id < f.kids[k] < |s.jobs|
  }

  predicate ThreadInv(s: State, t: nat)
    requires t < |s.cancels|
  {
    var th := s.cancels[t];
    var n := |th.stack|;
    && (forall k :: 0 <= k < n ==> FrameInv(s, th.stack[k]))
    && match th.pc
       case Entering(id) => id < |s.jobs|
       case Walking => n > 0
       case Complete => n == 0
       case Flipped(id) => n > 0 && th.stack[n - 1].id == id && s.jobs[id].winner == ByCancel(t)
       case Stamped(id) => n > 0 && th.stack[n - 1].id == id && s.jobs[id].winner == ByCancel(t)
       case Signalled(id) => n > 0 && th.stack[n - 1].id == id && s.jobs[id].winner == ByCancel(t)
  }

  predicate ThreadsInv(s: State) {
    forall t :: 0 <= t < |s.cancels| ==> ThreadInv(s, t)
  }

  /** The (state, outcome) pairs a finished job may show. */
  predicate Settled(j: Job, status: JobState, outcome: JobOutcome) {
    match status
    case Running => false
    case Succeeded => j.ran == Ret(outcome, false)
    case Failed => j.ran == Ret(outcome, true) || (j.ran == Panic && outcome == ZERO_OUTCOME)
    case Cancelled => outcome == ZERO_OUTCOME
  }

  predicate WaiterInv(s: State, w: Waiter) {
    w.id < |s.jobs| &&
    match w.pc
    case OnDone => IsTerminal(s.jobs[w.id].state)
    case Observed => s.jobs[w.id].done
    case Loaded(status) => s.jobs[w.id].done && s.jobs[w.id].state == status
    case Finished(status, o) =>
      s.jobs[w.id].done && s.jobs[w.id].state == status && s.jobs[w.id].outcome == o
    case _ => true
  }

  predicate WaitersInv(s: State) {
    forall w :: 0 <= w < |s.waiters| ==> WaiterInv(s, s.waiters[w])
  }

  /** Goroutines counted by the wait group: between wg.Add and wg.Done. */
  predicate Live(pc: GoPc) {
    pc != Unspawned && pc != Exited
  }

  function CountLive(jobs: seq<Job>): nat {
    if jobs == [] then 0 else (if Live(jobs[0].pc) then 1 else 0) + CountLive(jobs[1..])
  }

  predicate SweepInv(s: State) {
    s.sweep.Some? ==>
      && s.sweep.value.cutoff <= s.clock - JOB_TTL
      && (forall i <- s.sweep.value.todo :: i < |s.jobs|)
  }

  predicate Inv(s: State) {
    JobsInv(s) && TreeInv(s) && ThreadsInv(s) && WaitersInv(s) && SweepInv(s) && s.wg == CountLive(s.jobs)
  }

  // ---------------------------------------------------------------- preservation

  lemma {:induction false} CountLiveUpdate(jobs: seq<Job>, i: nat, j: Job)
    requires i < |jobs|
    ensures CountLive(jobs[i := j])
         == CountLive(jobs) - (if Live(jobs[i].pc) then 1 else 0) + (if Live(j.pc) then 1 else 0)
  {
    if i > 0 {
      assert jobs[i := j][1..] == jobs[1..][i - 1 := j];
      CountLiveUpdate(jobs[1..], i - 1, j);
    } else {
      assert jobs[i := j][1..] == jobs[1..];
    }
  }

  lemma {:induction false} CountLiveSnoc(jobs: seq<Job>, j: Job)
    ensures CountLive(jobs + [j]) == CountLive(jobs) + (if Live(j.pc) then 1 else 0)
  {
    if jobs == [] {
      assert [j][1..] == [];
    } else {
      assert (jobs + [j])[1..] == jobs[1..] + [j];
      CountLiveSnoc(jobs[1..], j);
    }
  }

  lemma ReturnPathKept(j: Job, clock: int, stamps: bool, notifies: bool)
    requires RecordInv(j, clock, stamps, notifies) && (j.pc.Returned? || j.pc.WonReturn? || j.pc.NotifyReturn?)
    requires j.winner == NoWinner ==> !stamps && !notifies
    ensures RecordInv(Advanced(j, clock), clock, stamps, notifies)
  {}

  lemma AdvanceKept(j: Job, clock: int, stamps: bool, notifies: bool)
    requires RecordInv(j, clock, stamps, notifies) && GoEnabled(j, Advance)
    requires j.winner == NoWinner ==> !stamps && !notifies
    ensures RecordInv(Advanced(j, clock), clock, stamps, notifies)
  {
    if j.pc.Returned? || j.pc.WonReturn? || j.pc.NotifyReturn? {
      ReturnPathKept(j, clock, stamps, notifies);
    }
  }

  lemma RecordKept(j: Job, act: GoAct, clock: int, stamps: bool, notifies: bool)
    requires RecordInv(j, clock, stamps, notifies) && GoEnabled(j, act)
    requires j.winner == NoWinner ==> !stamps && !notifies
    ensures RecordInv(StepJob(j, act, clock), clock, stamps, notifies)
  {
    match act {
      case Advance => AdvanceKept(j, clock, stamps, notifies);
      case NotifierPanics =>
      case _ =>
    }
  }

  /** A job is unaffected while its record stands still and its canceller does not move past it. */
  lemma JobFrame(s: State, s': State, i: JobId)
    requires i < |s.jobs| && i < |s'.jobs| && s'.jobs[i] == s.jobs[i] && JobInv(s, i)
    requires s.clock <= s'.clock && |s.cancels| <= |s'.cancels|
    requires CancellerStamps(s, i) == CancellerStamps(s', i)
    requires CancellerNotifies(s, i) == CancellerNotifies(s', i)
    ensures JobInv(s', i)
  {}

  /** The job that a cancel thread's step is about. */
  function TouchedBy(th: CancelThread): Option<JobId> {
    match th.pc
    case Walking => if th.stack != [] then Some(th.stack[|th.stack| - 1].id) else None
    case Flipped(id) => Some(id)
    case Stamped(id) => Some(id)
    case Signalled(id) => Some(id)
    case _ => None
  }

  lemma UntouchedJobKept(s: State, t: nat, i: JobId)
    requires t < |s.cancels| && CancelEnabled(s, s.cancels[t]) && i < |s.jobs|
    requires JobInv(s, i) && ThreadInv(s, t) && TouchedBy(s.cancels[t]) != Some(i)
    ensures JobInv(StepCancel(s, t), i)
  {
    JobFrame(s, StepCancel(s, t), i);
  }

  lemma FlippedJobKept(s: State, t: nat, i: JobId)
    requires t < |s.cancels| && CancelEnabled(s, s.cancels[t]) && i < |s.jobs|
    requires JobInv(s, i) && ThreadInv(s, t) && s.cancels[t].pc == Walking && TouchedBy(s.cancels[t]) == Some(i)
    ensures JobInv(StepCancel(s, t), i)
  {
    var s' := StepCancel(s, t);
    if s'.jobs[i] == s.jobs[i] {
      JobFrame(s, s', i);
    }
  }

  lemma CancelJobKept(s: State, t: nat, i: JobId)
    requires t < |s.cancels| && CancelEnabled(s, s.cancels[t]) && i < |s.jobs|
    requires JobInv(s, i) && ThreadInv(s, t)
    ensures JobInv(StepCancel(s, t), i)
  {
    if TouchedBy(s.cancels[t]) != Some(i) {
      UntouchedJobKept(s, t, i);
    } else if s.cancels[t].pc == Walking {
      FlippedJobKept(s, t, i);
    }
  }

  lemma JobsKeptByGoroutine(s: State, id: JobId, act: GoAct)
    requires JobsInv(s) && Enabled(s, Goroutine(id, act))
    ensures JobsInv(Apply(s, Goroutine(id, act)))
  {
    var s' := Apply(s, Goroutine(id, act));
    forall i | 0 <= i < |s'.jobs| ensures JobInv(s', i) {
      assert JobInv(s, i);
      if i == id {
        RecordKept(s.jobs[i], act, s.clock, CancellerStamps(s, i), CancellerNotifies(s, i));
      } else {
        JobFrame(s, s', i);
      }
    }
  }

  lemma JobsKeptByCancel(s: State, t: nat)
    requires JobsInv(s) && Enabled(s, CancelStep(t)) && ThreadInv(s, t)
    ensures JobsInv(StepCancel(s, t))
  {
    var s' := StepCancel(s, t);
    forall i | 0 <= i < |s'.jobs| ensures JobInv(s', i) {
      assert JobInv(s, i);
      CancelJobKept(s, t, i);
    }
  }

  lemma JobsKeptByStart(s: State, parent: Option<JobId>, hasNotify: bool)
    requires JobsInv(s) && Enabled(s, StartRegister(parent, hasNotify))
    ensures JobsInv(Apply(s, StartRegister(parent, hasNotify)))
  {
    var s' := Apply(s, StartRegister(parent, hasNotify));
    forall i | 0 <= i < |s'.jobs| ensures JobInv(s', i) {
      if i < |s.jobs| {
        assert JobInv(s, i);
        JobFrame(s, s', i);
      }
    }
  }

  /** Labels that leave every job record and every cancel thread alone. */
  predicate Quiet(l: Label) {
    !l.StartRegister? && !l.Goroutine? && !l.CancelStep?
  }

  lemma QuietStep(s: State, l: Label)
    requires Enabled(s, l) && Quiet(l)
    ensures var s' := Apply(s, l);
      && s'.jobs == s.jobs && s'.wg == s.wg && s'.clock >= s.clock
      && |s'.cancels| >= |s.cancels| && s'.cancels[..|s.cancels|] == s.cancels
  {}

  lemma JobsKeptByOther(s: State, s': State)
    requires JobsInv(s) && s'.jobs == s.jobs && s'.clock >= s.clock
    requires |s'.cancels| >= |s.cancels| && s'.cancels[..|s.cancels|] == s.cancels
    ensures JobsInv(s')
  {
    forall i | 0 <= i < |s'.jobs| ensures JobInv(s', i) {
      assert JobInv(s, i);
      if s.jobs[i].winner.ByCancel? {
        var t := s.jobs[i].winner.thread;
        assert s'.cancels[t] == s'.cancels[..|s.cancels|][t];
      }
      JobFrame(s, s', i);
    }
  }

  lemma JobsKept(s: State, l: Label)
    requires JobsInv(s) && ThreadsInv(s) && Enabled(s, l)
    ensures JobsInv(Apply(s, l))
  {
    match l {
      case StartRegister(parent, hasNotify) => JobsKeptByStart(s, parent, hasNotify);
      case Goroutine(id, act) => JobsKeptByGoroutine(s, id, act);
      case CancelStep(t) =>
        assert ThreadInv(s, t);
        JobsKeptByCancel(s, t);
      case _ =>
        QuietStep(s, l);
        JobsKeptByOther(s, Apply(s, l));
    }
  }

  /** How one job record may change in any number of steps. */
  predicate Evolves(j: Job, j': Job) {
    && j'.parent == j.parent && j'.hasNotify == j.hasNotify
    && (j.state != Running ==> j'.state == j.state && j'.winner == j.winner)
    && (j.finishedAt.Some? ==> j'.finishedAt == j.finishedAt)
    && (j.done ==> j'.done && j'.outcome == j.outcome)
    && (j.ran != NotRun ==> j'.ran == j.ran)
  }

  lemma RecordEvolves(j: Job, act: GoAct, clock: int, stamps: bool, notifies: bool)
    requires RecordInv(j, clock, stamps, notifies) && GoEnabled(j, act)
    ensures Evolves(j, StepJob(j, act, clock))
  {}

  lemma CancelEvolves(s: State, t: nat, i: JobId)
    requires t < |s.cancels| && CancelEnabled(s, s.cancels[t]) && i < |s.jobs|
    requires JobInv(s, i) && ThreadInv(s, t)
    ensures |StepCancel(s, t).jobs| == |s.jobs| && Evolves(s.jobs[i], StepCancel(s, t).jobs[i])
  {}

  lemma StepEvolves(s: State, l: Label, i: JobId)
    requires JobsInv(s) && ThreadsInv(s) && Enabled(s, l) && i < |s.jobs|
    ensures |s.jobs| <= |Apply(s, l).jobs| && Evolves(s.jobs[i], Apply(s, l).jobs[i])
  {
    match l {
      case StartRegister(_, _) =>
      case Goroutine(id, act) =>
        assert JobInv(s, id);
        RecordEvolves(s.jobs[id], act, s.clock, CancellerStamps(s, id), CancellerNotifies(s, id));
      case CancelStep(t) =>
        assert JobInv(s, i) && ThreadInv(s, t);
        CancelEvolves(s, t, i);
      case _ => QuietStep(s, l);
    }
  }

  /** StepEvolves for all jobs at once. */
  lemma AllEvolve(s: State, l: Label)
    requires JobsInv(s) && ThreadsInv(s) && Enabled(s, l)
    ensures |s.jobs| <= |Apply(s, l).jobs|
    ensures forall i :: 0 <= i < |s.jobs| ==> Evolves(s.jobs[i], Apply(s, l).jobs[i])
  {
    forall i | 0 <= i < |s.jobs| ensures |s.jobs| <= |Apply(s, l).jobs| && Evolves(s.jobs[i], Apply(s, l).jobs[i]) {
      StepEvolves(s, l, i);
    }
    if |s.jobs| > 0 {
      StepEvolves(s, l, 0);
    }
  }

  /** What a step other than a Start does to the registry: it only drops entries. */
  lemma RegistryShrinks(s: State, l: Label)
    requires Enabled(s, l) && !l.StartRegister?
    ensures var s' := Apply(s, l);
      && |s'.jobs| == |s.jobs|
      && ((s'.registered == s.registered && s'.children == s.children)
          || (l.SweepVisit? && Expired(s.jobs[l.id], s.sweep.value.cutoff) && s'.jobs == s.jobs
              && s'.registered == s.registered - {l.id} && s'.children == s.children - {l.id}))
  {}

  lemma TreeKeptBySweep(s: State, s': State, id: JobId)
    requires TreeInv(s) && s'.jobs == s.jobs
    requires s'.registered == s.registered - {id} && s'.children == s.children - {id}
    ensures TreeInv(s')
  {}

  lemma TreeKeptByStart(s: State, parent: Option<JobId>, hasNotify: bool)
    requires TreeInv(s) && Enabled(s, StartRegister(parent, hasNotify))
    ensures TreeInv(Apply(s, StartRegister(parent, hasNotify)))
  {
    var s' := Apply(s, StartRegister(parent, hasNotify));
    forall p | p in s'.children ensures ListInv(s', p, s'.children[p]) {
      if p in s.children {
        assert ListInv(s, p, s.children[p]);
      }
    }
    forall c | 0 <= c < |s'.jobs| && s'.jobs[c].parent.Some? && s'.jobs[c].parent.value in s'.registered
      ensures c in Kids(s', s'.jobs[c].parent.value)
    {
      var p := s'.jobs[c].parent.value;
      if c == |s.jobs| {
        assert s'.children[p][|Kids(s, p)|] == c;
      } else {
        assert p < c && c in Kids(s, p);
        var k :| 0 <= k < |Kids(s, p)| && Kids(s, p)[k] == c;
        assert Kids(s', p)[k] == c;
      }
    }
  }

  lemma TreeFrame(s: State, s': State)
    requires TreeInv(s) && s'.registered == s.registered && s'.children == s.children
    requires |s'.jobs| == |s.jobs| && forall i :: 0 <= i < |s.jobs| ==> s'.jobs[i].parent == s.jobs[i].parent
    ensures TreeInv(s')
  {}

  lemma TreeKept(s: State, l: Label)
    requires TreeInv(s) && JobsInv(s) && ThreadsInv(s) && Enabled(s, l)
    ensures TreeInv(Apply(s, l))
  {
    if l.StartRegister? {
      TreeKeptByStart(s, l.parent, l.hasNotify);
    } else {
      RegistryShrinks(s, l);
      AllEvolve(s, l);
      var s' := Apply(s, l);
      if s'.registered == s.registered && s'.children == s.children {
        TreeFrame(s, s');
      } else {
        TreeKeptBySweep(s, s', l.id);
      }
    }
  }

  lemma ThreadFrame(s: State, s': State, t: nat)
    requires t < |s.cancels| && t < |s'.cancels| && s'.cancels[t] == s.cancels[t] && ThreadInv(s, t)
    requires |s.jobs| <= |s'.jobs|
    requires forall i :: 0 <= i < |s.jobs| ==> Evolves(s.jobs[i], s'.jobs[i])
    requires JobsInv(s)
    ensures ThreadInv(s', t)
  {
    forall k | 0 <= k < |s.cancels[t].stack| ensures FrameInv(s', s'.cancels[t].stack[k]) {
      assert FrameInv(s, s.cancels[t].stack[k]);
    }
    var pc := s.cancels[t].pc;
    if pc.Flipped? || pc.Stamped? || pc.Signalled? {
      assert JobInv(s, pc.id);
    }
  }

  lemma OwnThreadKept(s: State, t: nat)
    requires t < |s.cancels| && CancelEnabled(s, s.cancels[t]) && ThreadInv(s, t)
    requires forall p <- s.children :: ListInv(s, p, s.children[p])
    ensures ThreadInv(StepCancel(s, t), t)
  {}

  /** A step moves at most the cancel thread it names. */
  lemma OtherThreadsStill(s: State, l: Label, t: nat)
    requires Enabled(s, l) && t < |s.cancels| && l != CancelStep(t)
    ensures t < |Apply(s, l).cancels| && Apply(s, l).cancels[t] == s.cancels[t]
  {}

  lemma NewThread(s: State, l: Label, t: nat)
    requires TreeInv(s) && Enabled(s, l) && |s.cancels| <= t < |Apply(s, l).cancels|
    ensures ThreadInv(Apply(s, l), t)
  {}

  lemma ThreadsKept(s: State, l: Label)
    requires JobsInv(s) && ThreadsInv(s) && TreeInv(s) && Enabled(s, l)
    ensures ThreadsInv(Apply(s, l))
  {
    var s' := Apply(s, l);
    AllEvolve(s, l);
    forall t | 0 <= t < |s'.cancels| ensures ThreadInv(s', t) {
      if t >= |s.cancels| {
        NewThread(s, l, t);
      } else {
        assert ThreadInv(s, t);
        if l == CancelStep(t) {
          OwnThreadKept(s, t);
        } else {
          OtherThreadsStill(s, l, t);
          ThreadFrame(s, s', t);
        }
      }
    }
  }

  lemma WaiterKept(s: State, s': State, w: Waiter)
    requires WaiterInv(s, w) && |s.jobs| <= |s'.jobs| && Evolves(s.jobs[w.id], s'.jobs[w.id])
    requires JobInv(s, w.id)
    ensures WaiterInv(s', w)
  {}

  lemma WaitersKeptByOwn(s: State, l: Label)
    requires WaitersInv(s) && TreeInv(s) && JobsInv(s) && Enabled(s, l)
    requires l.WaitInvoke? || l.WaitStep? || l.WaitTimesOut? || l.WaitAbandoned?
    ensures WaitersInv(Apply(s, l))
  {}

  lemma WaitersStill(s: State, l: Label)
    requires Enabled(s, l) && !(l.WaitInvoke? || l.WaitStep? || l.WaitTimesOut? || l.WaitAbandoned?)
    ensures Apply(s, l).waiters == s.waiters
  {}

  lemma WaitersKept(s: State, l: Label)
    requires WaitersInv(s) && TreeInv(s) && JobsInv(s) && ThreadsInv(s) && Enabled(s, l)
    ensures WaitersInv(Apply(s, l))
  {
    if l.WaitInvoke? || l.WaitStep? || l.WaitTimesOut? || l.WaitAbandoned? {
      WaitersKeptByOwn(s, l);
    } else {
      var s' := Apply(s, l);
      WaitersStill(s, l);
      AllEvolve(s, l);
      forall w | 0 <= w < |s'.waiters| ensures WaiterInv(s', s'.waiters[w]) {
        assert WaiterInv(s, s.waiters[w]) && JobInv(s, s.waiters[w].id);
        WaiterKept(s, s', s.waiters[w]);
      }
    }
  }

  lemma CancelKeepsWg(s: State, t: nat)
    requires t < |s.cancels| && CancelEnabled(s, s.cancels[t]) && ThreadInv(s, t)
    ensures CountLive(StepCancel(s, t).jobs) == CountLive(s.jobs)
  {
    var s' := StepCancel(s, t);
    var th := s.cancels[t];
    if th.stack != [] {
      var top := th.stack[|th.stack| - 1];
      assert FrameInv(s, top);
      assert s'.jobs == s.jobs[top.id := s'.jobs[top.id]] && s'.jobs[top.id].pc == s.jobs[top.id].pc;
      CountLiveUpdate(s.jobs, top.id, s'.jobs[top.id]);
    }
  }

  lemma GoroutineKeepsWg(s: State, id: JobId, act: GoAct)
    requires s.wg == CountLive(s.jobs) && Enabled(s, Goroutine(id, act))
    ensures Apply(s, Goroutine(id, act)).wg == CountLive(Apply(s, Goroutine(id, act)).jobs)
  {
    CountLiveUpdate(s.jobs, id, StepJob(s.jobs[id], act, s.clock));
  }

  lemma WgKept(s: State, l: Label)
    requires s.wg == CountLive(s.jobs) && ThreadsInv(s) && Enabled(s, l)
    ensures Apply(s, l).wg == CountLive(Apply(s, l).jobs)
  {
    match l {
      case StartRegister(parent, hasNotify) => CountLiveSnoc(s.jobs, NewJob(parent, hasNotify));
      case Goroutine(id, act) => GoroutineKeepsWg(s, id, act);
      case CancelStep(t) =>
        assert ThreadInv(s, t);
        CancelKeepsWg(s, t);
      case _ => QuietStep(s, l);
    }
  }

  lemma SweepKept(s: State, l: Label)
    requires SweepInv(s) && TreeInv(s) && Enabled(s, l)
    ensures SweepInv(Apply(s, l))
  {}

  lemma InvKept(s: State, l: Label)
    requires Inv(s) && Enabled(s, l)
    ensures Inv(Apply(s, l))
  {
    JobsKept(s, l);
    TreeKept(s, l);
    ThreadsKept(s, l);
    WaitersKept(s, l);
    WgKept(s, l);
    SweepKept(s, l);
  }
}
