// Safety of the job protocol over every run from the initial state.

module JobSafety {
  import opened Common
  import opened JobProtocol
  import opened JobInvariants

  lemma {:induction false} InvAlways(s: State, ls: seq<Label>)
    requires Inv(s) && Legal(s, ls)
    ensures Inv(Exec(s, ls))
    decreases |ls|
  {
    if ls != [] {
      InvKept(s, ls[0]);
      InvAlways(Apply(s, ls[0]), ls[1..]);
    }
  }

  lemma ReachableInv(s: State)
    requires Reachable(s)
    ensures Inv(s)
  {
    var ls :| Legal(INIT, ls) && Exec(INIT, ls) == s;
    InvAlways(INIT, ls);
  }

  /** Once terminal, a job's state, winner and finish time never change; nor, once done, its outcome. */
  lemma {:induction false} SettledForever(s: State, ls: seq<Label>, i: JobId)
    requires Inv(s) && Legal(s, ls) && i < |s.jobs|
    ensures i < |Exec(s, ls).jobs| && Evolves(s.jobs[i], Exec(s, ls).jobs[i])
    ensures IsTerminal(s.jobs[i].state) ==> Exec(s, ls).jobs[i].state == s.jobs[i].state
    decreases |ls|
  {
    if ls != [] {
      InvKept(s, ls[0]);
      StepEvolves(s, ls[0], i);
      SettledForever(Apply(s, ls[0]), ls[1..], i);
    }
  }

  /** A job started is running under the next id, and keeps its parent and notifier in every continuation. */
  lemma StartedAsAsked(s: State, parent: Option<JobId>, hasNotify: bool, ls: seq<Label>)
    requires Inv(s) && Enabled(s, StartRegister(parent, hasNotify))
    requires Legal(Apply(s, StartRegister(parent, hasNotify)), ls)
    ensures var s1, i := Apply(s, StartRegister(parent, hasNotify)), |s.jobs|;
      && i in s1.registered && i < |s1.jobs| && s1.jobs[i].state == Running
      && i < |Exec(s1, ls).jobs| && Exec(s1, ls).jobs[i].parent == parent && Exec(s1, ls).jobs[i].hasNotify == hasNotify
  {
    InvKept(s, StartRegister(parent, hasNotify));
    SettledForever(Apply(s, StartRegister(parent, hasNotify)), ls, |s.jobs|);
  }

  /** The thread that won job i has left the code that follows its compare-and-swap. */
  predicate WinnerFinished(s: State, i: JobId)
    requires i < |s.jobs|
  {
    var j := s.jobs[i];
    match j.winner
    case NoWinner => false
    case ByReturn => j.pc.Panicked? || j.pc.Closing? || j.pc.Leaving? || j.pc.Exited?
    case ByPanic => j.pc.Closing? || j.pc.Leaving? || j.pc.Exited?
    case ByCancel(t) => t < |s.cancels| && !Unwinding(s.cancels[t].pc, i)
  }

  /** The notifier hears at most one status, only the one that won, and exactly once in the end. */
  lemma NotifiedOnceWithWinningStatus(s: State, i: JobId)
    requires Reachable(s) && i < |s.jobs|
    ensures s.jobs[i].notified == [] || (IsTerminal(s.jobs[i].state) && s.jobs[i].notified == [s.jobs[i].state])
    ensures WinnerFinished(s, i) && s.jobs[i].hasNotify ==> s.jobs[i].notified == [s.jobs[i].state]
    ensures s.jobs[i].state == Running || !s.jobs[i].hasNotify ==> s.jobs[i].notified == []
  {
    ReachableInv(s);
    assert JobInv(s, i);
  }

  /** A closed done channel means a terminal state and an outcome that belongs to it. */
  lemma DoneIsSettled(s: State, i: JobId)
    requires Reachable(s) && i < |s.jobs| && s.jobs[i].done
    ensures IsTerminal(s.jobs[i].state)
    ensures Settled(s.jobs[i], s.jobs[i].state, s.jobs[i].outcome)
  {
    ReachableInv(s);
    assert JobInv(s, i);
  }

  /**
   * Wait is never torn: although it loads the state and reads the outcome in two separate
   * steps, what it returns is a terminal status with the outcome of that status, and stays
   * the job's status and outcome in every continuation of the run.
   */
  lemma WaitNeverTorn(s: State, w: nat, ls: seq<Label>)
    requires Reachable(s) && w < |s.waiters| && s.waiters[w].pc.Finished? && Legal(s, ls)
    ensures s.waiters[w].id < |s.jobs| && s.waiters[w].id < |Exec(s, ls).jobs|
    ensures IsTerminal(s.waiters[w].pc.status)
    ensures Settled(s.jobs[s.waiters[w].id], s.waiters[w].pc.status, s.waiters[w].pc.outcome)
    ensures var j := Exec(s, ls).jobs[s.waiters[w].id];
            j.state == s.waiters[w].pc.status && j.outcome == s.waiters[w].pc.outcome
  {
    ReachableInv(s);
    assert WaiterInv(s, s.waiters[w]);
    DoneIsSettled(s, s.waiters[w].id);
    SettledForever(s, ls, s.waiters[w].id);
  }

  /** A Wait that finds its job terminal: from then on only the job's done channel can hold it up. */
  predicate OnFastPath(pc: WaitPc) {
    pc == OnDone || pc == Observed || pc.Loaded? || pc.Finished?
  }

  lemma FastPathKept(s: State, l: Label, w: nat)
    requires Enabled(s, l) && w < |s.waiters| && OnFastPath(s.waiters[w].pc)
    ensures w < |Apply(s, l).waiters| && OnFastPath(Apply(s, l).waiters[w].pc)
    ensures Apply(s, l).waiters[w].id == s.waiters[w].id
  {}

  lemma {:induction false} FastPathAlways(s: State, ls: seq<Label>, w: nat)
    requires Legal(s, ls) && w < |s.waiters| && OnFastPath(s.waiters[w].pc)
    ensures w < |Exec(s, ls).waiters| && OnFastPath(Exec(s, ls).waiters[w].pc)
    decreases |ls|
  {
    if ls != [] {
      FastPathKept(s, ls[0], w);
      FastPathAlways(Apply(s, ls[0]), ls[1..], w);
    }
  }

  /** A Wait on a job found terminal never times out and is never abandoned; on a running job it may be. */
  lemma WaitOnTerminalNeverTimesOut(s: State, w: nat, ls: seq<Label>)
    requires Enabled(s, WaitStep(w)) && s.waiters[w].pc == Found && Legal(Apply(s, WaitStep(w)), ls)
    ensures IsTerminal(s.jobs[s.waiters[w].id].state) ==>
      var s' := Exec(Apply(s, WaitStep(w)), ls);
      w < |s'.waiters| && s'.waiters[w].pc != TimedOut && s'.waiters[w].pc != Abandoned
    ensures !IsTerminal(s.jobs[s.waiters[w].id].state) ==>
      Enabled(Apply(s, WaitStep(w)), WaitTimesOut(w)) && Enabled(Apply(s, WaitStep(w)), WaitAbandoned(w))
  {
    if IsTerminal(s.jobs[s.waiters[w].id].state) {
      FastPathAlways(Apply(s, WaitStep(w)), ls, w);
    }
  }

  lemma {:induction false} OneStepFurther(s: State, ls: seq<Label>, l: Label)
    requires Legal(s, ls) && Enabled(Exec(s, ls), l)
    ensures Legal(s, ls + [l]) && Exec(s, ls + [l]) == Apply(Exec(s, ls), l)
    decreases |ls|
  {
    if ls == [] {
      assert Legal(Apply(s, l), [l][1..]);
    } else {
      assert (ls + [l])[1..] == ls[1..] + [l];
      OneStepFurther(Apply(s, ls[0]), ls[1..], l);
    }
  }

  lemma ReachableStep(s: State, l: Label)
    requires Reachable(s) && Enabled(s, l)
    ensures Reachable(Apply(s, l))
  {
    var ls :| Legal(INIT, ls) && Exec(INIT, ls) == s;
    OneStepFurther(INIT, ls, l);
  }

  lemma {:induction false} ReachableExec(s: State, ls: seq<Label>)
    requires Reachable(s) && Legal(s, ls)
    ensures Reachable(Exec(s, ls))
    decreases |ls|
  {
    if ls != [] {
      ReachableStep(s, ls[0]);
      ReachableExec(Apply(s, ls[0]), ls[1..]);
    }
  }

  /** Without waiting for done the same two reads can be torn, as Status accepts. */
  lemma StateAndOutcomeMayBeTorn() returns (s: State)
    ensures Reachable(s) && |s.jobs| == 1 && s.jobs[0].state == Succeeded
    ensures !Settled(s.jobs[0], s.jobs[0].state, s.jobs[0].outcome)
  {
    s := JobInRun();
    var o := ZERO_OUTCOME.(exitCode := 7);
    ReachableStep(s, Goroutine(0, RunReturns(o, false)));
    s := Apply(s, Goroutine(0, RunReturns(o, false)));
    ReachableStep(s, Goroutine(0, Advance));
    s := Apply(s, Goroutine(0, Advance));
  }

  lemma JobInRun() returns (s: State)
    ensures Reachable(s) && s.jobs == [NewJob(None, false).(pc := InRun)]
  {
    assert Legal(INIT, []) && Exec(INIT, []) == INIT;
    ReachableStep(INIT, StartRegister(None, false));
    s := Apply(INIT, StartRegister(None, false));
    ReachableStep(s, Goroutine(0, Add));
    s := Apply(s, Goroutine(0, Add));
    ReachableStep(s, Goroutine(0, Go));
    s := Apply(s, Goroutine(0, Go));
  }

  // ---------------------------------------------------------------- Shutdown

  lemma {:induction false} NoneLive(jobs: seq<Job>, i: nat)
    requires CountLive(jobs) == 0 && i < |jobs|
    ensures !Live(jobs[i].pc)
  {
    if i > 0 {
      NoneLive(jobs[1..], i - 1);
    }
  }

  /**
   * When Shutdown returns, every job whose Start got past wg.Add has run to the end and is
   * terminal. So all jobs are terminal exactly when no Start is caught between registering
   * its job and wg.Add with the job still running.
   */
  lemma ShutdownLeavesJobsTerminal(s: State)
    requires Reachable(s) && Enabled(s, ShutdownReturn)
    ensures forall i :: 0 <= i < |s.jobs| && s.jobs[i].pc != Unspawned
              ==> IsTerminal(s.jobs[i].state) && s.jobs[i].done
    ensures (forall i :: 0 <= i < |s.jobs| ==> IsTerminal(s.jobs[i].state))
       <==> !exists i :: 0 <= i < |s.jobs| && s.jobs[i].pc == Unspawned && s.jobs[i].state == Running
  {
    ReachableInv(s);
    forall i | 0 <= i < |s.jobs| && s.jobs[i].pc != Unspawned
      ensures IsTerminal(s.jobs[i].state) && s.jobs[i].done
    {
      NoneLive(s.jobs, i);
      assert JobInv(s, i);
    }
  }

  /** No Start is between registering its job and wg.Add. */
  predicate NoneRegistering(s: State) {
    forall i :: 0 <= i < |s.jobs| ==> s.jobs[i].pc != Unspawned
  }

  lemma NoneRegisteringKept(s: State, l: Label)
    requires NoneRegistering(s) && ThreadsInv(s) && Enabled(s, l) && !l.StartRegister?
    ensures NoneRegistering(Apply(s, l))
  {
    match l {
      case CancelStep(t) => assert ThreadInv(s, t);
      case _ =>
    }
  }

  lemma {:induction false} NoneRegisteringAlways(s: State, ls: seq<Label>)
    requires Inv(s) && Legal(s, ls) && (forall l <- ls :: !l.StartRegister?) && NoneRegistering(s)
    ensures NoneRegistering(Exec(s, ls))
    decreases |ls|
  {
    if ls != [] {
      assert !ls[0].StartRegister?;
      InvKept(s, ls[0]);
      NoneRegisteringKept(s, ls[0]);
      NoneRegisteringAlways(Apply(s, ls[0]), ls[1..]);
    }
  }

  /**
   * With no Start racing it (none in between at the call, none begun while it waits) Shutdown
   * returns only when every job ever started is terminal.
   */
  lemma ShutdownWithoutRacingStart(s0: State, ls: seq<Label>)
    requires Reachable(s0) && Enabled(s0, ShutdownCall) && NoneRegistering(s0)
    requires Legal(s0, [ShutdownCall] + ls) && forall l <- ls :: !l.StartRegister?
    requires Enabled(Exec(s0, [ShutdownCall] + ls), ShutdownReturn)
    ensures var s := Exec(s0, [ShutdownCall] + ls);
      forall i :: 0 <= i < |s.jobs| ==> IsTerminal(s.jobs[i].state) && s.jobs[i].done
  {
    var s1 := Apply(s0, ShutdownCall);
    assert ([ShutdownCall] + ls)[1..] == ls;
    ReachableInv(s0);
    InvKept(s0, ShutdownCall);
    NoneRegisteringAlways(s1, ls);
    InvAlways(s1, ls);
    var s := Exec(s1, ls);
    forall i | 0 <= i < |s.jobs| ensures IsTerminal(s.jobs[i].state) && s.jobs[i].done {
      NoneLive(s.jobs, i);
      assert JobInv(s, i);
    }
  }

  /** A Start racing Shutdown: the job is registered and running when Shutdown returns. */
  lemma RacingStartOutlivesShutdown()
    ensures exists s: State :: Reachable(s) && s.shutdown == Down && |s.jobs| == 1 && s.jobs[0].state == Running
  {
    assert Legal(INIT, []) && Reachable(INIT);
    ReachableStep(INIT, StartRegister(None, false));
    var s1 := Apply(INIT, StartRegister(None, false));
    ReachableStep(s1, ShutdownCall);
    ReachableStep(Apply(s1, ShutdownCall), ShutdownReturn);
  }

  // ---------------------------------------------------------------- the reaper and the index

  /**
   * One visit of the reaper removes the job exactly when it is no longer running and finished
   * before the cutoff, which leaves it alone until its finish time is recorded, and touches
   * no other.
   */
  lemma VisitRemovesExactlyExpired(s: State, id: JobId)
    requires Reachable(s) && Enabled(s, SweepVisit(id)) && id in s.registered
    ensures var s' := Apply(s, SweepVisit(id));
      && s'.jobs == s.jobs
      && (id in s'.registered <==> !FinishedBefore(s.jobs[id], s.sweep.value.cutoff))
      && (forall i :: i != id ==> (i in s'.registered <==> i in s.registered) && Kids(s', i) == Kids(s, i))
    ensures s.jobs[id].state == Running || StampPending(s.jobs[id], CancellerStamps(s, id))
        ==> id in Apply(s, SweepVisit(id)).registered
    ensures id !in Apply(s, SweepVisit(id)).registered ==> s.jobs[id].finishedAt.value < s.clock - JOB_TTL
  {
    ReachableInv(s);
    assert JobInv(s, id);
  }

  /** No longer running, and the recorded finish time lies before the given time. */
  predicate FinishedBefore(j: Job, time: int) {
    j.state != Running && match j.finishedAt case Some(at) => at < time case None => false
  }

  predicate WithinSweep(l: Label) {
    l != SweepBegin && l != SweepEnd
  }

  /** Where a sweep stands: what it has dealt with so far was removed if expired at its start. */
  ghost predicate SweepProgress(s0: State, s: State, cutoff: int) {
    && |s0.jobs| <= |s.jobs| && s.sweep.Some? && s.sweep.value.cutoff == cutoff
    && (forall i <- s0.registered :: i < |s0.jobs| && Evolves(s0.jobs[i], s.jobs[i]))
    && (forall i <- s0.registered :: i in s.registered || Expired(s.jobs[i], cutoff))
    && (forall i <- s0.registered :: i in s.sweep.value.todo || i !in s.registered || !Expired(s0.jobs[i], cutoff))
  }

  lemma SweepField(s: State, l: Label)
    requires Enabled(s, l) && WithinSweep(l) && s.sweep.Some?
    ensures var s' := Apply(s, l);
      && s'.sweep.Some? && s'.sweep.value.cutoff == s.sweep.value.cutoff
      && s'.sweep.value.todo == (if l.SweepVisit? then s.sweep.value.todo - {l.id} else s.sweep.value.todo)
      && (l.StartRegister? ==> s.registered <= s'.registered)
      && (l.SweepVisit? ==> Expired(s.jobs[l.id], s.sweep.value.cutoff) ==> l.id !in s'.registered)
  {}

  lemma SweepStep(s0: State, s: State, l: Label, cutoff: int)
    requires JobsInv(s) && ThreadsInv(s) && Enabled(s, l) && WithinSweep(l) && SweepProgress(s0, s, cutoff)
    ensures SweepProgress(s0, Apply(s, l), cutoff)
  {
    var s' := Apply(s, l);
    SweepField(s, l);
    AllEvolve(s, l);
    if !l.StartRegister? {
      RegistryShrinks(s, l);
    }
    forall i | i in s0.registered
      ensures Evolves(s0.jobs[i], s'.jobs[i])
      ensures i in s'.registered || Expired(s'.jobs[i], cutoff)
      ensures i in s'.sweep.value.todo || i !in s'.registered || !Expired(s0.jobs[i], cutoff)
    {
      assert Evolves(s0.jobs[i], s.jobs[i]) && Evolves(s.jobs[i], s'.jobs[i]);
    }
  }

  lemma {:induction false} SweepRuns(s0: State, s: State, ls: seq<Label>, cutoff: int)
    requires Inv(s) && Legal(s, ls) && (forall l <- ls :: WithinSweep(l))
    requires SweepProgress(s0, s, cutoff)
    ensures SweepProgress(s0, Exec(s, ls), cutoff)
    decreases |ls|
  {
    if ls != [] {
      assert WithinSweep(ls[0]);
      InvKept(s, ls[0]);
      SweepStep(s0, s, ls[0], cutoff);
      SweepRuns(s0, Apply(s, ls[0]), ls[1..], cutoff);
    }
  }

  /**
   * A whole sweep, whatever runs beside it: a job registered at its start is gone at its end
   * if it had finished, in whatever state, more than the TTL before the start, and only if it
   * has by the end; the reaper never drops a job that is running or finished within the TTL.
   */
  lemma SweepRemovesTheExpired(s0: State, ls: seq<Label>, i: JobId)
    requires Reachable(s0) && Enabled(s0, SweepBegin) && i in s0.registered
    requires Legal(Apply(s0, SweepBegin), ls) && (forall l <- ls :: WithinSweep(l))
    requires Enabled(Exec(Apply(s0, SweepBegin), ls), SweepEnd)
    ensures var s := Exec(Apply(s0, SweepBegin), ls);
      && i < |s0.jobs| && i < |s.jobs|
      && (FinishedBefore(s0.jobs[i], s0.clock - JOB_TTL) ==> i !in s.registered)
      && (i !in s.registered ==> FinishedBefore(s.jobs[i], s0.clock - JOB_TTL))
  {
    ReachableInv(s0);
    var s1 := Apply(s0, SweepBegin);
    InvKept(s0, SweepBegin);
    assert SweepProgress(s0, s1, s0.clock - JOB_TTL);
    SweepRuns(s0, s1, ls, s0.clock - JOB_TTL);
  }

  /** Each job sits in at most one children list, once, and that list is its own parent's. */
  lemma OneListPerJob(s: State, p: JobId, q: JobId, k: nat, m: nat)
    requires Reachable(s) && k < |Kids(s, p)| && m < |Kids(s, q)| && Kids(s, p)[k] == Kids(s, q)[m]
    ensures p == q && k == m
    ensures Kids(s, p)[k] < |s.jobs| && s.jobs[Kids(s, p)[k]].parent == Some(p)
  {
    ReachableInv(s);
    assert ListInv(s, p, s.children[p]) && ListInv(s, q, s.children[q]);
  }

  /** While a parent is registered its children list is exactly the jobs started under it. */
  lemma IndexMatchesParents(s: State, p: JobId, c: JobId)
    requires Reachable(s) && p in s.registered && c < |s.jobs|
    ensures c in Kids(s, p) <==> s.jobs[c].parent == Some(p)
  {
    ReachableInv(s);
    if c in Kids(s, p) {
      assert ListInv(s, p, s.children[p]);
    }
  }
}
