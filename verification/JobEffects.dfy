// What the thread that won a job does after its compare-and-swap: it signals the job's
// context if it cancelled it, and it records when the job finished.

module JobEffects {
  import opened Common
  import opened JobProtocol
  import opened JobInvariants
  import opened JobSafety

  // ---------------------------------------------------------------- j.cancel()

  /** Job i was won by a cancel thread that has not called j.cancel() yet. */
  predicate SignalPending(s: State, i: JobId)
    requires i < |s.jobs|
  {
    var w := s.jobs[i].winner;
    && w.ByCancel? && w.thread < |s.cancels|
    && (s.cancels[w.thread].pc == Flipped(i) || s.cancels[w.thread].pc == Stamped(i))
  }

  predicate JobSignalInv(s: State, i: JobId)
    requires i < |s.jobs|
  {
    s.jobs[i].ctxCancelled <==> s.jobs[i].winner.ByCancel? && !SignalPending(s, i)
  }

  predicate SignalInv(s: State) {
    forall i :: 0 <= i < |s.jobs| ==> JobSignalInv(s, i)
  }

  lemma SignalKeptByGoroutine(s: State, id: JobId, act: GoAct, i: JobId)
    requires JobsInv(s) && Enabled(s, Goroutine(id, act)) && i < |s.jobs| && JobSignalInv(s, i)
    ensures JobSignalInv(Apply(s, Goroutine(id, act)), i)
  {
    assert JobInv(s, i);
  }

  lemma SignalKeptElsewhere(s: State, t: nat, i: JobId)
    requires Enabled(s, CancelStep(t)) && ThreadInv(s, t) && i < |s.jobs| && JobInv(s, i) && JobSignalInv(s, i)
    requires TouchedBy(s.cancels[t]) != Some(i)
    ensures JobSignalInv(StepCancel(s, t), i)
  {}

  lemma SignalKeptByCancel(s: State, t: nat, i: JobId)
    requires Enabled(s, CancelStep(t)) && ThreadInv(s, t) && i < |s.jobs| && JobInv(s, i) && JobSignalInv(s, i)
    ensures JobSignalInv(StepCancel(s, t), i)
  {
    if TouchedBy(s.cancels[t]) != Some(i) {
      SignalKeptElsewhere(s, t, i);
    }
  }

  lemma SignalKeptByOther(s: State, l: Label, i: JobId)
    requires JobsInv(s) && Enabled(s, l) && Quiet(l) && i < |s.jobs| && JobSignalInv(s, i)
    ensures i < |Apply(s, l).jobs| && JobSignalInv(Apply(s, l), i)
  {
    var s' := Apply(s, l);
    QuietStep(s, l);
    assert JobInv(s, i);
    if s.jobs[i].winner.ByCancel? {
      var t := s.jobs[i].winner.thread;
      assert s'.cancels[t] == s'.cancels[..|s.cancels|][t];
    }
  }

  lemma SignalKept(s: State, l: Label)
    requires JobsInv(s) && ThreadsInv(s) && SignalInv(s) && Enabled(s, l)
    ensures SignalInv(Apply(s, l))
  {
    var s' := Apply(s, l);
    AllEvolve(s, l);
    forall i | 0 <= i < |s'.jobs| ensures JobSignalInv(s', i) {
      if i < |s.jobs| {
        assert JobSignalInv(s, i) && JobInv(s, i);
        match l {
          case StartRegister(_, _) =>
          case Goroutine(id, act) => SignalKeptByGoroutine(s, id, act, i);
          case CancelStep(t) =>
            assert ThreadInv(s, t);
            SignalKeptByCancel(s, t, i);
          case _ => SignalKeptByOther(s, l, i);
        }
      } else {
        NewJobsAreRunning(s, l, i);
      }
    }
  }

  lemma NewJobsAreRunning(s: State, l: Label, i: JobId)
    requires Enabled(s, l) && |s.jobs| <= i < |Apply(s, l).jobs|
    ensures Apply(s, l).jobs[i].winner == NoWinner && !Apply(s, l).jobs[i].ctxCancelled
  {
    match l {
      case CancelStep(t) =>
      case _ =>
    }
  }

  lemma {:induction false} SignalAlways(s: State, ls: seq<Label>)
    requires Inv(s) && SignalInv(s) && Legal(s, ls)
    ensures SignalInv(Exec(s, ls))
    decreases |ls|
  {
    if ls != [] {
      InvKept(s, ls[0]);
      SignalKept(s, ls[0]);
      SignalAlways(Apply(s, ls[0]), ls[1..]);
    }
  }

  /** A job's context is cancelled once its canceller is past j.cancel(), and for no other reason. */
  lemma SignalledIffCancelled(s: State, i: JobId)
    requires Reachable(s) && i < |s.jobs|
    ensures s.jobs[i].ctxCancelled ==> s.jobs[i].state == Cancelled
    ensures s.jobs[i].state == Cancelled ==>
      && s.jobs[i].winner.ByCancel? && s.jobs[i].winner.thread < |s.cancels|
      && (s.jobs[i].ctxCancelled <==>
            s.cancels[s.jobs[i].winner.thread].pc !in {Flipped(i), Stamped(i)})
  {
    ReachableInv(s);
    var ls :| Legal(INIT, ls) && Exec(INIT, ls) == s;
    SignalAlways(INIT, ls);
    assert JobInv(s, i) && JobSignalInv(s, i);
  }

  /** When a Cancel returns, every job it moved to cancelled has had its context cancelled. */
  lemma CompleteMeansSignalled(s: State, t: nat, i: JobId)
    requires Reachable(s) && t < |s.cancels| && s.cancels[t].pc == Complete
    requires i < |s.jobs| && s.jobs[i].winner == ByCancel(t)
    ensures s.jobs[i].state == Cancelled && s.jobs[i].ctxCancelled
    ensures s.jobs[i].hasNotify ==> s.jobs[i].notified == [Cancelled]
  {
    ReachableInv(s);
    assert JobInv(s, i);
    SignalledIffCancelled(s, i);
    NotifiedOnceWithWinningStatus(s, i);
  }

  // ---------------------------------------------------------------- finishedAt

  /** The next step of the thread that won job i. */
  function OwnStep(w: Winner, i: JobId): Option<Label> {
    match w
    case NoWinner => None
    case ByReturn => Some(Goroutine(i, Advance))
    case ByPanic => Some(Goroutine(i, Advance))
    case ByCancel(t) => Some(CancelStep(t))
  }

  /** Won, and the winner has not moved since. */
  predicate JustWon(s: State, i: JobId)
    requires i < |s.jobs|
  {
    s.jobs[i].winner != NoWinner && StampPending(s.jobs[i], CancellerStamps(s, i))
  }

  /** A compare-and-swap on a job leaves it just won. */
  lemma WinningStep(s: State, l: Label, i: JobId)
    requires JobsInv(s) && ThreadsInv(s) && Enabled(s, l) && i < |s.jobs| && i < |Apply(s, l).jobs|
    requires s.jobs[i].state == Running && Apply(s, l).jobs[i].state != Running
    ensures JustWon(Apply(s, l), i)
  {
    assert JobInv(s, i);
    match l {
      case CancelStep(t) =>
        assert ThreadInv(s, t);
        WinningCancel(s, t, i);
      case Goroutine(id, act) =>
      case StartRegister(_, _) =>
      case _ => QuietStep(s, l);
    }
  }

  lemma WinningCancel(s: State, t: nat, i: JobId)
    requires Enabled(s, CancelStep(t)) && ThreadInv(s, t) && i < |s.jobs| && JobInv(s, i)
    requires s.jobs[i].state == Running && StepCancel(s, t).jobs[i].state != Running
    ensures JustWon(StepCancel(s, t), i)
  {}

  lemma JustWonKeptByCancel(s: State, t: nat, i: JobId)
    requires Enabled(s, CancelStep(t)) && ThreadInv(s, t) && i < |s.jobs| && JobInv(s, i) && JustWon(s, i)
    requires OwnStep(s.jobs[i].winner, i) != Some(CancelStep(t))
    ensures JustWon(StepCancel(s, t), i) && StepCancel(s, t).jobs[i].winner == s.jobs[i].winner
  {}

  lemma JustWonKeptByGoroutine(s: State, id: JobId, act: GoAct, i: JobId)
    requires Enabled(s, Goroutine(id, act)) && i < |s.jobs| && JobInv(s, i) && JustWon(s, i)
    requires OwnStep(s.jobs[i].winner, i) != Some(Goroutine(id, act))
    ensures JustWon(Apply(s, Goroutine(id, act)), i)
    ensures Apply(s, Goroutine(id, act)).jobs[i].winner == s.jobs[i].winner
  {}

  /** A step that leaves the job and its canceller alone. */
  lemma JustWonFrame(s: State, s': State, i: JobId)
    requires i < |s.jobs| && i < |s'.jobs| && s'.jobs[i] == s.jobs[i] && JustWon(s, i)
    requires |s.cancels| <= |s'.cancels| && s'.cancels[..|s.cancels|] == s.cancels
    ensures JustWon(s', i)
  {
    if s.jobs[i].winner.ByCancel? {
      var t := s.jobs[i].winner.thread;
      assert s'.cancels[t] == s'.cancels[..|s.cancels|][t];
    }
  }

  lemma JustWonKept(s: State, l: Label, i: JobId)
    requires JobsInv(s) && ThreadsInv(s) && Enabled(s, l) && i < |s.jobs| && JustWon(s, i)
    requires OwnStep(s.jobs[i].winner, i) != Some(l)
    ensures i < |Apply(s, l).jobs| && JustWon(Apply(s, l), i)
    ensures Apply(s, l).jobs[i].winner == s.jobs[i].winner
  {
    assert JobInv(s, i);
    match l {
      case CancelStep(t) =>
        assert ThreadInv(s, t);
        JustWonKeptByCancel(s, t, i);
      case Goroutine(id, act) => JustWonKeptByGoroutine(s, id, act, i);
      case StartRegister(_, _) => JustWonFrame(s, Apply(s, l), i);
      case _ =>
        QuietStep(s, l);
        JustWonFrame(s, Apply(s, l), i);
    }
  }

  lemma {:induction false} JustWonUntilOwnStep(s: State, ls: seq<Label>, i: JobId)
    requires Inv(s) && Legal(s, ls) && i < |s.jobs| && JustWon(s, i)
    requires forall l <- ls :: OwnStep(s.jobs[i].winner, i) != Some(l)
    ensures Inv(Exec(s, ls)) && i < |Exec(s, ls).jobs| && JustWon(Exec(s, ls), i)
    ensures Exec(s, ls).jobs[i].winner == s.jobs[i].winner
    decreases |ls|
  {
    if ls != [] {
      InvKept(s, ls[0]);
      JustWonKept(s, ls[0], i);
      JustWonUntilOwnStep(Apply(s, ls[0]), ls[1..], i);
    }
  }

  lemma OwnStepStamps(s: State, i: JobId)
    requires Inv(s) && i < |s.jobs| && JustWon(s, i)
    ensures s.jobs[i].finishedAt == None && OwnStep(s.jobs[i].winner, i).Some?
    ensures var own := OwnStep(s.jobs[i].winner, i).value;
      Enabled(s, own) && i < |Apply(s, own).jobs| && Apply(s, own).jobs[i].finishedAt == Some(s.clock)
  {
    assert JobInv(s, i);
    if s.jobs[i].winner.ByCancel? {
      assert ThreadInv(s, s.jobs[i].winner.thread);
    }
  }

  /**
   * A job's finish time is the clock at the winner's first step after its compare-and-swap,
   * however long other threads run in between; it is missing until then and fixed from then.
   */
  lemma FinishTimeIsClockAfterWin(s0: State, win: Label, ls: seq<Label>, i: JobId, more: seq<Label>)
    requires Reachable(s0) && Enabled(s0, win) && i < |s0.jobs| && i < |Apply(s0, win).jobs|
    requires s0.jobs[i].state == Running && Apply(s0, win).jobs[i].state != Running
    requires Legal(Apply(s0, win), ls)
    requires forall l <- ls :: OwnStep(Apply(s0, win).jobs[i].winner, i) != Some(l)
    ensures var s, own := Exec(Apply(s0, win), ls), OwnStep(Apply(s0, win).jobs[i].winner, i);
      && i < |s.jobs| && s.jobs[i].finishedAt == None && own.Some? && Enabled(s, own.value)
      && (Legal(Apply(s, own.value), more) ==>
            var s' := Exec(Apply(s, own.value), more);
            i < |s'.jobs| && s'.jobs[i].finishedAt == Some(s.clock))
  {
    ReachableInv(s0);
    InvKept(s0, win);
    WinningStep(s0, win, i);
    JustWonUntilOwnStep(Apply(s0, win), ls, i);
    var s := Exec(Apply(s0, win), ls);
    OwnStepStamps(s, i);
    var own := OwnStep(s.jobs[i].winner, i).value;
    InvKept(s, own);
    if Legal(Apply(s, own), more) {
      SettledForever(Apply(s, own), more, i);
    }
  }
}
