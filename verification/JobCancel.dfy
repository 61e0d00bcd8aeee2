// Recursive cancellation: what Cancel(id) guarantees while completions, panics, other
// Cancels and the reaper run beside it, as long as no Start does.

module JobCancel {
  import opened Common
  import opened JobProtocol
  import opened JobEffects
  import opened JobInvariants
  import opened JobSafety

  /** From parent to child through jobs that are all still registered. */
  predicate Chain(s: State, p: seq<JobId>) {
    && |p| > 0
    && (forall k :: 0 <= k < |p| ==> p[k] in s.registered && p[k] < |s.jobs|)
    && (forall k :: 0 < k < |p| ==> s.jobs[p[k]].parent == Some(p[k - 1]))
  }

  /** Every job joined to id by such a chain, id included, is terminal. */
  ghost predicate DescendantsTerminal(s: State, id: JobId) {
    forall p :: Chain(s, p) && p[0] == id ==> IsTerminal(s.jobs[p[|p| - 1]].state)
  }

  /** The same below id only. */
  ghost predicate ProperDescendantsTerminal(s: State, id: JobId) {
    forall p :: Chain(s, p) && p[0] == id && |p| > 1 ==> IsTerminal(s.jobs[p[|p| - 1]].state)
  }

  // ---------------------------------------------------------------- the subtree as a recursion

  predicate Later(s: State, lo: JobId, ids: seq<JobId>) {
    forall k :: 0 <= k < |ids| ==> lo < ids[k] < |s.jobs|
  }

  predicate EdgesUp(s: State) {
    && (forall i <- s.registered :: i < |s.jobs|)
    && (forall p <- s.children :: Later(s, p, s.children[p]))
  }

  predicate SubtreeTerminal(s: State, id: JobId)
    requires EdgesUp(s)
    decreases if id in s.registered then |s.jobs| - id else 0
  {
    id in s.registered ==>
      IsTerminal(s.jobs[id].state) && forall c <- Kids(s, id) :: SubtreeTerminal(s, c)
  }

  lemma InvEdgesUp(s: State)
    requires Inv(s)
    ensures EdgesUp(s)
  {}

  lemma {:induction false} ChainInSubtree(s: State, id: JobId, p: seq<JobId>)
    requires Inv(s) && EdgesUp(s) && SubtreeTerminal(s, id) && Chain(s, p) && p[0] == id
    ensures IsTerminal(s.jobs[p[|p| - 1]].state)
    decreases |p|
  {
    if |p| > 1 {
      assert s.jobs[p[1]].parent == Some(id);
      assert p[1] in Kids(s, id);
      ChainInSubtree(s, p[1], p[1..]);
    }
  }

  lemma SubtreeMeansDescendants(s: State, id: JobId)
    requires Inv(s) && EdgesUp(s) && SubtreeTerminal(s, id)
    ensures DescendantsTerminal(s, id)
  {
    forall p | Chain(s, p) && p[0] == id ensures IsTerminal(s.jobs[p[|p| - 1]].state) {
      ChainInSubtree(s, id, p);
    }
  }

  /** Without a Start the registered forest only loses jobs, and jobs only become terminal. */
  predicate Shrinks(s: State, s': State) {
    && |s'.jobs| == |s.jobs|
    && s'.registered <= s.registered
    && (forall i <- s'.registered :: Kids(s', i) == Kids(s, i))
    && (forall i :: 0 <= i < |s.jobs| && IsTerminal(s.jobs[i].state) ==> IsTerminal(s'.jobs[i].state))
  }

  lemma {:induction false} SubtreeStaysTerminal(s: State, s': State, id: JobId)
    requires EdgesUp(s) && EdgesUp(s') && Shrinks(s, s') && SubtreeTerminal(s, id)
    ensures SubtreeTerminal(s', id)
    decreases if id in s.registered then |s.jobs| - id else 0
  {
    if id in s'.registered {
      forall c | c in Kids(s', id) ensures SubtreeTerminal(s', c) {
        SubtreeStaysTerminal(s, s', c);
      }
    }
  }

  lemma StepShrinks(s: State, l: Label)
    requires JobsInv(s) && ThreadsInv(s) && Enabled(s, l) && !l.StartRegister?
    ensures Shrinks(s, Apply(s, l))
  {
    RegistryShrinks(s, l);
    AllEvolve(s, l);
  }

  // ---------------------------------------------------------------- one Cancel call

  /** A frame's snapshot is still its job's children list, and its first few subtrees are done. */
  predicate Covered(s: State, f: Frame, upTo: int)
    requires EdgesUp(s)
  {
    && 0 <= upTo <= |f.kids|
    && (f.id in s.registered ==> Kids(s, f.id) == f.kids)
    && (forall k :: 0 <= k < upTo ==> SubtreeTerminal(s, f.kids[k]))
  }

  /** The stack below the top: each frame waits for the call that the next frame is. */
  predicate Linked(s: State, th: CancelThread)
    requires EdgesUp(s)
  {
    && (th.stack != [] ==> th.stack[0].id == th.root)
    && (forall k :: 0 <= k < |th.stack| - 1 ==>
          && 0 < th.stack[k].next <= |th.stack[k].kids|
          && th.stack[k + 1].id == th.stack[k].kids[th.stack[k].next - 1]
          && Covered(s, th.stack[k], th.stack[k].next - 1))
  }

  /** Where a Cancel stands: everything it has returned from is terminal, and stays so. */
  predicate Progress(s: State, th: CancelThread)
    requires EdgesUp(s)
  {
    var n := |th.stack|;
    && Linked(s, th)
    && match th.pc
       case Entering(id) =>
         if n == 0 then id == th.root
         else
           var top := th.stack[n - 1];
           0 < top.next <= |top.kids| && id == top.kids[top.next - 1] && Covered(s, top, top.next - 1)
       case Walking => n > 0 && Covered(s, th.stack[n - 1], th.stack[n - 1].next)
       case Complete => SubtreeTerminal(s, th.root)
       case Flipped(_) => n > 0 && Covered(s, th.stack[n - 1], |th.stack[n - 1].kids|)
       case Stamped(_) => n > 0 && Covered(s, th.stack[n - 1], |th.stack[n - 1].kids|)
       case Signalled(_) => n > 0 && Covered(s, th.stack[n - 1], |th.stack[n - 1].kids|)
  }

  lemma CoveredStays(s: State, s': State, f: Frame, upTo: int)
    requires EdgesUp(s) && EdgesUp(s') && Shrinks(s, s') && Covered(s, f, upTo)
    ensures Covered(s', f, upTo)
  {
    forall k | 0 <= k < upTo ensures SubtreeTerminal(s', f.kids[k]) {
      SubtreeStaysTerminal(s, s', f.kids[k]);
    }
  }

  lemma ProgressStays(s: State, s': State, th: CancelThread)
    requires EdgesUp(s) && EdgesUp(s') && Shrinks(s, s') && Progress(s, th)
    ensures Progress(s', th)
  {
    forall k | 0 <= k < |th.stack| - 1 ensures Covered(s', th.stack[k], th.stack[k].next - 1) {
      CoveredStays(s, s', th.stack[k], th.stack[k].next - 1);
    }
    var n := |th.stack|;
    match th.pc {
      case Entering(_) => if n > 0 { CoveredStays(s, s', th.stack[n - 1], th.stack[n - 1].next - 1); }
      case Walking => CoveredStays(s, s', th.stack[n - 1], th.stack[n - 1].next);
      case Complete => SubtreeStaysTerminal(s, s', th.root);
      case Flipped(_) => CoveredStays(s, s', th.stack[n - 1], |th.stack[n - 1].kids|);
      case Stamped(_) => CoveredStays(s, s', th.stack[n - 1], |th.stack[n - 1].kids|);
      case Signalled(_) => CoveredStays(s, s', th.stack[n - 1], |th.stack[n - 1].kids|);
    }
  }

  /** Returning from a call whose whole subtree is terminal extends what the caller has covered. */
  lemma PopKeepsProgress(s: State, th: CancelThread)
    requires EdgesUp(s) && Linked(s, th) && |th.stack| > 0
    requires SubtreeTerminal(s, th.stack[|th.stack| - 1].id)
    ensures Progress(s, Pop(th))
  {}

  /** A call begun: its frame on top, nothing of it covered yet. */
  lemma PushKeepsProgress(s: State, th: CancelThread, f: Frame)
    requires EdgesUp(s) && th.pc == Entering(f.id) && Progress(s, th)
    requires f.next == 0 && f.kids == Kids(s, f.id)
    ensures Progress(s, th.(stack := th.stack + [f], pc := Walking))
  {
    var stack := th.stack + [f];
    forall k | 0 <= k < |stack| - 1
      ensures 0 < stack[k].next <= |stack[k].kids| && stack[k + 1].id == stack[k].kids[stack[k].next - 1]
      ensures Covered(s, stack[k], stack[k].next - 1)
    {
      assert stack[k] == th.stack[k];
    }
  }

  lemma EnterRegistered(s: State, t: nat)
    requires t < |s.cancels| && s.cancels[t].pc.Entering? && s.cancels[t].pc.id in s.registered
    requires EdgesUp(StepCancel(s, t)) && Progress(StepCancel(s, t), s.cancels[t])
    ensures Progress(StepCancel(s, t), StepCancel(s, t).cancels[t])
  {
    var th := s.cancels[t];
    PushKeepsProgress(StepCancel(s, t), th, Frame(th.pc.id, Kids(s, th.pc.id), 0));
  }

  lemma EnterGone(s: State, t: nat)
    requires t < |s.cancels| && s.cancels[t].pc.Entering? && s.cancels[t].pc.id !in s.registered
    requires EdgesUp(StepCancel(s, t)) && Progress(StepCancel(s, t), s.cancels[t])
    ensures Progress(StepCancel(s, t), StepCancel(s, t).cancels[t])
  {
    var s', th := StepCancel(s, t), s.cancels[t];
    if th.stack != [] {
      var top := th.stack[|th.stack| - 1];
      assert Covered(s', top, top.next);
    }
  }

  lemma EnterKeepsProgress(s: State, t: nat)
    requires t < |s.cancels| && s.cancels[t].pc.Entering?
    requires EdgesUp(StepCancel(s, t)) && Progress(StepCancel(s, t), s.cancels[t])
    ensures Progress(StepCancel(s, t), StepCancel(s, t).cancels[t])
  {
    if s.cancels[t].pc.id in s.registered {
      EnterRegistered(s, t);
    } else {
      EnterGone(s, t);
    }
  }

  lemma LoopKeepsProgress(s: State, t: nat)
    requires t < |s.cancels| && s.cancels[t].pc == Walking && CancelEnabled(s, s.cancels[t])
    requires EdgesUp(s) && EdgesUp(StepCancel(s, t)) && Progress(StepCancel(s, t), s.cancels[t])
    ensures Progress(StepCancel(s, t), StepCancel(s, t).cancels[t])
  {
    var s' := StepCancel(s, t);
    var th := s.cancels[t];
    var top := th.stack[|th.stack| - 1];
    if top.next == |top.kids| && s.jobs[top.id].state != Running {
      assert SubtreeTerminal(s', top.id);
      PopKeepsProgress(s', th);
    }
  }

  lemma OwnStepKeepsProgress(s: State, t: nat)
    requires EdgesUp(s) && Enabled(s, CancelStep(t)) && Progress(s, s.cancels[t]) && ThreadInv(s, t)
    requires EdgesUp(StepCancel(s, t)) && Shrinks(s, StepCancel(s, t))
    requires s.cancels[t].pc.Signalled? ==> IsTerminal(s.jobs[s.cancels[t].pc.id].state)
    ensures Progress(StepCancel(s, t), StepCancel(s, t).cancels[t])
  {
    var s' := StepCancel(s, t);
    var th := s.cancels[t];
    ProgressStays(s, s', th);
    match th.pc {
      case Entering(_) => EnterKeepsProgress(s, t);
      case Walking => LoopKeepsProgress(s, t);
      case Flipped(_) =>
      case Stamped(_) =>
      case Signalled(id) => FinishKeepsProgress(s', th, id);
    }
  }

  lemma FinishKeepsProgress(s': State, th: CancelThread, id: JobId)
    requires EdgesUp(s') && Progress(s', th) && th.pc == Signalled(id) && th.stack[|th.stack| - 1].id == id
    requires id < |s'.jobs| && IsTerminal(s'.jobs[id].state)
    ensures Progress(s', Pop(th))
  {}

  lemma ForestAfterStep(s: State, l: Label)
    requires Inv(s) && Enabled(s, l) && !l.StartRegister?
    ensures EdgesUp(s) && EdgesUp(Apply(s, l)) && Shrinks(s, Apply(s, l))
  {
    InvKept(s, l);
    InvEdgesUp(s);
    InvEdgesUp(Apply(s, l));
    StepShrinks(s, l);
  }

  lemma ThreadStepKeepsProgress(s: State, t: nat)
    requires JobsInv(s) && ThreadsInv(s) && Enabled(s, CancelStep(t)) && EdgesUp(s) && Progress(s, s.cancels[t])
    requires EdgesUp(StepCancel(s, t)) && Shrinks(s, StepCancel(s, t))
    ensures Progress(StepCancel(s, t), StepCancel(s, t).cancels[t])
  {
    assert ThreadInv(s, t);
    if s.cancels[t].pc.Signalled? {
      SignalledIsTerminal(s, t);
    }
    OwnStepKeepsProgress(s, t);
  }

  lemma StepKeepsProgress(s: State, l: Label, t: nat)
    requires Inv(s) && EdgesUp(s) && Enabled(s, l) && !l.StartRegister?
    requires t < |s.cancels| && Progress(s, s.cancels[t])
    ensures EdgesUp(Apply(s, l)) && t < |Apply(s, l).cancels| && Progress(Apply(s, l), Apply(s, l).cancels[t])
  {
    ForestAfterStep(s, l);
    if l == CancelStep(t) {
      ThreadStepKeepsProgress(s, t);
    } else {
      OtherThreadsStill(s, l, t);
      ProgressStays(s, Apply(s, l), s.cancels[t]);
    }
  }

  lemma SignalledIsTerminal(s: State, t: nat)
    requires JobsInv(s) && t < |s.cancels| && ThreadInv(s, t) && s.cancels[t].pc.Signalled?
    ensures IsTerminal(s.jobs[s.cancels[t].pc.id].state)
  {
    assert JobInv(s, s.cancels[t].pc.id);
  }

  lemma RootStays(s: State, l: Label, t: nat)
    requires Enabled(s, l) && t < |s.cancels|
    ensures t < |Apply(s, l).cancels| && Apply(s, l).cancels[t].root == s.cancels[t].root
  {}

  lemma {:induction false} ProgressAlways(s: State, ls: seq<Label>, t: nat)
    requires Inv(s) && EdgesUp(s) && Legal(s, ls) && (forall l <- ls :: !l.StartRegister?)
    requires t < |s.cancels| && Progress(s, s.cancels[t])
    ensures Inv(Exec(s, ls)) && EdgesUp(Exec(s, ls))
    ensures t < |Exec(s, ls).cancels| && Exec(s, ls).cancels[t].root == s.cancels[t].root
    ensures Progress(Exec(s, ls), Exec(s, ls).cancels[t])
    decreases |ls|
  {
    if ls != [] {
      assert !ls[0].StartRegister?;
      InvKept(s, ls[0]);
      StepKeepsProgress(s, ls[0], t);
      RootStays(s, ls[0], t);
      ProgressAlways(Apply(s, ls[0]), ls[1..], t);
    }
  }

  /** A job leaves the registry only when it is terminal. */
  predicate RegisteredOrTerminal(s: State, id: JobId) {
    id < |s.jobs| && (id in s.registered || IsTerminal(s.jobs[id].state))
  }

  lemma {:induction false} RegisteredUntilTerminal(s: State, ls: seq<Label>, id: JobId)
    requires Inv(s) && Legal(s, ls) && (forall l <- ls :: !l.StartRegister?) && RegisteredOrTerminal(s, id)
    ensures RegisteredOrTerminal(Exec(s, ls), id)
    decreases |ls|
  {
    if ls != [] {
      assert !ls[0].StartRegister?;
      InvKept(s, ls[0]);
      RegistryShrinks(s, ls[0]);
      StepEvolves(s, ls[0], id);
      RegisteredUntilTerminal(Apply(s, ls[0]), ls[1..], id);
    }
  }

  /**
   * When a Cancel call returns, the job itself is terminal, whether or not the reaper has
   * dropped it by then, and so is everything joined to it by registered jobs, also below jobs
   * that were terminal before the call. Each job that this call moved to cancelled has had its
   * context cancelled and its notifier called.
   */
  lemma CancelLeavesSubtreeTerminal(s0: State, id: JobId, ls: seq<Label>)
    requires Reachable(s0) && Enabled(s0, CancelInvoke(id))
    requires Legal(Apply(s0, CancelInvoke(id)), ls) && (forall l <- ls :: !l.StartRegister?)
    requires var s := Exec(Apply(s0, CancelInvoke(id)), ls);
             |s0.cancels| < |s.cancels| && s.cancels[|s0.cancels|].pc == Complete
    ensures DescendantsTerminal(Exec(Apply(s0, CancelInvoke(id)), ls), id)
    ensures var s := Exec(Apply(s0, CancelInvoke(id)), ls); id < |s.jobs| && IsTerminal(s.jobs[id].state)
    ensures forall j <- Exec(Apply(s0, CancelInvoke(id)), ls).jobs :: j.winner == ByCancel(|s0.cancels|) ==>
      j.state == Cancelled && j.ctxCancelled && (j.hasNotify ==> j.notified == [Cancelled])
  {
    ReachableInv(s0);
    var s1 := Apply(s0, CancelInvoke(id));
    InvKept(s0, CancelInvoke(id));
    InvEdgesUp(s1);
    ProgressAlways(s1, ls, |s0.cancels|);
    SubtreeMeansDescendants(Exec(s1, ls), id);
    RegisteredUntilTerminal(s1, ls, id);
    OwnWinsAreSignalled(s0, id, ls);
  }

  lemma OwnWinsAreSignalled(s0: State, id: JobId, ls: seq<Label>)
    requires Reachable(s0) && Enabled(s0, CancelInvoke(id)) && Legal(Apply(s0, CancelInvoke(id)), ls)
    requires var s := Exec(Apply(s0, CancelInvoke(id)), ls);
             |s0.cancels| < |s.cancels| && s.cancels[|s0.cancels|].pc == Complete
    ensures forall j <- Exec(Apply(s0, CancelInvoke(id)), ls).jobs :: j.winner == ByCancel(|s0.cancels|) ==>
      j.state == Cancelled && j.ctxCancelled && (j.hasNotify ==> j.notified == [Cancelled])
  {
    ReachableStep(s0, CancelInvoke(id));
    ReachableExec(Apply(s0, CancelInvoke(id)), ls);
    var s := Exec(Apply(s0, CancelInvoke(id)), ls);
    forall i | 0 <= i < |s.jobs| && s.jobs[i].winner == ByCancel(|s0.cancels|)
      ensures s.jobs[i].state == Cancelled && s.jobs[i].ctxCancelled
      ensures s.jobs[i].hasNotify ==> s.jobs[i].notified == [Cancelled]
    {
      CompleteMeansSignalled(s, |s0.cancels|, i);
    }
  }

  /** The only step of a cancel thread that makes a job cancelled ends the loop of its top frame. */
  lemma FlipStep(s: State, t: nat, x: JobId)
    requires Enabled(s, CancelStep(t)) && x < |s.jobs| && s.jobs[x].state != Cancelled
    requires Apply(s, CancelStep(t)).jobs[x].state == Cancelled
    ensures var th := s.cancels[t];
      && th.pc == Walking
      && var top := th.stack[|th.stack| - 1]; top.id == x && top.next == |top.kids|
  {}

  lemma CoveredMeansDescendants(s: State, f: Frame)
    requires Inv(s) && EdgesUp(s) && Covered(s, f, |f.kids|)
    ensures ProperDescendantsTerminal(s, f.id)
  {
    forall p | Chain(s, p) && p[0] == f.id && |p| > 1 ensures IsTerminal(s.jobs[p[|p| - 1]].state) {
      assert s.jobs[p[1]].parent == Some(f.id);
      assert p[1] in Kids(s, f.id);
      ChainInSubtree(s, p[1], p[1..]);
    }
  }

  /**
   * Depth first: in every run of a Cancel, whenever its thread moves a job to cancelled, all
   * registered descendants of that job are terminal already.
   */
  lemma CancelFlipsBottomUp(s0: State, id: JobId, ls: seq<Label>, x: JobId)
    requires Reachable(s0) && Enabled(s0, CancelInvoke(id))
    requires Legal(Apply(s0, CancelInvoke(id)), ls) && (forall l <- ls :: !l.StartRegister?)
    requires var s := Exec(Apply(s0, CancelInvoke(id)), ls);
      && Enabled(s, CancelStep(|s0.cancels|)) && x < |s.jobs| && s.jobs[x].state != Cancelled
      && Apply(s, CancelStep(|s0.cancels|)).jobs[x].state == Cancelled
    ensures ProperDescendantsTerminal(Exec(Apply(s0, CancelInvoke(id)), ls), x)
  {
    ReachableInv(s0);
    var s1 := Apply(s0, CancelInvoke(id));
    var s := Exec(s1, ls);
    InvKept(s0, CancelInvoke(id));
    InvEdgesUp(s1);
    ProgressAlways(s1, ls, |s0.cancels|);
    FlipStep(s, |s0.cancels|, x);
    CoveredMeansDescendants(s, s.cancels[|s0.cancels|].stack[|s.cancels[|s0.cancels|].stack| - 1]);
  }

  // ---------------------------------------------------------------- termination

  /** How many steps a call of cancelSubtree(id) takes at most, if no Start adds children. */
  function Work(s: State, id: JobId): nat
    requires EdgesUp(s) && id < |s.jobs|
    decreases |s.jobs| - id, 1, 0
  {
    if id in s.registered then (assert Later(s, id, Kids(s, id)); 5 + WorkAll(s, id, Kids(s, id)))
    else 1
  }

  /** The same for a loop over the children ids, all later than lo. */
  function WorkAll(s: State, lo: JobId, ids: seq<JobId>): nat
    requires EdgesUp(s) && lo < |s.jobs| && Later(s, lo, ids)
    decreases |s.jobs| - lo, 0, |ids|
  {
    if ids == [] then 0 else 1 + Work(s, ids[0]) + WorkAll(s, lo, ids[1..])
  }

  predicate FrameOk(s: State, f: Frame) {
    f.id < |s.jobs| && f.next <= |f.kids| && Later(s, f.id, f.kids)
  }

  predicate StackOk(s: State, stack: seq<Frame>) {
    forall k :: 0 <= k < |stack| ==> FrameOk(s, stack[k])
  }

  function StackWork(s: State, stack: seq<Frame>): nat
    requires EdgesUp(s) && StackOk(s, stack)
    decreases |stack|
  {
    if stack == [] then 0
    else
      var top := stack[|stack| - 1];
      StackWork(s, stack[..|stack| - 1]) + WorkAll(s, top.id, top.kids[top.next..]) + 4
  }

  predicate ThreadOk(s: State, th: CancelThread) {
    && StackOk(s, th.stack)
    && (th.pc.Entering? ==> th.pc.id < |s.jobs|)
    && (th.pc.Walking? || th.pc.Flipped? || th.pc.Stamped? || th.pc.Signalled? ==> th.stack != [])
    && (th.pc.Complete? ==> th.stack == [])
  }

  function Remaining(s: State, th: CancelThread): nat
    requires EdgesUp(s) && ThreadOk(s, th)
  {
    match th.pc
    case Entering(id) => Work(s, id) + StackWork(s, th.stack)
    case Walking => StackWork(s, th.stack)
    case Flipped(_) => 3 + StackWork(s, th.stack[..|th.stack| - 1])
    case Stamped(_) => 2 + StackWork(s, th.stack[..|th.stack| - 1])
    case Signalled(_) => 1 + StackWork(s, th.stack[..|th.stack| - 1])
    case Complete => 0
  }

  lemma {:induction false} WorkShrinks(s: State, s': State, id: JobId)
    requires EdgesUp(s) && EdgesUp(s') && Shrinks(s, s') && id < |s.jobs|
    ensures Work(s', id) <= Work(s, id)
    decreases |s.jobs| - id, 1, 0
  {
    if id in s'.registered {
      assert Later(s, id, Kids(s, id));
      WorkAllShrinks(s, s', id, Kids(s, id));
    }
  }

  lemma {:induction false} WorkAllShrinks(s: State, s': State, lo: JobId, ids: seq<JobId>)
    requires EdgesUp(s) && EdgesUp(s') && Shrinks(s, s') && lo < |s.jobs| && Later(s, lo, ids)
    ensures WorkAll(s', lo, ids) <= WorkAll(s, lo, ids)
    decreases |s.jobs| - lo, 0, |ids|
  {
    if ids != [] {
      WorkShrinks(s, s', ids[0]);
      WorkAllShrinks(s, s', lo, ids[1..]);
    }
  }

  lemma {:induction false} StackWorkShrinks(s: State, s': State, stack: seq<Frame>)
    requires EdgesUp(s) && EdgesUp(s') && Shrinks(s, s')
    requires StackOk(s, stack) && StackOk(s', stack)
    ensures StackWork(s', stack) <= StackWork(s, stack)
    decreases |stack|
  {
    if stack != [] {
      var top := stack[|stack| - 1];
      StackWorkShrinks(s, s', stack[..|stack| - 1]);
      WorkAllShrinks(s, s', top.id, top.kids[top.next..]);
    }
  }

  lemma RemainingShrinks(s: State, s': State, th: CancelThread)
    requires EdgesUp(s) && EdgesUp(s') && Shrinks(s, s') && ThreadOk(s, th) && ThreadOk(s', th)
    ensures Remaining(s', th) <= Remaining(s, th)
  {
    if th.pc.Entering? {
      WorkShrinks(s, s', th.pc.id);
    }
    StackWorkShrinks(s, s', th.stack);
    if th.stack != [] {
      StackWorkShrinks(s, s', th.stack[..|th.stack| - 1]);
    }
  }

  lemma ThreadInvOk(s: State, t: nat)
    requires t < |s.cancels| && ThreadInv(s, t)
    ensures ThreadOk(s, s.cancels[t])
  {}

  // The forest after the step, so that only the thread itself has moved.

  lemma EnterCounts(s: State, t: nat)
    requires t < |s.cancels| && s.cancels[t].pc.Entering? && EdgesUp(s) && EdgesUp(StepCancel(s, t))
    requires ThreadOk(StepCancel(s, t), StepCancel(s, t).cancels[t]) && ThreadOk(StepCancel(s, t), s.cancels[t])
    ensures Remaining(StepCancel(s, t), StepCancel(s, t).cancels[t]) < Remaining(StepCancel(s, t), s.cancels[t])
  {
    var s', th := StepCancel(s, t), s.cancels[t];
    if th.pc.id in s.registered {
      assert s'.cancels[t].stack[..|th.stack|] == th.stack;
      assert Kids(s, th.pc.id)[0..] == Kids(s, th.pc.id);
    }
  }

  lemma NextChildCounts(s: State, t: nat)
    requires t < |s.cancels| && s.cancels[t].pc == Walking && CancelEnabled(s, s.cancels[t])
    requires EdgesUp(s) && EdgesUp(StepCancel(s, t))
    requires var top := s.cancels[t].stack[|s.cancels[t].stack| - 1]; top.next < |top.kids|
    requires ThreadOk(StepCancel(s, t), StepCancel(s, t).cancels[t]) && ThreadOk(StepCancel(s, t), s.cancels[t])
    ensures Remaining(StepCancel(s, t), StepCancel(s, t).cancels[t]) < Remaining(StepCancel(s, t), s.cancels[t])
  {
    var th := s.cancels[t];
    var k := |th.stack| - 1;
    var top := th.stack[k];
    assert StepCancel(s, t).cancels[t].stack[..k] == th.stack[..k];
    assert top.kids[top.next..][1..] == top.kids[top.next + 1..];
  }

  lemma OwnStepCounts(s: State, t: nat)
    requires t < |s.cancels| && CancelEnabled(s, s.cancels[t]) && EdgesUp(s) && EdgesUp(StepCancel(s, t))
    requires ThreadOk(s, s.cancels[t]) && ThreadOk(StepCancel(s, t), StepCancel(s, t).cancels[t])
    requires ThreadOk(StepCancel(s, t), s.cancels[t])
    ensures Remaining(StepCancel(s, t), StepCancel(s, t).cancels[t]) < Remaining(StepCancel(s, t), s.cancels[t])
  {
    var th := s.cancels[t];
    if th.pc.Entering? {
      EnterCounts(s, t);
    } else if th.pc == Walking && th.stack[|th.stack| - 1].next < |th.stack[|th.stack| - 1].kids| {
      NextChildCounts(s, t);
    }
  }

  function Count(ls: seq<Label>, t: nat): nat {
    if ls == [] then 0 else (if ls[0] == CancelStep(t) then 1 else 0) + Count(ls[1..], t)
  }

  lemma StepCounts(s: State, l: Label, t: nat)
    requires Inv(s) && EdgesUp(s) && Enabled(s, l) && !l.StartRegister?
    requires t < |s.cancels| && ThreadOk(s, s.cancels[t])
    ensures Inv(Apply(s, l)) && EdgesUp(Apply(s, l)) && t < |Apply(s, l).cancels|
    ensures ThreadOk(Apply(s, l), Apply(s, l).cancels[t])
    ensures (if l == CancelStep(t) then 1 else 0) + Remaining(Apply(s, l), Apply(s, l).cancels[t])
         <= Remaining(s, s.cancels[t])
  {
    var s' := Apply(s, l);
    InvKept(s, l);
    InvEdgesUp(s');
    StepShrinks(s, l);
    RootStays(s, l, t);
    assert ThreadOk(s', s.cancels[t]);
    RemainingShrinks(s, s', s.cancels[t]);
    assert ThreadInv(s', t);
    ThreadInvOk(s', t);
    if l == CancelStep(t) {
      OwnStepCounts(s, t);
    } else {
      OtherThreadsStill(s, l, t);
    }
  }

  lemma {:induction false} StepsAreBounded(s: State, ls: seq<Label>, t: nat)
    requires Inv(s) && EdgesUp(s) && Legal(s, ls) && (forall l <- ls :: !l.StartRegister?)
    requires t < |s.cancels| && ThreadOk(s, s.cancels[t])
    ensures Inv(Exec(s, ls)) && EdgesUp(Exec(s, ls)) && t < |Exec(s, ls).cancels|
    ensures ThreadOk(Exec(s, ls), Exec(s, ls).cancels[t])
    ensures Count(ls, t) + Remaining(Exec(s, ls), Exec(s, ls).cancels[t]) <= Remaining(s, s.cancels[t])
    decreases |ls|
  {
    if ls != [] {
      assert !ls[0].StartRegister?;
      StepCounts(s, ls[0], t);
      StepsAreBounded(Apply(s, ls[0]), ls[1..], t);
    }
  }

  /**
   * Cancel terminates: it is never blocked before it is complete, and however it is
   * interleaved it takes at most as many steps as the registered subtree had at the call.
   */
  lemma CancelTerminates(s0: State, id: JobId, ls: seq<Label>)
    requires Reachable(s0) && Enabled(s0, CancelInvoke(id))
    requires Legal(Apply(s0, CancelInvoke(id)), ls) && (forall l <- ls :: !l.StartRegister?)
    ensures EdgesUp(s0) && id < |s0.jobs| && Count(ls, |s0.cancels|) <= Work(s0, id)
    ensures var s := Exec(Apply(s0, CancelInvoke(id)), ls);
      |s0.cancels| < |s.cancels|
      && (s.cancels[|s0.cancels|].pc == Complete || Enabled(s, CancelStep(|s0.cancels|)))
  {
    var t := |s0.cancels|;
    var s1 := Apply(s0, CancelInvoke(id));
    ReachableInv(s0);
    InvKept(s0, CancelInvoke(id));
    InvEdgesUp(s0);
    InvEdgesUp(s1);
    StepsAreBounded(s1, ls, t);
    assert Shrinks(s0, s1);
    WorkShrinks(s0, s1, id);
    var s := Exec(s1, ls);
    assert ThreadInv(s, t);
    var th := s.cancels[t];
    if th.stack != [] {
      assert FrameInv(s, th.stack[|th.stack| - 1]);
    }
  }
}
