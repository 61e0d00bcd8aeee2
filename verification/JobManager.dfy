// The JobManager of internal/sandbox/jobs.go as the object it is: two maps that its methods
// update. Here each method runs alone; JobProtocol has the interleavings.

module JobManager {
  import opened Common
  import opened JobProtocol

  datatype Entry = Entry(parent: Option<JobId>, state: JobState, outcome: JobOutcome, finishedAt: Option<int>)

  type Registry = map<JobId, Entry>
  type Index = map<JobId, seq<JobId>>
  type Notice = (JobId, JobState)

  function ChildrenOf(children: Index, id: JobId): seq<JobId> {
    if id in children then children[id] else []
  }

  /** Ids are handed out in order, and each list holds later jobs of its owner, in order, once. */
  predicate Wellformed(jobs: Registry, children: Index, next: JobId) {
    && (forall k <- jobs :: k < next)
    && (forall k <- jobs :: jobs[k].parent.Some? ==> jobs[k].parent.value < k)
    && (forall k <- jobs :: jobs[k].parent.Some? && jobs[k].parent.value in jobs
          ==> k in ChildrenOf(children, jobs[k].parent.value))
    && (forall p <- children :: ListOk(jobs, p, children[p], next))
    && (forall k <- jobs :: jobs[k].finishedAt.Some? <==> IsTerminal(jobs[k].state))
  }

  predicate ListOk(jobs: Registry, p: JobId, kids: seq<JobId>, next: JobId) {
    && (forall i :: 0 <= i < |kids| ==> p < kids[i] < next)
    && (forall i :: 0 <= i < |kids| && kids[i] in jobs ==> jobs[kids[i]].parent == Some(p))
    && (forall i, j :: 0 <= i < j < |kids| ==> kids[i] < kids[j])
  }

  /** The order in which cancelSubtree reaches its compare-and-swaps. */
  ghost function PostOrder(jobs: Registry, children: Index, next: JobId, id: JobId): seq<JobId>
    requires Wellformed(jobs, children, next)
    decreases next - id, 1, 0
  {
    if id in jobs then PostOrderAll(jobs, children, next, id, ChildrenOf(children, id)) + [id] else []
  }

  ghost function PostOrderAll(jobs: Registry, children: Index, next: JobId, lo: JobId, ids: seq<JobId>): seq<JobId>
    requires Wellformed(jobs, children, next) && lo < next
    requires forall i :: 0 <= i < |ids| ==> lo < ids[i] < next
    decreases next - lo, 0, |ids|
  {
    if ids == [] then []
    else PostOrder(jobs, children, next, ids[0]) + PostOrderAll(jobs, children, next, lo, ids[1..])
  }

  /** The registry, the jobs whose j.cancel() was called and the notifier calls made so far. */
  datatype Ledger = Ledger(jobs: Registry, signals: seq<JobId>, notices: seq<Notice>)

  /** The compare-and-swap on one job and, when it wins, the finish time, j.cancel() and the notifier call. */
  function CancelOne(l: Ledger, id: JobId, now: int): Ledger {
    if id in l.jobs && l.jobs[id].state == Running
    then Ledger(l.jobs[id := l.jobs[id].(state := Cancelled, finishedAt := Some(now))],
                l.signals + [id], l.notices + [(id, Cancelled)])
    else l
  }

  function CancelEach(l: Ledger, order: seq<JobId>, now: int): Ledger
    decreases |order|
  {
    if order == [] then l else CancelEach(CancelOne(l, order[0], now), order[1..], now)
  }

  class Manager {
    var jobs: Registry
    var children: Index
    var next: JobId
    var now: int
    var signals: seq<JobId>
    var notices: seq<Notice>

    predicate Valid()
      reads this
    {
      Wellformed(jobs, children, next)
    }

    function Books(): Ledger
      reads this
    {
      Ledger(jobs, signals, notices)
    }

    constructor ()
      ensures Valid() && jobs == map[] && children == map[] && signals == [] && notices == []
    {
      jobs, children, next, now, signals, notices := map[], map[], 0, 0, [], [];
    }

    /** Registers a job; the parent, if given, is a handle handed out earlier. */
    method Start(parent: Option<JobId>) returns (id: JobId)
      requires Valid() && (parent.Some? ==> parent.value < next)
      modifies this
      ensures Valid() && id == old(next) && next == old(next) + 1
      ensures jobs == old(jobs)[id := Entry(parent, Running, ZERO_OUTCOME, None)]
      ensures children == WithChild(old(children), parent, id)
      ensures now == old(now) && signals == old(signals) && notices == old(notices)
    {
      StartKeepsShape(jobs, children, next, parent);
      id := next;
      next := next + 1;
      jobs := jobs[id := Entry(parent, Running, ZERO_OUTCOME, None)];
      if parent.Some? {
        children := children[parent.value := ChildrenOf(children, parent.value) + [id]];
      }
    }

    /** The completion path after run returned: it wins only against a running job. */
    method Complete(id: JobId, outcome: JobOutcome, failed: bool)
      requires Valid() && id in jobs
      modifies this`jobs, this`notices
      ensures Valid()
      ensures old(jobs[id].state) == Running ==>
                var st := if failed then Failed else Succeeded;
                && jobs == old(jobs)[id := old(jobs[id]).(state := st, outcome := outcome, finishedAt := Some(now))]
                && notices == old(notices) + [(id, st)]
      ensures old(jobs[id].state) != Running ==> jobs == old(jobs) && notices == old(notices)
    {
      if jobs[id].state == Running {
        var st := if failed then Failed else Succeeded;
        jobs := jobs[id := jobs[id].(state := st, outcome := outcome, finishedAt := Some(now))];
        notices := notices + [(id, st)];
        SameShape(old(jobs), jobs, children, next);
      }
    }

    /** Depth first over the children lists; an unregistered id stops the recursion. */
    method CancelSubtree(id: JobId)
      requires Valid() && id < next
      modifies this`jobs, this`signals, this`notices
      ensures Valid() && jobs.Keys == old(jobs.Keys)
      ensures Books()
           == CancelEach(old(Books()), PostOrder(old(jobs), children, next, id), now)
      decreases next - id, 1
    {
      if id !in jobs {
        return;
      }
      var kids := ChildrenOf(children, id);
      KidsComeAfter(jobs, children, next, id);
      ghost var was := Books();
      CancelChildren(id, kids);
      VisitSelf(was, children, next, id, now);
      TryCancel(id);
    }

    /** The child loop of cancelSubtree. */
    method CancelChildren(id: JobId, kids: seq<JobId>)
      requires Valid() && KidsAfter(children, next, id, kids)
      modifies this`jobs, this`signals, this`notices
      ensures Valid() && jobs.Keys == old(jobs.Keys)
      ensures Books()
           == CancelEach(old(Books()), PostOrderAll(old(jobs), children, next, id, kids), now)
      decreases next - id, 0
    {
      ghost var was := Books();
      ghost var done: seq<JobId> := [];
      for i := 0 to |kids|
        invariant Valid() && jobs.Keys == was.jobs.Keys
        invariant Ahead(was.jobs, children, next, id, kids, i, done)
               == PostOrderAll(was.jobs, children, next, id, kids)
        invariant Books() == CancelEach(was, done, now)
      {
        ghost var more := VisitChild(was, children, next, id, kids, i, done, now);
        CancelSubtree(kids[i]);
        done := more;
      }
      assert kids[|kids|..] == [];
      assert done + [] == done;
    }

    /** The compare-and-swap of one cancelSubtree activation and what its winner does. */
    method TryCancel(id: JobId)
      requires id in jobs
      modifies this`jobs, this`signals, this`notices
      ensures Books() == CancelOne(old(Books()), id, now)
    {
      if jobs[id].state == Running {
        jobs := jobs[id := jobs[id].(state := Cancelled, finishedAt := Some(now))];
        signals := signals + [id];
        notices := notices + [(id, Cancelled)];
      }
    }

    /** None is ErrJobNotFound; otherwise the state after the attempt. */
    method Cancel(id: JobId) returns (status: Option<JobState>)
      requires Valid()
      modifies this`jobs, this`signals, this`notices
      ensures Valid()
      ensures id !in old(jobs) ==> status == None && Books() == old(Books())
      ensures id in old(jobs) ==>
                && Books()
                   == CancelEach(old(Books()), PostOrder(old(jobs), children, next, id), now)
                && id in jobs && status == Some(jobs[id].state)
    {
      if id !in jobs {
        return None;
      }
      CancelSubtree(id);
      return Some(jobs[id].state);
    }

    /** Drops exactly the jobs that finished more than the TTL ago, in whatever state, with their lists. */
    method ReapExpired()
      requires Valid()
      modifies this`jobs, this`children
      ensures Valid()
      ensures jobs.Keys == set k | k in old(jobs) && !FinishedBefore(old(jobs)[k], now - JOB_TTL)
      ensures children.Keys == set k | k in old(children) && (k in old(jobs) ==> k in jobs)
      ensures forall k <- jobs :: jobs[k] == old(jobs)[k]
      ensures forall k <- children :: children[k] == old(children)[k]
    {
      DropKeepsShape(jobs, children, next, StaleJobs(jobs, now - JOB_TTL));
      Sweep(now - JOB_TTL);
    }

    /** The sweep's loop, in whatever order the map yields its keys. */
    method Sweep(cutoff: int)
      modifies this`jobs, this`children
      ensures jobs == old(jobs) - StaleJobs(old(jobs), cutoff)
      ensures children == old(children) - StaleJobs(old(jobs), cutoff)
    {
      ghost var was, lists := jobs, children;
      var todo := jobs.Keys;
      ghost var dead := StaleJobs(was, cutoff);
      while todo != {}
        invariant todo <= was.Keys && dead == StaleJobs(was, cutoff)
        invariant jobs == was - (dead - todo) && children == lists - (dead - todo)
        decreases |todo|
      {
        var id :| id in todo;
        DropOne(was, lists, dead, todo, id);
        if Stale(jobs[id], cutoff) {
          jobs := jobs - {id};
          children := children - {id};
        }
        todo := todo - {id};
      }
      assert dead - todo == dead;
    }
  }

  lemma DropOne(was: Registry, lists: Index, dead: set<JobId>, todo: set<JobId>, id: JobId)
    requires id in todo && id in was
    ensures id in was - (dead - todo) && (was - (dead - todo))[id] == was[id]
    ensures id in dead ==> dead - (todo - {id}) == (dead - todo) + {id}
    ensures id in dead ==> was - (dead - todo) - {id} == was - (dead - (todo - {id}))
    ensures id in dead ==> lists - (dead - todo) - {id} == lists - (dead - (todo - {id}))
    ensures id !in dead ==> dead - (todo - {id}) == dead - todo
  {}

  function StaleJobs(jobs: Registry, cutoff: int): set<JobId> {
    set k | k in jobs && Stale(jobs[k], cutoff)
  }

  function WithChild(children: Index, parent: Option<JobId>, id: JobId): Index {
    if parent.Some? then children[parent.value := ChildrenOf(children, parent.value) + [id]] else children
  }

  predicate Stale(e: Entry, cutoff: int) {
    IsTerminal(e.state) && e.finishedAt.Some? && e.finishedAt.value < cutoff
  }

  /** No longer running, and the recorded finish time lies before the given time. */
  predicate FinishedBefore(e: Entry, time: int) {
    e.state != Running && match e.finishedAt case Some(at) => at < time case None => false
  }

  // ---------------------------------------------------------------- about the specification

  lemma SameShape(jobs: Registry, jobs': Registry, children: Index, next: JobId)
    requires Wellformed(jobs, children, next) && jobs'.Keys == jobs.Keys
    requires forall k <- jobs :: jobs'[k].parent == jobs[k].parent
    requires forall k <- jobs :: jobs'[k].finishedAt.Some? <==> IsTerminal(jobs'[k].state)
    ensures Wellformed(jobs', children, next)
  {}

  lemma StartKeepsLists(jobs: Registry, children: Index, next: JobId, parent: Option<JobId>, p: JobId)
    requires Wellformed(jobs, children, next) && (parent.Some? ==> parent.value < next)
    requires p in WithChild(children, parent, next)
    ensures ListOk(jobs[next := Entry(parent, Running, ZERO_OUTCOME, None)], p,
                   WithChild(children, parent, next)[p], next + 1)
  {}

  lemma StartKeepsMembership(jobs: Registry, children: Index, next: JobId, parent: Option<JobId>, k: JobId, p: JobId)
    requires (k == next && parent == Some(p)) || k in ChildrenOf(children, p)
    ensures k in ChildrenOf(WithChild(children, parent, next), p)
  {}

  lemma StartKeepsShape(jobs: Registry, children: Index, next: JobId, parent: Option<JobId>)
    requires Wellformed(jobs, children, next) && (parent.Some? ==> parent.value < next)
    ensures Wellformed(jobs[next := Entry(parent, Running, ZERO_OUTCOME, None)],
                       WithChild(children, parent, next), next + 1)
  {
    var jobs' := jobs[next := Entry(parent, Running, ZERO_OUTCOME, None)];
    var children' := WithChild(children, parent, next);
    forall p | p in children' ensures ListOk(jobs', p, children'[p], next + 1) {
      StartKeepsLists(jobs, children, next, parent, p);
    }
    forall k | k in jobs' && jobs'[k].parent.Some? && jobs'[k].parent.value in jobs'
      ensures k in ChildrenOf(children', jobs'[k].parent.value)
    {
      StartKeepsMembership(jobs, children, next, parent, k, jobs'[k].parent.value);
    }
  }

  /** Dropping jobs together with their children lists, as the reaper does. */
  lemma DropKeepsShape(jobs: Registry, children: Index, next: JobId, gone: set<JobId>)
    requires Wellformed(jobs, children, next)
    ensures Wellformed(jobs - gone, children - gone, next)
  {}

  lemma {:induction false} CancelEachKeepsShape(
      l: Ledger, children: Index, next: JobId, order: seq<JobId>, now: int)
    requires Wellformed(l.jobs, children, next)
    ensures Wellformed(CancelEach(l, order, now).jobs, children, next)
    ensures CancelEach(l, order, now).jobs.Keys == l.jobs.Keys
    decreases |order|
  {
    if order != [] {
      SameShape(l.jobs, CancelOne(l, order[0], now).jobs, children, next);
      CancelEachKeepsShape(CancelOne(l, order[0], now), children, next, order[1..], now);
    }
  }

  lemma {:induction false} SameOrder(jobs: Registry, jobs': Registry, children: Index, next: JobId, id: JobId)
    requires Wellformed(jobs, children, next) && Wellformed(jobs', children, next) && jobs'.Keys == jobs.Keys
    ensures PostOrder(jobs', children, next, id) == PostOrder(jobs, children, next, id)
    decreases next - id, 1, 0
  {
    if id in jobs {
      assert id in children ==> ListOk(jobs, id, children[id], next);
      SameOrderAll(jobs, jobs', children, next, id, ChildrenOf(children, id));
    }
  }

  lemma {:induction false} SameOrderAll(
      jobs: Registry, jobs': Registry, children: Index, next: JobId, lo: JobId, ids: seq<JobId>)
    requires Wellformed(jobs, children, next) && Wellformed(jobs', children, next) && jobs'.Keys == jobs.Keys
    requires lo < next && forall i :: 0 <= i < |ids| ==> lo < ids[i] < next
    ensures PostOrderAll(jobs', children, next, lo, ids) == PostOrderAll(jobs, children, next, lo, ids)
    decreases next - lo, 0, |ids|
  {
    if ids != [] {
      SameOrder(jobs, jobs', children, next, ids[0]);
      SameOrderAll(jobs, jobs', children, next, lo, ids[1..]);
    }
  }

  lemma {:induction false} CancelEachAppend(l: Ledger, a: seq<JobId>, b: seq<JobId>, now: int)
    ensures CancelEach(l, a + b, now) == CancelEach(CancelEach(l, a, now), b, now)
    decreases |a|
  {
    if a == [] {
      assert a + b == b;
    } else {
      assert (a + b)[1..] == a[1..] + b;
      CancelEachAppend(CancelOne(l, a[0], now), a[1..], b, now);
    }
  }

  predicate KidsAfter(children: Index, next: JobId, id: JobId, kids: seq<JobId>) {
    id < next && forall i :: 0 <= i < |kids| ==> id < kids[i] < next
  }

  lemma KidsComeAfter(jobs: Registry, children: Index, next: JobId, id: JobId)
    requires Wellformed(jobs, children, next) && id < next
    ensures KidsAfter(children, next, id, ChildrenOf(children, id))
  {}

  /** The visit order as it looks from inside the child loop: the jobs tried, then what is left. */
  ghost function Ahead(was: Registry, children: Index, next: JobId, id: JobId, kids: seq<JobId>,
                       i: nat, done: seq<JobId>): seq<JobId>
    requires Wellformed(was, children, next) && KidsAfter(children, next, id, kids) && i <= |kids|
  {
    done + PostOrderAll(was, children, next, id, kids[i..])
  }

  /** What one round of the child loop adds to the jobs tried so far. */
  lemma VisitChild(was: Ledger, children: Index, next: JobId, id: JobId, kids: seq<JobId>,
                   i: nat, done: seq<JobId>, now: int) returns (more: seq<JobId>)
    requires Wellformed(was.jobs, children, next) && KidsAfter(children, next, id, kids) && i < |kids|
    ensures var l := CancelEach(was, done, now);
      Wellformed(l.jobs, children, next)
      && CancelEach(was, more, now) == CancelEach(l, PostOrder(l.jobs, children, next, kids[i]), now)
    ensures Ahead(was.jobs, children, next, id, kids, i, done) == Ahead(was.jobs, children, next, id, kids, i + 1, more)
  {
    var order := PostOrder(was.jobs, children, next, kids[i]);
    more := done + order;
    assert kids[i..][0] == kids[i] && kids[i..][1..] == kids[i + 1..];
    CancelEachKeepsShape(was, children, next, done, now);
    SameOrder(was.jobs, CancelEach(was, done, now).jobs, children, next, kids[i]);
    CancelEachAppend(was, done, order, now);
  }

  /** What the compare-and-swap on the job itself adds after the loop. */
  lemma VisitSelf(was: Ledger, children: Index, next: JobId, id: JobId, now: int)
    requires Wellformed(was.jobs, children, next) && id in was.jobs
    requires KidsAfter(children, next, id, ChildrenOf(children, id))
    ensures var l := CancelEach(was, PostOrderAll(was.jobs, children, next, id, ChildrenOf(children, id)), now);
      && CancelEach(was, PostOrder(was.jobs, children, next, id), now) == CancelOne(l, id, now)
      && Wellformed(CancelOne(l, id, now).jobs, children, next)
      && CancelOne(l, id, now).jobs.Keys == was.jobs.Keys
  {
    var order := PostOrderAll(was.jobs, children, next, id, ChildrenOf(children, id));
    CancelEachAppend(was, order, [id], now);
    CancelEachKeepsShape(was, children, next, order + [id], now);
    assert [id][1..] == [];
  }

  /** Cancelling a list changes exactly its running jobs; every other entry stays as it was. */
  lemma {:induction false} CancelEachAt(l: Ledger, order: seq<JobId>, now: int, k: JobId)
    requires k in l.jobs
    ensures CancelEach(l, order, now).jobs.Keys == l.jobs.Keys
    ensures k in order && l.jobs[k].state == Running ==>
              CancelEach(l, order, now).jobs[k] == l.jobs[k].(state := Cancelled, finishedAt := Some(now))
    ensures k !in order || l.jobs[k].state != Running ==> CancelEach(l, order, now).jobs[k] == l.jobs[k]
    decreases |order|
  {
    if order != [] {
      CancelEachAt(CancelOne(l, order[0], now), order[1..], now, k);
    }
  }

  /** The running jobs on a list, in its order. */
  function RunningOf(jobs: Registry, order: seq<JobId>): seq<JobId> {
    if order == [] then []
    else
      var id := order[0];
      (if id in jobs && jobs[id].state == Running then [id] else []) + RunningOf(jobs, order[1..])
  }

  lemma {:induction false} RunningOfOthers(jobs: Registry, jobs': Registry, order: seq<JobId>)
    requires forall k <- order :: (k in jobs' <==> k in jobs) && (k in jobs ==> jobs'[k] == jobs[k])
    ensures RunningOf(jobs', order) == RunningOf(jobs, order)
    decreases |order|
  {
    if order != [] {
      assert order[0] in order && forall k <- order[1..] :: k in order;
      RunningOfOthers(jobs, jobs', order[1..]);
    }
  }

  /** For each running job on the list, in order, j.cancel() is called once, and the notifier with cancelled. */
  lemma {:induction false} CancelEachNotifies(l: Ledger, order: seq<JobId>, now: int)
    requires forall i, j :: 0 <= i < j < |order| ==> order[i] != order[j]
    ensures var ran := RunningOf(l.jobs, order);
      && CancelEach(l, order, now).signals == l.signals + ran
      && CancelEach(l, order, now).notices == l.notices + seq(|ran|, i requires 0 <= i < |ran| => (ran[i], Cancelled))
    decreases |order|
  {
    if order == [] {
      assert l.signals + [] == l.signals && l.notices + [] == l.notices;
    } else {
      var id, rest := order[0], order[1..];
      var l1 := CancelOne(l, id, now);
      assert id !in rest;
      RunningOfOthers(l.jobs, l1.jobs, rest);
      CancelEachNotifies(l1, rest, now);
      NoticesOf(l, id, RunningOf(l.jobs, rest), now);
    }
  }

  lemma NoticesOf(l: Ledger, id: JobId, more: seq<JobId>, now: int)
    ensures var ran := (if id in l.jobs && l.jobs[id].state == Running then [id] else []) + more;
      && CancelOne(l, id, now).signals + more == l.signals + ran
      && CancelOne(l, id, now).notices + seq(|more|, i requires 0 <= i < |more| => (more[i], Cancelled))
         == l.notices + seq(|ran|, i requires 0 <= i < |ran| => (ran[i], Cancelled))
  {}

  /** No job is tried twice. */
  lemma PostOrderIsDistinct(jobs: Registry, children: Index, next: JobId, id: JobId, i: nat, j: nat)
    requires Wellformed(jobs, children, next) && i < j < |PostOrder(jobs, children, next, id)|
    ensures PostOrder(jobs, children, next, id)[i] != PostOrder(jobs, children, next, id)[j]
  {
    var order := PostOrder(jobs, children, next, id);
    assert order[j] in order;
    PostOrderIsSubtree(jobs, children, next, id, order[j]);
    assert Below(jobs, order[j], order[j]);
    ChildrenFirst(jobs, children, next, id, order[i], i, j);
  }

  /** Joined by a chain of registered jobs, from id down to k. */
  ghost predicate Below(jobs: Registry, id: JobId, k: JobId)
    decreases k
  {
    && id in jobs && k in jobs
    && (k == id || (jobs[k].parent.Some? && jobs[k].parent.value < k && Below(jobs, id, jobs[k].parent.value)))
  }

  /** The visit order holds exactly the registered descendants, each once. */
  lemma {:induction false} PostOrderIsSubtree(jobs: Registry, children: Index, next: JobId, id: JobId, k: JobId)
    requires Wellformed(jobs, children, next)
    ensures k in PostOrder(jobs, children, next, id) <==> Below(jobs, id, k)
    decreases next - id, 1, 0
  {
    if id in jobs {
      var kids := ChildrenOf(children, id);
      assert id in children ==> ListOk(jobs, id, children[id], next);
      PostOrderAllIsForest(jobs, children, next, id, kids, k);
      if Below(jobs, id, k) && k != id {
        var c := BelowThroughChild(jobs, id, k);
        assert c in ChildrenOf(children, id);
      } else if exists c :: c in kids && Below(jobs, c, k) {
        var c :| c in kids && Below(jobs, c, k);
        BelowTrans(jobs, id, c, k);
      }
    }
  }

  lemma {:induction false} PostOrderAllIsForest(
      jobs: Registry, children: Index, next: JobId, lo: JobId, ids: seq<JobId>, k: JobId)
    requires Wellformed(jobs, children, next)
    requires lo < next && forall i :: 0 <= i < |ids| ==> lo < ids[i] < next
    ensures k in PostOrderAll(jobs, children, next, lo, ids) <==> exists c :: c in ids && Below(jobs, c, k)
    decreases next - lo, 0, |ids|
  {
    if ids != [] {
      PostOrderIsSubtree(jobs, children, next, ids[0], k);
      PostOrderAllIsForest(jobs, children, next, lo, ids[1..], k);
      assert ids[0] in ids && forall c :: c in ids[1..] ==> c in ids;
      assert forall c :: c in ids ==> c == ids[0] || c in ids[1..];
    }
  }

  /** The first step of a downward chain. */
  lemma {:induction false} BelowThroughChild(jobs: Registry, id: JobId, k: JobId) returns (c: JobId)
    requires Below(jobs, id, k) && k != id
    ensures c in jobs && jobs[c].parent == Some(id) && Below(jobs, c, k)
    decreases k
  {
    var p := jobs[k].parent.value;
    if p == id {
      c := k;
    } else {
      c := BelowThroughChild(jobs, id, p);
    }
  }

  lemma {:induction false} BelowTrans(jobs: Registry, id: JobId, c: JobId, k: JobId)
    requires id in jobs && id < c && c in jobs && jobs[c].parent == Some(id) && Below(jobs, c, k)
    ensures Below(jobs, id, k)
    decreases k
  {
    if k != c {
      BelowTrans(jobs, id, c, jobs[k].parent.value);
    } else {
      assert Below(jobs, id, id);
    }
  }

  /** Children before parents: whatever stands at or after a job in the order is not below it. */
  lemma {:induction false} ChildrenFirst(
      jobs: Registry, children: Index, next: JobId, id: JobId, x: JobId, i: nat, j: nat)
    requires Wellformed(jobs, children, next)
    requires i < j < |PostOrder(jobs, children, next, id)| && PostOrder(jobs, children, next, id)[i] == x
    ensures !Below(jobs, x, PostOrder(jobs, children, next, id)[j])
    decreases next - id, 1, 0
  {
    var order := PostOrder(jobs, children, next, id);
    var kids := ChildrenOf(children, id);
    assert id in children ==> ListOk(jobs, id, children[id], next);
    var forest := PostOrderAll(jobs, children, next, id, kids);
    assert order == forest + [id];
    if j < |forest| {
      ForestChildrenFirst(jobs, children, next, id, kids, x, i, j);
    } else {
      assert x == forest[i] && x in forest;
      PostOrderAllIsForest(jobs, children, next, id, kids, x);
      var c :| c in kids && Below(jobs, c, x);
      BelowIsLater(jobs, c, x);
      if Below(jobs, x, id) {
        BelowIsLater(jobs, x, id);
        assert false;
      }
    }
  }

  lemma {:induction false} BelowIsLater(jobs: Registry, id: JobId, k: JobId)
    requires Below(jobs, id, k)
    ensures id <= k
    decreases k
  {
    if k != id {
      BelowIsLater(jobs, id, jobs[k].parent.value);
    }
  }

  lemma {:induction false} ForestChildrenFirst(
      jobs: Registry, children: Index, next: JobId, lo: JobId, ids: seq<JobId>, x: JobId, i: nat, j: nat)
    requires Wellformed(jobs, children, next)
    requires lo < next && ListOk(jobs, lo, ids, next)
    requires i < j < |PostOrderAll(jobs, children, next, lo, ids)|
    requires PostOrderAll(jobs, children, next, lo, ids)[i] == x
    ensures !Below(jobs, x, PostOrderAll(jobs, children, next, lo, ids)[j])
    decreases next - lo, 0, |ids|
  {
    var first := PostOrder(jobs, children, next, ids[0]);
    var rest := PostOrderAll(jobs, children, next, lo, ids[1..]);
    var all := PostOrderAll(jobs, children, next, lo, ids);
    assert all == first + rest;
    if j < |first| {
      ChildrenFirst(jobs, children, next, ids[0], x, i, j);
    } else if i >= |first| {
      ForestChildrenFirst(jobs, children, next, lo, ids[1..], x, i - |first|, j - |first|);
    } else {
      assert x in first && all[j] == rest[j - |first|] && all[j] in rest;
      LaterTreesApart(jobs, children, next, lo, ids, x, all[j]);
    }
  }

  /** Nothing in the trees of later children is below a job in the first child's. */
  lemma LaterTreesApart(
      jobs: Registry, children: Index, next: JobId, lo: JobId, ids: seq<JobId>, x: JobId, y: JobId)
    requires Wellformed(jobs, children, next) && lo < next && ids != [] && ListOk(jobs, lo, ids, next)
    requires x in PostOrder(jobs, children, next, ids[0]) && y in PostOrderAll(jobs, children, next, lo, ids[1..])
    ensures !Below(jobs, x, y)
  {
    PostOrderIsSubtree(jobs, children, next, ids[0], x);
    PostOrderAllIsForest(jobs, children, next, lo, ids[1..], y);
    var k :| 0 <= k < |ids[1..]| && Below(jobs, ids[1..][k], y);
    if Below(jobs, x, y) {
      BelowChain(jobs, ids[0], x, y);
      TwoAncestors(jobs, lo, ids[0], ids[k + 1], y);
      assert false;
    }
  }

  lemma {:induction false} BelowChain(jobs: Registry, a: JobId, b: JobId, c: JobId)
    requires Below(jobs, a, b) && Below(jobs, b, c)
    ensures Below(jobs, a, c)
    decreases c
  {
    if c != b {
      BelowChain(jobs, a, b, jobs[c].parent.value);
    }
  }

  /** Two children of one parent have no common descendant. */
  lemma {:induction false} TwoAncestors(jobs: Registry, p: JobId, a: JobId, b: JobId, y: JobId)
    requires Below(jobs, a, y) && Below(jobs, b, y) && p < a && p < b
    requires jobs[a].parent == Some(p) && jobs[b].parent == Some(p)
    ensures a == b
    decreases y
  {
    if y != a && y != b {
      TwoAncestors(jobs, p, a, b, jobs[y].parent.value);
    } else if y == a && y != b {
      BelowIsLater(jobs, b, p);
    } else if y == b && y != a {
      BelowIsLater(jobs, a, p);
    }
  }
}
