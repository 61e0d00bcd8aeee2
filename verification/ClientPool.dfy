// The pool of upstream clients with idle timers (internal/mcpproxy/clients.go). Operations
// hold the pool's mutex, so each is one step; a timer that fires is a pending eviction until
// it gets the mutex. Generations are unbounded. Times are step counts kept for the proofs.

module ClientPool {
  import opened Common
  import opened Listing

  type ClientId = nat
  type TimerId = nat

  datatype Status = Armed | Fired | Stopped | Done

  /** client, the incarnation it was armed for, and armedAt are not in the program. */
  datatype Timer = Timer(server: string, gen: nat, client: ClientId, armedAt: nat, status: Status)

  /** clean: no timer of an earlier incarnation was outstanding at the spawn; not in the program. */
  datatype Entry = Entry(client: ClientId, idleTimer: Option<TimerId>, gen: nat, lastAcquire: nat, clean: bool)

  datatype State = State(
    clients: map<string, Entry>, timers: seq<Timer>, spawned: nat, closed: multiset<ClientId>, now: nat)

  const INIT := State(map[], [], 0, multiset{}, 0)

  predicate Outstanding(t: Timer) {
    t.status.Armed? || t.status.Fired?
  }

  // ---------------------------------------------------------------- the operations

  /** Timer.Stop: no effect on a timer that has fired. */
  function StopTimer(ts: seq<Timer>, t: Option<TimerId>): seq<Timer> {
    if t.Some? && t.value < |ts| && ts[t.value].status.Armed?
    then ts[t.value := ts[t.value].(status := Stopped)] else ts
  }

  /** resetIdleTimerLocked on the entry e of server. */
  function ResetIdleTimer(s: State, server: string, e: Entry): State {
    var ts := StopTimer(s.timers, e.idleTimer);
    var e' := e.(idleTimer := Some(|ts|), gen := e.gen + 1, lastAcquire := s.now);
    s.(clients := s.clients[server := e'],
       timers := ts + [Timer(server, e'.gen, e.client, s.now, Armed)],
       now := s.now + 1)
  }

  predicate NoneOutstanding(s: State, server: string) {
    forall t <- s.timers :: t.server == server ==> !Outstanding(t)
  }

  /** The entry of a client just spawned, before its timer is armed. */
  function Fresh(s: State, server: string): Entry {
    Entry(s.spawned, None, 0, s.now, NoneOutstanding(s, server))
  }

  function Spawn(s: State, server: string): State {
    ResetIdleTimer(s.(spawned := s.spawned + 1), server, Fresh(s, server))
  }

  /** acquire for a server that is in the spec set; spawnOk is what spawnClient does. */
  function Acquired(s: State, server: string, spawnOk: bool): State {
    if server in s.clients then ResetIdleTimer(s, server, s.clients[server])
    else if spawnOk then Spawn(s, server)
    else s
  }

  function Close(s: State, server: string): State
    requires server in s.clients
  {
    s.(clients := s.clients - {server}, closed := s.closed + multiset{s.clients[server].client})
  }

  predicate Evicts(s: State, t: TimerId)
    requires t < |s.timers|
  {
    s.timers[t].server in s.clients && s.clients[s.timers[t].server].gen == s.timers[t].gen
  }

  /** evict, run for the fired timer t. */
  function Evicted(s: State, t: TimerId): State
    requires t < |s.timers|
  {
    var s' := s.(timers := s.timers[t := s.timers[t].(status := Done)]);
    if Evicts(s, t) then Close(s', s.timers[t].server) else s'
  }

  /** One round of the loop in Shutdown. */
  function ShutOne(s: State, server: string): State
    requires server in s.clients
  {
    Close(s.(timers := StopTimer(s.timers, s.clients[server].idleTimer)), server)
  }

  ghost function ShutAll(s: State, names: seq<string>): State {
    if names == [] then s
    else
      var before := ShutAll(s, names[..|names| - 1]);
      if names[|names| - 1] in before.clients then ShutOne(before, names[|names| - 1]) else before
  }

  // ---------------------------------------------------------------- the object

  class Pool {
    const specs: set<string>
    var clients: map<string, Entry>
    var timers: seq<Timer>
    var spawned: nat
    var closed: multiset<ClientId>
    var now: nat

    ghost function View(): State
      reads this
    {
      State(clients, timers, spawned, closed, now)
    }

    constructor (specs: set<string>)
      ensures View() == INIT && this.specs == specs
    {
      this.specs := specs;
      clients, timers, spawned, closed, now := map[], [], 0, multiset{}, 0;
    }

    /** The client to use; none for an unknown server or a failed spawn. */
    method Acquire(server: string, spawnOk: bool) returns (c: Option<ClientId>)
      modifies this
      ensures View() == if server in specs then Acquired(old(View()), server, spawnOk) else old(View())
      ensures c.Some? <==> server in specs && (server in old(clients) || spawnOk)
      ensures c.Some? ==> server in clients && clients[server].client == c.value
    {
      if server !in specs {
        return None;
      }
      if server in clients {
        ResetIdleTimerLocked(server, clients[server]);
        return Some(clients[server].client);
      }
      if !spawnOk {
        return None;
      }
      SpawnLocked(server);
      c := Some(clients[server].client);
    }

    /** The branch of acquire that spawns. */
    method SpawnLocked(server: string)
      requires server !in clients
      modifies this
      ensures View() == Spawn(old(View()), server)
    {
      ghost var s := View();
      var uc := Entry(spawned, None, 0, now, forall t <- timers :: t.server == server ==> !Outstanding(t));
      assert uc.clean == NoneOutstanding(s, server);
      spawned := spawned + 1;
      clients := clients[server := uc];
      ResetIdleTimerLocked(server, uc);
      assert clients == s.clients[server := clients[server]];
    }

    method ResetIdleTimerLocked(server: string, uc: Entry)
      modifies this`clients, this`timers, this`now
      ensures View() == ResetIdleTimer(old(View()), server, uc)
    {
      if uc.idleTimer.Some? {
        timers := StopTimer(timers, uc.idleTimer);
      }
      var gen := uc.gen + 1;
      var t := |timers|;
      timers := timers + [Timer(server, gen, uc.client, now, Armed)];
      clients := clients[server := uc.(idleTimer := Some(t), gen := gen, lastAcquire := now)];
      now := now + 1;
    }

    /** The callback of timer t: evict(server, gen). */
    method Evict(t: TimerId)
      requires t < |timers| && timers[t].status.Fired?
      modifies this
      ensures View() == Evicted(old(View()), t)
    {
      var server, capturedGen := timers[t].server, timers[t].gen;
      timers := timers[t := timers[t].(status := Done)];
      if server !in clients {
        return;
      }
      var uc := clients[server];
      if uc.gen != capturedGen {
        return;
      }
      closed := closed + multiset{uc.client};
      clients := clients - {server};
    }

    /** Closes every client, in map order. */
    method Shutdown() returns (ghost names: seq<string>)
      modifies this
      ensures Lists(names, old(clients.Keys)) && View() == ShutAll(old(View()), names)
    {
      var listed := KeysOf(clients.Keys);
      names := listed;
      for i := 0 to |listed|
        invariant View() == ShutAll(old(View()), listed[..i])
        invariant forall k :: i <= k < |listed| ==> listed[k] in clients
      {
        assert listed[..i + 1][..i] == listed[..i];
        var uc := clients[listed[i]];
        timers := StopTimer(timers, uc.idleTimer);
        closed := closed + multiset{uc.client};
        clients := clients - {listed[i]};
      }
      assert listed[..|listed|] == listed;
    }
  }

  // ---------------------------------------------------------------- runs

  datatype Step =
    | DoAcquire(server: string, spawnOk: bool)
    | DoFire(t: TimerId)
    | DoEvict(t: TimerId)
    | DoShutdown(names: seq<string>)

  predicate Enabled(s: State, l: Step) {
    match l
    case DoAcquire(_, _) => true
    case DoFire(t) => t < |s.timers| && s.timers[t].status.Armed?
    case DoEvict(t) => t < |s.timers| && s.timers[t].status.Fired?
    case DoShutdown(names) => Lists(names, s.clients.Keys)
  }

  ghost function Apply(s: State, l: Step): State
    requires Enabled(s, l)
  {
    match l
    case DoAcquire(server, spawnOk) => Acquired(s, server, spawnOk)
    case DoFire(t) => s.(timers := s.timers[t := s.timers[t].(status := Fired)])
    case DoEvict(t) => Evicted(s, t)
    case DoShutdown(names) => ShutAll(s, names)
  }

  /** A run from s: every step is enabled where it is taken. */
  ghost predicate Legal(s: State, ls: seq<Step>)
    decreases |ls|, 0
  {
    ls == [] || (Legal(s, ls[..|ls| - 1]) && Enabled(Exec(s, ls[..|ls| - 1]), ls[|ls| - 1]))
  }

  ghost function Exec(s: State, ls: seq<Step>): State
    requires Legal(s, ls)
    decreases |ls|, 1
  {
    if ls == [] then s else Apply(Exec(s, ls[..|ls| - 1]), ls[|ls| - 1])
  }

  ghost predicate RunsTo(s: State, s': State) {
    exists ls :: Legal(s, ls) && Exec(s, ls) == s'
  }

  ghost predicate Reachable(s: State) {
    RunsTo(INIT, s)
  }

  lemma RunsToItself(s: State)
    ensures RunsTo(s, s)
  {
    assert Legal(s, []) && Exec(s, []) == s;
  }

  lemma RunsStep(s: State, s': State, l: Step)
    requires RunsTo(s, s') && Enabled(s', l)
    ensures RunsTo(s, Apply(s', l))
  {
    var ls :| Legal(s, ls) && Exec(s, ls) == s';
    assert (ls + [l])[..|ls|] == ls;
    assert Legal(s, ls + [l]) && Exec(s, ls + [l]) == Apply(s', l);
  }

  // ---------------------------------------------------------------- what every step keeps

  ghost predicate IsLive(s: State, c: ClientId) {
    exists server :: server in s.clients && s.clients[server].client == c
  }

  /** An entry has its own timer, armed at its last acquire, still to fire or to be served. */
  predicate EntryOk(s: State, server: string)
    requires server in s.clients
  {
    var e := s.clients[server];
    && e.client < s.spawned && e.idleTimer.Some? && e.idleTimer.value < |s.timers|
    && var t := s.timers[e.idleTimer.value];
    && t.server == server && t.gen == e.gen && t.client == e.client && t.armedAt == e.lastAcquire && Outstanding(t)
  }

  /** Timer i, as a timer of an entry's client: the entry's own, or older and no longer armed. */
  predicate TimerOf(s: State, i: TimerId, server: string, e: Entry)
    requires i < |s.timers|
  {
    var t := s.timers[i];
    t.server == server && (e.idleTimer == Some(i) || (t.gen < e.gen && t.armedAt < e.lastAcquire && !t.status.Armed?))
  }

  predicate TimerOk(s: State, i: TimerId, server: string, e: Entry)
    requires i < |s.timers|
  {
    var t := s.timers[i];
    && (t.client == e.client ==> TimerOf(s, i, server, e))
    && (e.clean && t.server == server && Outstanding(t) ==> t.client == e.client)
  }

  /** The entries of these servers are well formed and have different clients. */
  predicate EntriesInv(s: State, names: set<string>) {
    && (forall v <- names :: v in s.clients && EntryOk(s, v))
    && (forall v, w :: v in names && w in names && v != w ==> s.clients[v].client != s.clients[w].client)
  }

  /** All timers agree with the entries of these servers; of a client's timers one at most is armed. */
  predicate TimersInv(s: State, names: set<string>) {
    && (forall i, v :: 0 <= i < |s.timers| && v in names ==> v in s.clients && TimerOk(s, i, v, s.clients[v]))
    && (forall i :: 0 <= i < |s.timers| ==>
          s.timers[i].client < s.spawned && s.timers[i].armedAt < s.now && s.timers[i].gen >= 1)
    && (forall i, j :: 0 <= i < j < |s.timers| && s.timers[i].client == s.timers[j].client
          ==> !(s.timers[i].status.Armed? && s.timers[j].status.Armed?))
  }

  /** Every client ever spawned is in the map and not closed, or not in it and closed once. */
  ghost predicate ClosedInv(s: State) {
    forall c: ClientId :: s.closed[c] == if c < s.spawned && !IsLive(s, c) then 1 else 0
  }

  ghost predicate Inv(s: State) {
    EntriesInv(s, s.clients.Keys) && TimersInv(s, s.clients.Keys) && ClosedInv(s)
  }

  // A reset, also right after a spawn: e is what the map holds or is about to hold for server.

  predicate CanReset(s: State, server: string, e: Entry) {
    && e.client < s.spawned
    && (e.idleTimer.Some? ==> e.idleTimer.value < |s.timers| && s.timers[e.idleTimer.value].client == e.client)
    && (forall v <- s.clients :: v != server ==> s.clients[v].client != e.client)
    && (forall i :: 0 <= i < |s.timers| ==> TimerOk(s, i, server, e))
    && (forall i :: 0 <= i < |s.timers| && s.timers[i].client == e.client ==> s.timers[i].gen <= e.gen)
  }

  /** All but the entry of server is in order, and e can be reset. */
  predicate ReadyToReset(s: State, server: string, e: Entry) {
    EntriesInv(s, s.clients.Keys - {server}) && TimersInv(s, s.clients.Keys - {server}) && CanReset(s, server, e)
  }

  lemma ResetEntries(s: State, server: string, e: Entry)
    requires ReadyToReset(s, server, e)
    ensures var s' := ResetIdleTimer(s, server, e); EntriesInv(s', s'.clients.Keys)
  {}

  lemma ResetOneTimer(s: State, server: string, e: Entry, i: TimerId, v: string)
    requires i < |s.timers| && TimersInv(s, s.clients.Keys - {server}) && CanReset(s, server, e)
    requires v in s.clients || v == server
    ensures var s' := ResetIdleTimer(s, server, e); TimerOk(s', i, v, s'.clients[v])
  {
    if v == server {
      assert TimerOk(s, i, server, e);
    } else {
      assert v in s.clients.Keys - {server};
      assert TimerOk(s, i, v, s.clients[v]);
    }
  }

  lemma ResetTimers(s: State, server: string, e: Entry)
    requires ReadyToReset(s, server, e)
    ensures var s' := ResetIdleTimer(s, server, e); TimersInv(s', s'.clients.Keys)
  {
    var s' := ResetIdleTimer(s, server, e);
    forall i, v | 0 <= i < |s'.timers| && v in s'.clients ensures TimerOk(s', i, v, s'.clients[v]) {
      if i < |s.timers| {
        ResetOneTimer(s, server, e, i, v);
      }
    }
    forall i, j | 0 <= i < j < |s'.timers| && s'.timers[i].client == s'.timers[j].client
      ensures !(s'.timers[i].status.Armed? && s'.timers[j].status.Armed?)
    {
      if j == |s.timers| {
        assert TimerOk(s, i, server, e);
      }
    }
  }

  lemma ResetClosed(s: State, server: string, e: Entry)
    requires forall c: ClientId :: s.closed[c] == if c < s.spawned && !IsLive(s, c) && c != e.client then 1 else 0
    requires server in s.clients ==> s.clients[server].client == e.client
    ensures ClosedInv(ResetIdleTimer(s, server, e))
  {
    var s' := ResetIdleTimer(s, server, e);
    forall c: ClientId ensures IsLive(s', c) <==> IsLive(s, c) || c == e.client {
      if v :| v in s.clients && s.clients[v].client == c {
        assert s'.clients[v].client == c;
      }
      assert s'.clients[server].client == e.client;
    }
  }

  lemma AcquireKept(s: State, server: string, spawnOk: bool)
    requires Inv(s)
    ensures Inv(Acquired(s, server, spawnOk))
  {
    if server in s.clients {
      var e := s.clients[server];
      assert EntryOk(s, server) && IsLive(s, e.client);
      forall i | 0 <= i < |s.timers| && s.timers[i].client == e.client ensures s.timers[i].gen <= e.gen {
        assert TimerOk(s, i, server, e);
      }
      assert CanReset(s, server, e);
      ResetEntries(s, server, e);
      ResetTimers(s, server, e);
      ResetClosed(s, server, e);
    } else if spawnOk {
      SpawnKept(s, server);
    }
  }

  lemma SpawnCanReset(s: State, server: string)
    requires EntriesInv(s, s.clients.Keys) && TimersInv(s, s.clients.Keys) && server !in s.clients
    ensures CanReset(s.(spawned := s.spawned + 1), server, Fresh(s, server))
  {}

  lemma CounterRises(s: State)
    requires EntriesInv(s, s.clients.Keys) && TimersInv(s, s.clients.Keys)
    ensures var s1 := s.(spawned := s.spawned + 1); EntriesInv(s1, s.clients.Keys) && TimersInv(s1, s.clients.Keys)
  {
    var s1 := s.(spawned := s.spawned + 1);
    forall v | v in s.clients ensures EntryOk(s1, v) {
      assert EntryOk(s, v);
    }
    forall i, v | 0 <= i < |s.timers| && v in s.clients ensures TimerOk(s1, i, v, s.clients[v]) {
      assert TimerOk(s, i, v, s.clients[v]);
    }
  }

  lemma SpawnReady(s: State, server: string)
    requires EntriesInv(s, s.clients.Keys) && TimersInv(s, s.clients.Keys) && server !in s.clients
    ensures ReadyToReset(s.(spawned := s.spawned + 1), server, Fresh(s, server))
  {
    assert s.clients.Keys - {server} == s.clients.Keys;
    CounterRises(s);
    SpawnCanReset(s, server);
  }

  lemma ResetIndex(s: State, server: string, e: Entry, s': State)
    requires ReadyToReset(s, server, e) && s' == ResetIdleTimer(s, server, e)
    ensures EntriesInv(s', s'.clients.Keys) && TimersInv(s', s'.clients.Keys)
  {
    ResetEntries(s, server, e);
    ResetTimers(s, server, e);
  }

  lemma SpawnKept(s: State, server: string)
    requires Inv(s) && server !in s.clients
    ensures Inv(Spawn(s, server))
  {
    SpawnReady(s, server);
    ResetIndex(s.(spawned := s.spawned + 1), server, Fresh(s, server), Spawn(s, server));
    SpawnClosed(s, server);
  }

  lemma SpawnClosed(s: State, server: string)
    requires ClosedInv(s) && EntriesInv(s, s.clients.Keys) && server !in s.clients
    ensures ClosedInv(Spawn(s, server))
  {
    var s1 := s.(spawned := s.spawned + 1);
    forall c: ClientId ensures IsLive(s1, c) <==> IsLive(s, c) {
      if v :| v in s.clients && s.clients[v].client == c {
        assert s1.clients[v].client == c;
      }
    }
    forall v | v in s.clients ensures s.clients[v].client != s.spawned {
      assert EntryOk(s, v);
    }
    ResetClosed(s1, server, Fresh(s, server));
  }

  // A timer that stops being outstanding, or fires, and an entry that goes.

  predicate Advances(from: Status, to: Status) {
    to == from || (from.Armed? && !to.Armed?) || (from.Fired? && to.Done?)
  }

  lemma TimerAdvances(s: State, t: TimerId, st: Status, names: set<string>)
    requires t < |s.timers| && Advances(s.timers[t].status, st)
    requires EntriesInv(s, names) && TimersInv(s, names)
    requires !st.Fired? ==> forall v <- names :: s.clients[v].idleTimer != Some(t)
    ensures var s' := s.(timers := s.timers[t := s.timers[t].(status := st)]);
      EntriesInv(s', names) && TimersInv(s', names)
  {
    var s' := s.(timers := s.timers[t := s.timers[t].(status := st)]);
    forall v | v in names ensures EntryOk(s', v) {
      assert EntryOk(s, v);
    }
    forall i, v | 0 <= i < |s'.timers| && v in names ensures TimerOk(s', i, v, s'.clients[v]) {
      assert TimerOk(s, i, v, s.clients[v]);
    }
  }

  lemma CloseKept(s: State, server: string)
    requires server in s.clients && ClosedInv(s)
    requires EntriesInv(s, s.clients.Keys - {server}) && TimersInv(s, s.clients.Keys - {server})
    requires s.clients[server].client < s.spawned
    requires forall v <- s.clients :: v != server ==> s.clients[v].client != s.clients[server].client
    ensures Inv(Close(s, server))
  {
    var s' := Close(s, server);
    assert s'.clients.Keys == s.clients.Keys - {server};
    forall v | v in s'.clients ensures EntryOk(s', v) {
      assert EntryOk(s, v);
    }
    forall i, v | 0 <= i < |s'.timers| && v in s'.clients ensures TimerOk(s', i, v, s'.clients[v]) {
      assert TimerOk(s, i, v, s.clients[v]);
    }
    CloseCounts(s, server);
  }

  lemma CloseCounts(s: State, server: string)
    requires server in s.clients && ClosedInv(s) && s.clients[server].client < s.spawned
    requires forall v <- s.clients :: v != server ==> s.clients[v].client != s.clients[server].client
    ensures ClosedInv(Close(s, server))
  {
    var s', gone := Close(s, server), s.clients[server].client;
    assert IsLive(s, gone);
    forall c: ClientId ensures IsLive(s', c) <==> IsLive(s, c) && c != gone {
      if v :| v in s.clients && s.clients[v].client == c && c != gone {
        assert v in s'.clients && s'.clients[v].client == c;
      }
    }
  }

  lemma SubNames(s: State, server: string)
    requires Inv(s)
    ensures EntriesInv(s, s.clients.Keys - {server}) && TimersInv(s, s.clients.Keys - {server})
  {}

  lemma EvictKept(s: State, t: TimerId)
    requires Inv(s) && t < |s.timers| && s.timers[t].status.Fired?
    ensures Inv(Evicted(s, t))
  {
    var server, s' := s.timers[t].server, s.(timers := s.timers[t := s.timers[t].(status := Done)]);
    forall v | v in s.clients && s.clients[v].idleTimer == Some(t) ensures v == server && Evicts(s, t) {
      assert EntryOk(s, v);
    }
    LiveUnchanged(s, s');
    if Evicts(s, t) {
      SubNames(s, server);
      assert EntryOk(s, server);
      TimerAdvances(s, t, Done, s.clients.Keys - {server});
      CloseKept(s', server);
    } else {
      TimerAdvances(s, t, Done, s.clients.Keys);
    }
  }

  lemma LiveUnchanged(s: State, s': State)
    requires s'.clients == s.clients && s'.closed == s.closed && s'.spawned == s.spawned && ClosedInv(s)
    ensures ClosedInv(s')
  {}

  lemma FireKept(s: State, t: TimerId)
    requires Inv(s) && t < |s.timers| && s.timers[t].status.Armed?
    ensures Inv(s.(timers := s.timers[t := s.timers[t].(status := Fired)]))
  {
    TimerAdvances(s, t, Fired, s.clients.Keys);
    LiveUnchanged(s, s.(timers := s.timers[t := s.timers[t].(status := Fired)]));
  }

  lemma ShutOneKept(s: State, server: string)
    requires Inv(s) && server in s.clients
    ensures Inv(ShutOne(s, server))
  {
    var e := s.clients[server];
    assert EntryOk(s, server);
    var t := e.idleTimer.value;
    var s' := s.(timers := StopTimer(s.timers, e.idleTimer));
    SubNames(s, server);
    forall v | v in s.clients.Keys - {server} ensures s.clients[v].idleTimer != Some(t) {
      assert EntryOk(s, v);
    }
    if s.timers[t].status.Armed? {
      TimerAdvances(s, t, Stopped, s.clients.Keys - {server});
    }
    LiveUnchanged(s, s');
    CloseKept(s', server);
  }

  lemma {:induction false} ShutAllKept(s: State, names: seq<string>)
    requires Inv(s)
    ensures Inv(ShutAll(s, names))
    ensures ShutAll(s, names).clients.Keys == s.clients.Keys - set n | n in names
    ensures ShutAll(s, names).spawned == s.spawned
  {
    if names != [] {
      var init, last := names[..|names| - 1], names[|names| - 1];
      assert names == init + [last];
      ShutAllKept(s, init);
      if last in ShutAll(s, init).clients {
        ShutOneKept(ShutAll(s, init), last);
      }
    }
  }

  lemma InvKept(s: State, l: Step)
    requires Inv(s) && Enabled(s, l)
    ensures Inv(Apply(s, l))
  {
    match l {
      case DoAcquire(server, spawnOk) => AcquireKept(s, server, spawnOk);
      case DoFire(t) => FireKept(s, t);
      case DoEvict(t) => EvictKept(s, t);
      case DoShutdown(names) => ShutAllKept(s, names);
    }
  }

  lemma {:induction false} InvAlways(s: State, ls: seq<Step>)
    requires Inv(s) && Legal(s, ls)
    ensures Inv(Exec(s, ls))
  {
    if ls != [] {
      InvAlways(s, ls[..|ls| - 1]);
      InvKept(Exec(s, ls[..|ls| - 1]), ls[|ls| - 1]);
    }
  }

  lemma ReachableInv(s: State)
    requires Reachable(s)
    ensures Inv(s)
  {
    var ls :| Legal(INIT, ls) && Exec(INIT, ls) == s;
    forall c: ClientId ensures INIT.closed[c] == 0 {}
    InvAlways(INIT, ls);
  }

  // ---------------------------------------------------------------- main results

  /** In every run a client in the map is never closed, and no client is closed twice or lost. */
  lemma LiveOrClosedOnce(s: State, c: ClientId)
    requires Reachable(s)
    ensures IsLive(s, c) ==> s.closed[c] == 0
    ensures s.closed[c] <= 1
    ensures c < s.spawned && !IsLive(s, c) ==> s.closed[c] == 1
  {
    ReachableInv(s);
  }

  /** In every run at most one timer per client is armed, and a live client's has its generation. */
  lemma OneArmedTimer(s: State, i: TimerId, j: TimerId)
    requires Reachable(s) && i < |s.timers| && j < |s.timers|
    requires s.timers[i].status.Armed? && s.timers[j].status.Armed? && s.timers[i].client == s.timers[j].client
    ensures i == j
    ensures forall v <- s.clients :: s.clients[v].client == s.timers[i].client
              ==> s.clients[v].idleTimer == Some(i) && s.clients[v].gen == s.timers[i].gen && s.timers[i].server == v
  {
    ReachableInv(s);
    forall v | v in s.clients && s.clients[v].client == s.timers[i].client
      ensures s.clients[v].idleTimer == Some(i) && s.clients[v].gen == s.timers[i].gen && s.timers[i].server == v
    {
      assert TimerOk(s, i, v, s.clients[v]) && EntryOk(s, v);
    }
  }

  /**
   * Within one incarnation: the eviction of a timer armed for the client in the map closes it
   * if and only if no acquire followed the arming.
   */
  lemma EvictsIffIdle(s: State, t: TimerId, server: string)
    requires Reachable(s) && Enabled(s, DoEvict(t)) && server in s.clients
    requires s.timers[t].client == s.clients[server].client
    ensures server !in Apply(s, DoEvict(t)).clients <==> s.timers[t].armedAt == s.clients[server].lastAcquire
    ensures server !in Apply(s, DoEvict(t)).clients ==>
      Apply(s, DoEvict(t)).closed == s.closed + multiset{s.clients[server].client}
  {
    ReachableInv(s);
    assert TimerOk(s, t, server, s.clients[server]) && EntryOk(s, server);
  }

  /**
   * A client spawned while no eviction from an earlier incarnation was pending is closed by an
   * eviction only for its own timer, with no acquire since the arming.
   */
  lemma CleanClientClosedOnlyIdle(s: State, t: TimerId, server: string)
    requires Reachable(s) && Enabled(s, DoEvict(t)) && server in s.clients && s.clients[server].clean
    requires server !in Apply(s, DoEvict(t)).clients
    ensures s.timers[t].client == s.clients[server].client && s.timers[t].armedAt == s.clients[server].lastAcquire
  {
    ReachableInv(s);
    assert TimerOk(s, t, server, s.clients[server]) && EntryOk(s, server);
  }

  /** After Shutdown the map is empty and every client ever spawned was closed exactly once. */
  lemma ShutdownClosesAll(s: State, names: seq<string>, c: ClientId)
    requires Reachable(s) && Lists(names, s.clients.Keys)
    ensures var s' := ShutAll(s, names); s'.clients == map[] && s'.closed[c] == if c < s'.spawned then 1 else 0
  {
    ReachableInv(s);
    ShutAllKept(s, names);
    var s' := ShutAll(s, names);
    assert s'.clients.Keys == {};
    assert !IsLive(s', c);
  }

  /** Shutdown leaves the timer of no client that it closes armed. */
  lemma ShutdownStopsTimers(s: State, names: seq<string>, server: string)
    requires Reachable(s) && Lists(names, s.clients.Keys) && server in s.clients
    ensures var t, s' := s.clients[server].idleTimer, ShutAll(s, names);
      t.Some? && t.value < |s'.timers| && !s'.timers[t.value].status.Armed?
  {
    ReachableInv(s);
    assert EntryOk(s, server);
    assert server in names;
    var i :| 0 <= i < |names| && names[i] == server;
    StoppedInTurn(s, names, i);
  }

  lemma ShutOneStops(s: State, server: string, t: TimerId)
    requires server in s.clients && EntryOk(s, server) && t < |s.timers|
    requires s.clients[server].idleTimer == Some(t) || !s.timers[t].status.Armed?
    ensures t < |ShutOne(s, server).timers| && !ShutOne(s, server).timers[t].status.Armed?
  {}

  /** A client not yet shut is still there, as it was. */
  lemma {:induction false} ShutAllKeepsOthers(s: State, names: seq<string>, server: string)
    requires server in s.clients && server !in names
    ensures server in ShutAll(s, names).clients && ShutAll(s, names).clients[server] == s.clients[server]
  {
    if names != [] {
      assert names == names[..|names| - 1] + [names[|names| - 1]];
      ShutAllKeepsOthers(s, names[..|names| - 1], server);
    }
  }

  lemma {:induction false} StoppedInTurn(s: State, names: seq<string>, i: nat)
    requires Inv(s) && Distinct(names) && (forall n <- names :: n in s.clients) && i < |names|
    ensures var t, s' := s.clients[names[i]].idleTimer.value, ShutAll(s, names);
      t < |s'.timers| && !s'.timers[t].status.Armed?
  {
    var init, last := names[..|names| - 1], names[|names| - 1];
    assert names == init + [last] && last !in init;
    ShutAllKept(s, init);
    ShutAllKeepsOthers(s, init, last);
    var before := ShutAll(s, init);
    assert EntryOk(before, last);
    if i < |init| {
      StoppedInTurn(s, init, i);
    }
    ShutOneStops(before, last, s.clients[names[i]].idleTimer.value);
  }

  // ---------------------------------------------------------------- the stale eviction

  /** n acquires of one server, spawning if need be. */
  function Acquires(s: State, server: string, n: nat): State {
    if n == 0 then s else Acquired(Acquires(s, server, n - 1), server, true)
  }

  /** After n acquires of server since its respawn as client c, timer t being as it was. */
  predicate Respawned(s: State, server: string, c: ClientId, n: nat, t: TimerId, was: Timer) {
    && t < |s.timers| && s.timers[t] == was && server in s.clients
    && s.clients[server].client == c && s.clients[server].gen == n && s.clients[server].lastAcquire > was.armedAt
  }

  lemma FirstAcquire(s: State, server: string, t: TimerId)
    requires TimersInv(s, s.clients.Keys) && t < |s.timers| && server !in s.clients
    ensures Respawned(Spawn(s, server), server, s.spawned, 1, t, s.timers[t])
  {}

  lemma NextAcquire(s: State, server: string, c: ClientId, n: nat, t: TimerId, was: Timer)
    requires EntriesInv(s, s.clients.Keys) && TimersInv(s, s.clients.Keys)
    requires Respawned(s, server, c, n, t, was) && was.client != c
    ensures Respawned(Acquired(s, server, true), server, c, n + 1, t, was)
  {
    assert EntryOk(s, server);
  }

  lemma AfterRespawn(s: State, t: TimerId, server: string)
    requires Inv(s) && t < |s.timers| && server !in s.clients
    ensures Inv(Acquires(s, server, 1)) && Respawned(Acquires(s, server, 1), server, s.spawned, 1, t, s.timers[t])
  {
    assert Acquires(s, server, 0) == s;
    SpawnKept(s, server);
    FirstAcquire(s, server, t);
  }

  lemma OneAcquireMore(s: State, server: string, c: ClientId, n: nat, t: TimerId, was: Timer)
    requires Inv(s) && Respawned(s, server, c, n, t, was) && was.client != c
    ensures Inv(Acquired(s, server, true)) && Respawned(Acquired(s, server, true), server, c, n + 1, t, was)
  {
    AcquireKept(s, server, true);
    NextAcquire(s, server, c, n, t, was);
  }

  lemma {:induction false} AfterAcquires(s: State, t: TimerId, server: string, n: nat)
    requires Inv(s) && t < |s.timers| && server !in s.clients && n >= 1
    ensures Inv(Acquires(s, server, n)) && Respawned(Acquires(s, server, n), server, s.spawned, n, t, s.timers[t])
  {
    if n == 1 {
      AfterRespawn(s, t, server);
    } else {
      AfterAcquires(s, t, server, n - 1);
      OneAcquireMore(Acquires(s, server, n - 1), server, s.spawned, n - 1, t, s.timers[t]);
    }
  }

  /**
   * The generation of a respawned client starts again at 1. An eviction still pending from an
   * earlier incarnation closes the new client if and only if as many acquires followed the
   * respawn, itself counted, as the pending generation; the latest of them may be the last step.
   */
  lemma StaleEvictionHits(s: State, t: TimerId, server: string, n: nat)
    requires Reachable(s) && t < |s.timers| && server !in s.clients && n >= 1
    requires s.timers[t].server == server && s.timers[t].status.Fired?
    ensures var s' := Acquires(s, server, n);
      && Respawned(s', server, s.spawned, n, t, s.timers[t]) && s.timers[t].client != s.spawned
      && Enabled(s', DoEvict(t))
      && (server !in Evicted(s', t).clients <==> n == s.timers[t].gen)
      && Evicted(s', t).closed == s'.closed + (if n == s.timers[t].gen then multiset{s.spawned} else multiset{})
  {
    ReachableInv(s);
    AfterAcquires(s, t, server, n);
  }

  /** In s the eviction of t is due and closes the client c of server, which t was not armed for. */
  ghost predicate StaleHit(s: State, t: TimerId, server: string, c: ClientId) {
    && Enabled(s, DoEvict(t)) && s.timers[t].server == server && s.timers[t].client != c
    && server in s.clients && s.clients[server].client == c && Evicts(s, t)
  }

  /** Some run from s comes to such an eviction of c. */
  ghost predicate MayGoStale(s: State, server: string, c: ClientId) {
    exists s', t :: RunsTo(s, s') && StaleHit(s', t, server, c)
  }

  lemma {:induction false} RunsThroughAcquires(s: State, s1: State, server: string, n: nat)
    requires RunsTo(s, s1)
    ensures RunsTo(s, Acquires(s1, server, n))
  {
    if n > 0 {
      RunsThroughAcquires(s, s1, server, n - 1);
      RunsStep(s, Acquires(s1, server, n - 1), DoAcquire(server, true));
    }
  }

  /** A timer still armed can fire before the respawn or after it, to the same effect. */
  lemma FireCommutes(s: State, t: TimerId, server: string)
    requires Inv(s) && t < |s.timers| && s.timers[t].status.Armed? && server !in s.clients
    ensures var fired := s.(timers := s.timers[t := s.timers[t].(status := Fired)]);
      && NoneOutstanding(fired, server) == NoneOutstanding(s, server)
      && Enabled(Spawn(s, server), DoFire(t)) && Apply(Spawn(s, server), DoFire(t)) == Spawn(fired, server)
  {
    var fired := s.(timers := s.timers[t := s.timers[t].(status := Fired)]);
    SameOutstanding(s.timers, fired.timers, t, server);
    assert Apply(Spawn(s, server), DoFire(t)).timers == Spawn(fired, server).timers;
  }

  lemma SameOutstanding(ts: seq<Timer>, ts': seq<Timer>, t: TimerId, server: string)
    requires t < |ts| && ts[t].status.Armed? && ts' == ts[t := ts[t].(status := Fired)]
    ensures (forall x <- ts :: x.server == server ==> !Outstanding(x))
       <==> (forall x <- ts' :: x.server == server ==> !Outstanding(x))
  {
    assert ts[t] in ts && ts'[t] in ts';
    if forall x <- ts' :: x.server == server ==> !Outstanding(x) {
      forall x | x in ts && x.server == server ensures !Outstanding(x) {
        var i :| 0 <= i < |ts| && ts[i] == x;
        assert ts'[i] in ts';
      }
    }
  }

  /** Acquires past the first start from the spawned state. */
  lemma {:induction false} AcquiresAfterSpawn(s: State, server: string, n: nat)
    requires server !in s.clients && n >= 1
    ensures Acquires(s, server, n) == Acquires(Spawn(s, server), server, n - 1)
  {
    if n > 1 {
      AcquiresAfterSpawn(s, server, n - 1);
    } else {
      assert Acquires(s, server, 0) == s;
    }
  }

  lemma HitAfterAcquires(s: State, t: TimerId, server: string)
    requires Inv(s) && t < |s.timers| && server !in s.clients
    requires s.timers[t].server == server && s.timers[t].status.Fired?
    ensures s.timers[t].gen >= 1 && StaleHit(Acquires(s, server, s.timers[t].gen), t, server, s.spawned)
  {
    AfterAcquires(s, t, server, s.timers[t].gen);
  }

  lemma RunsToAcquires(s1: State, s: State, server: string, n: nat)
    requires server !in s.clients && RunsTo(s1, Spawn(s, server)) && n >= 1
    ensures RunsTo(s1, Acquires(s, server, n))
  {
    AcquiresAfterSpawn(s, server, n);
    RunsThroughAcquires(s1, Spawn(s, server), server, n - 1);
  }

  lemma FiredGoesStale(s1: State, s: State, t: TimerId, server: string)
    requires Inv(s) && t < |s.timers| && server !in s.clients && RunsTo(s1, Spawn(s, server))
    requires s.timers[t].server == server && s.timers[t].status.Fired?
    ensures MayGoStale(s1, server, s.spawned)
  {
    HitAfterAcquires(s, t, server);
    RunsToAcquires(s1, s, server, s.timers[t].gen);
  }

  lemma OutstandingGoesStale(s: State, t: TimerId, server: string)
    requires Inv(s) && t < |s.timers| && server !in s.clients
    requires s.timers[t].server == server && Outstanding(s.timers[t])
    ensures MayGoStale(Spawn(s, server), server, s.spawned)
  {
    var s1 := Spawn(s, server);
    RunsToItself(s1);
    if s.timers[t].status.Armed? {
      FireCommutes(s, t, server);
      FireKept(s, t);
      RunsStep(s1, s1, DoFire(t));
      FiredGoesStale(s1, s.(timers := s.timers[t := s.timers[t].(status := Fired)]), t, server);
    } else {
      FiredGoesStale(s1, s, t, server);
    }
  }

  /** Whatever entry client c has, it says this of its spawn. */
  predicate SpawnedClean(s: State, c: ClientId, clean: bool) {
    c < s.spawned && forall v <- s.clients :: s.clients[v].client == c ==> s.clients[v].clean == clean
  }

  lemma {:induction false} ShutAllDrops(s: State, names: seq<string>)
    ensures ShutAll(s, names).spawned == s.spawned
    ensures forall v <- ShutAll(s, names).clients :: v in s.clients && ShutAll(s, names).clients[v] == s.clients[v]
  {
    if names != [] {
      ShutAllDrops(s, names[..|names| - 1]);
    }
  }

  lemma SpawnedCleanStep(s: State, l: Step, c: ClientId, clean: bool)
    requires Enabled(s, l) && SpawnedClean(s, c, clean)
    ensures SpawnedClean(Apply(s, l), c, clean)
  {
    if l.DoShutdown? {
      ShutAllDrops(s, l.names);
    }
  }

  lemma {:induction false} SpawnedCleanAlways(s: State, ls: seq<Step>, c: ClientId, clean: bool)
    requires Legal(s, ls) && SpawnedClean(s, c, clean)
    ensures SpawnedClean(Exec(s, ls), c, clean)
  {
    if ls != [] {
      SpawnedCleanAlways(s, ls[..|ls| - 1], c, clean);
      SpawnedCleanStep(Exec(s, ls[..|ls| - 1]), ls[|ls| - 1], c, clean);
    }
  }

  /** Spawned with nothing outstanding, a client meets no eviction of another's timer. */
  lemma CleanNeverStale(s: State, server: string, s': State, t: TimerId)
    requires Inv(s) && server !in s.clients && NoneOutstanding(s, server) && RunsTo(Spawn(s, server), s')
    ensures !StaleHit(s', t, server, s.spawned)
  {
    var s1 := Spawn(s, server);
    SpawnKept(s, server);
    SpawnIsClean(s, server);
    var ls :| Legal(s1, ls) && Exec(s1, ls) == s';
    InvAlways(s1, ls);
    SpawnedCleanAlways(s1, ls, s.spawned, true);
    if t < |s'.timers| && server in s'.clients && s'.clients[server].client == s.spawned {
      assert TimerOk(s', t, server, s'.clients[server]);
    }
  }

  lemma SpawnIsClean(s: State, server: string)
    requires EntriesInv(s, s.clients.Keys) && server !in s.clients && NoneOutstanding(s, server)
    ensures SpawnedClean(Spawn(s, server), s.spawned, true)
  {
    assert forall v <- s.clients :: EntryOk(s, v);
  }

  /**
   * The exact condition: a client can be closed by an eviction from an earlier incarnation,
   * in some run from its spawn, if and only if a timer of its server was outstanding (armed,
   * or fired and not yet served) at the spawn.
   */
  lemma StaleIffOutstandingAtSpawn(s: State, server: string)
    requires Reachable(s) && server !in s.clients
    ensures MayGoStale(Spawn(s, server), server, s.spawned) <==> !NoneOutstanding(s, server)
  {
    ReachableInv(s);
    var s1 := Spawn(s, server);
    if !NoneOutstanding(s, server) {
      var x :| x in s.timers && x.server == server && Outstanding(x);
      var t :| 0 <= t < |s.timers| && s.timers[t] == x;
      OutstandingGoesStale(s, t, server);
    } else {
      forall s': State, t: TimerId | RunsTo(s1, s') ensures !StaleHit(s', t, server, s.spawned) {
        CleanNeverStale(s, server, s', t);
      }
    }
  }

  /** For any server a run reaches such a state: its first timer fires just before a shutdown. */
  lemma StaleEvictionReachable(server: string) returns (s: State)
    ensures Reachable(s) && |s.timers| == 1 && server !in s.clients
    ensures s.timers[0].server == server && s.timers[0].status.Fired? && s.timers[0].gen == 1
  {
    RunsToItself(INIT);
    RunsStep(INIT, INIT, DoAcquire(server, true));
    s := Apply(INIT, DoAcquire(server, true));
    assert s.timers == [Timer(server, 1, 0, 0, Armed)] && s.clients.Keys == {server};
    RunsStep(INIT, s, DoFire(0));
    s := Apply(s, DoFire(0));
    assert s.timers == [Timer(server, 1, 0, 0, Fired)] && s.clients[server].idleTimer == Some(0);
    var one := [server];
    RunsStep(INIT, s, DoShutdown(one));
    assert one[..0] == [] && ShutAll(s, one) == ShutOne(s, server);
    s := Apply(s, DoShutdown(one));
  }
}
