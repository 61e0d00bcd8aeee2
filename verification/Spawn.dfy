// Names, volumes and output directories of jobs spawned from jobs (internal/sandbox/
// children.go, the layouts in agent.go, the mounts in runner.go). Host paths are component
// lists below the output root; job ids are unique; making directories is taken to succeed.

module Spawn {
  import opened Common
  import opened Listing
  import opened Paths
  import opened Sorting
  import opened Text

  type JobId = string

  // ---------------------------------------------------------------- names

  predicate IsLetterOrDigit(c: char) {
    'a' <= c <= 'z' || '0' <= c <= '9'
  }

  /** A host label of section 2.1 of RFC 1123, in lower case. */
  predicate IsLabel(s: string) {
    && 1 <= |s| <= 63
    && IsLetterOrDigit(s[0]) && IsLetterOrDigit(s[|s| - 1])
    && forall i :: 0 <= i < |s| ==> IsLetterOrDigit(s[i]) || s[i] == '-'
  }

  predicate ValidName(name: string) {
    IsLabel(name) && |name| <= 40
  }

  method ValidateChildName(name: string) returns (ok: bool)
    ensures ok <==> ValidName(name)
  {
    if name == "" || |name| > 40 {
      return false;
    }
    for i := 0 to |name|
      invariant forall k :: 0 <= k < i ==>
        IsLetterOrDigit(name[k]) || (name[k] == '-' && 0 < k < |name| - 1)
    {
      var r := name[i];
      if !(('a' <= r <= 'z') || ('0' <= r <= '9')) && !(r == '-' && i > 0 && i < |name| - 1) {
        return false;
      }
    }
    return true;
  }

  function PrevJobName(name: string): string {
    "prevjob-" + name
  }

  /** The volume of a valid name is a label again, and two names never share one. */
  lemma PrevJobIsLabel(name: string)
    requires ValidName(name)
    ensures IsLabel(PrevJobName(name)) && |PrevJobName(name)| <= 48
  {}

  lemma PrevJobInjective(a: string, b: string)
    requires PrevJobName(a) == PrevJobName(b)
    ensures a == b
  {
    assert a == PrevJobName(a)[8..] && b == PrevJobName(b)[8..];
  }

  // ---------------------------------------------------------------- volumes

  datatype Volume = Volume(name: string, host: Path, mount: Path, readOnly: bool)

  predicate DistinctNames(vs: seq<Volume>) {
    forall i, j :: 0 <= i < j < |vs| ==> vs[i].name != vs[j].name
  }

  /** Neither mount point is the other or lies inside it. */
  predicate Separate(v: Volume, w: Volume) {
    !(v.mount <= w.mount) && !(w.mount <= v.mount)
  }

  predicate SeparateMounts(vs: seq<Volume>) {
    forall i, j :: 0 <= i < j < |vs| ==> Separate(vs[i], vs[j])
  }

  /** A resolved input: where it is, and whether stat and the allow list let it through. */
  datatype Input = Input(host: Path, accepted: bool)

  /** Mounted at /in/<base>, which for the root directory is /in itself. */
  function InputVolume(i: nat, host: Path): Volume {
    Volume("in-" + Decimal(i), host, if host == [] then ["in"] else ["in", Base(host)], true)
  }

  /** The volumes resolveMounts makes of accepted inputs. */
  predicate IsInputVolumes(vs: seq<Volume>) {
    && (forall i :: 0 <= i < |vs| ==> vs[i] == InputVolume(i, vs[i].host))
    && (forall i, j :: 0 <= i < j < |vs| ==> Base(vs[i].host) != Base(vs[j].host))
  }

  /** Inputs are mountable together if all are accepted and no two have a base name in common. */
  predicate Mountable(inputs: seq<Input>) {
    && (forall x <- inputs :: x.accepted)
    && (forall i, j :: 0 <= i < j < |inputs| ==> Base(inputs[i].host) != Base(inputs[j].host))
  }

  function BasesOf(inputs: seq<Input>, n: nat): set<string>
    requires n <= |inputs|
  {
    if n == 0 then {} else BasesOf(inputs, n - 1) + {Base(inputs[n - 1].host)}
  }

  lemma {:induction false} BasesOfFirst(inputs: seq<Input>, n: nat, base: string)
    requires n <= |inputs|
    ensures base in BasesOf(inputs, n) <==> exists k :: 0 <= k < n && Base(inputs[k].host) == base
  {
    if n > 0 {
      BasesOfFirst(inputs, n - 1, base);
    }
  }

  /** The first n inputs are mountable together. */
  predicate MountableFirst(inputs: seq<Input>, n: nat)
    requires n <= |inputs|
  {
    n == 0
    || (MountableFirst(inputs, n - 1) && inputs[n - 1].accepted && Base(inputs[n - 1].host) !in BasesOf(inputs, n - 1))
  }

  lemma {:induction false} MountablePrefix(inputs: seq<Input>, i: nat, n: nat)
    requires i <= n <= |inputs| && MountableFirst(inputs, n)
    ensures MountableFirst(inputs, i)
  {
    if i < n {
      MountablePrefix(inputs, i, n - 1);
    }
  }

  lemma {:induction false} MountableMeans(inputs: seq<Input>, n: nat)
    requires n <= |inputs|
    ensures MountableFirst(inputs, n) <==>
      && (forall i :: 0 <= i < n ==> inputs[i].accepted)
      && (forall i, j :: 0 <= i < j < n ==> Base(inputs[i].host) != Base(inputs[j].host))
  {
    if n > 0 {
      MountableMeans(inputs, n - 1);
      BasesOfFirst(inputs, n - 1, Base(inputs[n - 1].host));
    }
  }

  lemma MountableIffAllFirst(inputs: seq<Input>)
    ensures Mountable(inputs) <==> MountableFirst(inputs, |inputs|)
  {
    MountableMeans(inputs, |inputs|);
    assert (forall x <- inputs :: x.accepted) <==> forall i :: 0 <= i < |inputs| ==> inputs[i].accepted;
  }

  /** The volumes of the first n inputs. */
  function InputVolumes(inputs: seq<Input>, n: nat): seq<Volume>
    requires n <= |inputs|
  {
    seq(n, i requires 0 <= i < n => InputVolume(i, inputs[i].host))
  }

  lemma InputVolumesOf(inputs: seq<Input>)
    requires Mountable(inputs)
    ensures IsInputVolumes(InputVolumes(inputs, |inputs|))
  {}

  /** files and then directories, one volume each; no result is an error. */
  method ResolveMounts(inputs: seq<Input>) returns (volumes: Option<seq<Volume>>)
    ensures volumes.Some? <==> Mountable(inputs)
    ensures volumes.Some? ==> volumes.value == InputVolumes(inputs, |inputs|) && IsInputVolumes(volumes.value)
  {
    MountableIffAllFirst(inputs);
    var vs: seq<Volume> := [];
    var used: set<string> := {};
    for i := 0 to |inputs|
      invariant vs == InputVolumes(inputs, i) && used == BasesOf(inputs, i) && MountableFirst(inputs, i)
    {
      var base := Base(inputs[i].host);
      if !inputs[i].accepted || base in used {
        if MountableFirst(inputs, |inputs|) {
          MountablePrefix(inputs, i + 1, |inputs|);
        }
        return None;
      }
      used := used + {base};
      vs := vs + [InputVolume(|vs|, inputs[i].host)];
    }
    InputVolumesOf(inputs);
    return Some(vs);
  }

  function PrevJobVolume(name: string, host: Path): Volume {
    Volume(PrevJobName(name), host, ["in", PREV_JOBS_BASE, name], true)
  }

  /** One read-only volume per sibling, by name; names lists them. */
  ghost predicate IsPrevJobVolumes(vs: seq<Volume>, names: seq<string>, siblings: map<string, Path>) {
    && SortedListing(names, siblings.Keys, ByName()) && |vs| == |names|
    && forall i :: 0 <= i < |vs| ==> names[i] in siblings && vs[i] == PrevJobVolume(names[i], siblings[names[i]])
  }

  method PreviousJobVolumes(siblings: map<string, Path>) returns (vs: seq<Volume>)
    ensures exists names :: IsPrevJobVolumes(vs, names, siblings)
  {
    ByNameIsTotal();
    var names := SortedKeys(siblings.Keys, ByName());
    vs := [];
    for i := 0 to |names|
      invariant |vs| == i
      invariant forall k :: 0 <= k < i ==> names[k] in siblings && vs[k] == PrevJobVolume(names[k], siblings[names[k]])
    {
      assert names[i] in names;
      vs := vs + [PrevJobVolume(names[i], siblings[names[i]])];
    }
    assert IsPrevJobVolumes(vs, names, siblings);
  }

  const CONFIG_BASE := ".agent"
  const PREV_JOBS_BASE := "previous-jobs"

  /** What every child gets besides inputs and previous jobs; an agent also has its config. */
  function OwnVolumes(agent: bool, workspace: Path, out: Path, config: Path): seq<Volume> {
    (if agent then [Volume("agent-config", config, ["in", CONFIG_BASE], true)] else [])
    + [Volume("workspace", workspace, ["workspace"], false), Volume("out", out, ["out"], false)]
  }

  /** All of a child's volumes. */
  function ChildVolumes(inputs: seq<Volume>, prev: seq<Volume>, own: seq<Volume>): seq<Volume> {
    inputs + prev + own
  }

  // Volume names.

  lemma DistinctAppend(a: seq<Volume>, b: seq<Volume>)
    requires DistinctNames(a) && DistinctNames(b) && forall x <- a, y <- b :: x.name != y.name
    ensures DistinctNames(a + b)
  {}

  lemma InputNameInjective(i: nat, j: nat)
    requires "in-" + Decimal(i) == "in-" + Decimal(j)
    ensures i == j
  {
    assert Decimal(i) == ("in-" + Decimal(i))[3..] && Decimal(j) == ("in-" + Decimal(j))[3..];
    DecimalInjective(i, j);
  }

  lemma InputNames(vs: seq<Volume>)
    requires IsInputVolumes(vs)
    ensures DistinctNames(vs) && forall v <- vs :: v.name != "" && v.name[0] == 'i'
  {
    forall i, j | 0 <= i < j < |vs| ensures vs[i].name != vs[j].name {
      if vs[i].name == vs[j].name {
        InputNameInjective(i, j);
      }
    }
  }

  lemma PrevJobNames(vs: seq<Volume>, names: seq<string>, siblings: map<string, Path>)
    requires IsPrevJobVolumes(vs, names, siblings)
    ensures DistinctNames(vs) && forall v <- vs :: v.name != "" && v.name[0] == 'p'
  {
    forall i, j | 0 <= i < j < |vs| ensures vs[i].name != vs[j].name {
      if vs[i].name == vs[j].name {
        PrevJobInjective(names[i], names[j]);
      }
    }
  }

  lemma OwnNames(agent: bool, workspace: Path, out: Path, config: Path)
    ensures DistinctNames(OwnVolumes(agent, workspace, out, config))
    ensures forall v <- OwnVolumes(agent, workspace, out, config) :: v.name != "" && v.name[0] in {'a', 'w', 'o'}
  {}

  /** Inherited inputs, previous jobs and own volumes never share a volume name, whatever they are called. */
  lemma ChildVolumeNamesDistinct(inputs: seq<Volume>, prev: seq<Volume>, names: seq<string>,
                                 siblings: map<string, Path>, agent: bool, workspace: Path, out: Path, config: Path)
    requires IsInputVolumes(inputs) && IsPrevJobVolumes(prev, names, siblings)
    ensures DistinctNames(ChildVolumes(inputs, prev, OwnVolumes(agent, workspace, out, config)))
  {
    var own := OwnVolumes(agent, workspace, out, config);
    InputNames(inputs);
    PrevJobNames(prev, names, siblings);
    OwnNames(agent, workspace, out, config);
    DistinctAppend(inputs, prev);
    forall x, y | x in inputs + prev && y in own ensures x.name != y.name {
      assert x.name[0] == 'i' || x.name[0] == 'p';
    }
    DistinctAppend(inputs + prev, own);
  }

  // Mount points.

  lemma SeparateAppend(a: seq<Volume>, b: seq<Volume>)
    ensures SeparateMounts(a + b) <==> SeparateMounts(a) && SeparateMounts(b) && forall x <- a, y <- b :: Separate(x, y)
  {
    if SeparateMounts(a + b) {
      forall i, j | 0 <= i < j < |a| ensures Separate(a[i], a[j]) {
        assert Separate((a + b)[i], (a + b)[j]);
      }
      forall i, j | 0 <= i < j < |b| ensures Separate(b[i], b[j]) {
        assert Separate((a + b)[|a| + i], (a + b)[|a| + j]);
      }
      forall x, y | x in a && y in b ensures Separate(x, y) {
        var i :| 0 <= i < |a| && a[i] == x;
        var j :| 0 <= j < |b| && b[j] == y;
        assert Separate((a + b)[i], (a + b)[|a| + j]);
      }
    }
    if SeparateMounts(a) && SeparateMounts(b) && forall x <- a, y <- b :: Separate(x, y) {
      forall i, j | 0 <= i < j < |a + b| ensures Separate((a + b)[i], (a + b)[j]) {
        if i < |a| <= j {
          assert a[i] in a && b[j - |a|] in b;
        }
      }
    }
  }

  lemma TwoBelowIn(v: Volume, w: Volume, x: string, y: string)
    requires v.mount == ["in", x] && w.mount == ["in", y]
    ensures Separate(v, w) <==> x != y
  {
    assert v.mount[1] == x && w.mount[1] == y;
  }

  predicate NoRootInput(inputs: seq<Volume>) {
    forall v <- inputs :: v.host != []
  }

  lemma InputMounts(vs: seq<Volume>)
    requires IsInputVolumes(vs)
    ensures SeparateMounts(vs) <==> NoRootInput(vs) || |vs| <= 1
  {
    if NoRootInput(vs) {
      forall i, j | 0 <= i < j < |vs| ensures Separate(vs[i], vs[j]) {
        assert vs[i] in vs && vs[j] in vs;
        TwoBelowIn(vs[i], vs[j], Base(vs[i].host), Base(vs[j].host));
      }
    } else if |vs| > 1 {
      var v :| v in vs && v.host == [];
      var i :| 0 <= i < |vs| && vs[i] == v;
      var j := if i == 0 then 1 else 0;
      assert vs[i].mount <= vs[j].mount;
      assert !Separate(vs[if i < j then i else j], vs[if i < j then j else i]);
    }
  }

  lemma PrevJobMounts(vs: seq<Volume>, names: seq<string>, siblings: map<string, Path>)
    requires IsPrevJobVolumes(vs, names, siblings)
    ensures SeparateMounts(vs)
  {
    forall i, j | 0 <= i < j < |vs| ensures Separate(vs[i], vs[j]) {
      assert vs[i].mount[2] == names[i] && vs[j].mount[2] == names[j];
    }
  }

  lemma InputAgainstPrevJob(v: Volume, w: Volume, i: nat, n: string, host: Path)
    requires v == InputVolume(i, v.host) && w == PrevJobVolume(n, host)
    ensures Separate(v, w) <==> v.host != [] && Base(v.host) != PREV_JOBS_BASE
  {
    if v.host != [] {
      assert v.mount[1] == Base(v.host) && w.mount[1] == PREV_JOBS_BASE;
      assert w.mount[..2] == ["in", PREV_JOBS_BASE];
    }
  }

  lemma InputAgainstConfig(v: Volume, i: nat, w: Volume)
    requires v == InputVolume(i, v.host) && w.mount == ["in", CONFIG_BASE]
    ensures Separate(v, w) <==> v.host != [] && Base(v.host) != CONFIG_BASE
  {
    if v.host != [] {
      TwoBelowIn(v, w, Base(v.host), CONFIG_BASE);
    } else {
      assert v.mount <= w.mount;
    }
  }

  lemma PrevJobAgainstConfig(v: Volume, w: Volume, n: string, host: Path)
    requires v == PrevJobVolume(n, host) && w.mount == ["in", CONFIG_BASE]
    ensures Separate(v, w)
  {
    assert v.mount[1] == PREV_JOBS_BASE && w.mount[1] == CONFIG_BASE;
    assert PREV_JOBS_BASE[0] == 'p' && CONFIG_BASE[0] == '.';
  }

  lemma InAgainstOthers(v: Volume, w: Volume, place: string)
    requires v.mount != [] && v.mount[0] == "in" && w.mount == [place] && place in {"workspace", "out"}
    ensures Separate(v, w)
  {
    assert "in"[0] == 'i' && "workspace"[0] == 'w' && "out"[0] == 'o';
    assert w.mount[0] == place;
  }

  /** No input takes the place of the volumes mounted beside it under /in. */
  predicate NoClash(inputs: seq<Volume>, prev: seq<Volume>, agent: bool) {
    && (NoRootInput(inputs) || (|inputs| == 1 && prev == [] && !agent))
    && (prev != [] ==> forall v <- inputs :: Base(v.host) != PREV_JOBS_BASE)
    && (agent ==> forall v <- inputs :: Base(v.host) != CONFIG_BASE)
  }

  lemma InputsAgainstPrevJobs(inputs: seq<Volume>, prev: seq<Volume>, names: seq<string>, siblings: map<string, Path>)
    requires IsInputVolumes(inputs) && IsPrevJobVolumes(prev, names, siblings)
    ensures (forall x <- inputs, y <- prev :: Separate(x, y))
       <==> prev == [] || (NoRootInput(inputs) && forall v <- inputs :: Base(v.host) != PREV_JOBS_BASE)
  {
    forall x, y | x in inputs && y in prev ensures Separate(x, y) <==> x.host != [] && Base(x.host) != PREV_JOBS_BASE {
      var i :| 0 <= i < |inputs| && inputs[i] == x;
      var j :| 0 <= j < |prev| && prev[j] == y;
      InputAgainstPrevJob(x, y, i, names[j], siblings[names[j]]);
    }
    if prev != [] {
      assert prev[0] in prev;
    }
  }

  lemma OwnMounts(agent: bool, workspace: Path, out: Path, config: Path)
    ensures SeparateMounts(OwnVolumes(agent, workspace, out, config))
  {
    var own := OwnVolumes(agent, workspace, out, config);
    var n := |own|;
    assert "workspace"[0] == 'w' && "out"[0] == 'o';
    assert own[n - 2].mount[0] == "workspace" && own[n - 1].mount[0] == "out";
    if agent {
      InAgainstOthers(own[0], own[1], "workspace");
      InAgainstOthers(own[0], own[2], "out");
    }
  }

  /** Volumes under /in and a child's own: only the agent's config is there too. */
  lemma AgainstOwn(all: seq<Volume>, agent: bool, workspace: Path, out: Path, config: Path)
    requires forall x <- all :: x.mount != [] && x.mount[0] == "in"
    ensures (forall x <- all, y <- OwnVolumes(agent, workspace, out, config) :: Separate(x, y))
       <==> !agent || forall x <- all :: !(x.mount <= ["in", CONFIG_BASE]) && !(["in", CONFIG_BASE] <= x.mount)
  {
    var own := OwnVolumes(agent, workspace, out, config);
    var n := |own|;
    forall x | x in all ensures Separate(x, own[n - 2]) && Separate(x, own[n - 1]) {
      InAgainstOthers(x, own[n - 2], "workspace");
      InAgainstOthers(x, own[n - 1], "out");
    }
    if agent {
      assert own[0] in own;
    }
  }

  lemma AgainstConfig(inputs: seq<Volume>, prev: seq<Volume>, names: seq<string>, siblings: map<string, Path>,
                      config: Volume)
    requires IsInputVolumes(inputs) && IsPrevJobVolumes(prev, names, siblings) && config.mount == ["in", CONFIG_BASE]
    ensures (forall x <- inputs + prev :: Separate(x, config))
       <==> NoRootInput(inputs) && forall v <- inputs :: Base(v.host) != CONFIG_BASE
  {
    forall x | x in inputs ensures Separate(x, config) <==> x.host != [] && Base(x.host) != CONFIG_BASE {
      var i :| 0 <= i < |inputs| && inputs[i] == x;
      InputAgainstConfig(x, i, config);
    }
    forall x | x in prev ensures Separate(x, config) {
      var j :| 0 <= j < |prev| && prev[j] == x;
      PrevJobAgainstConfig(x, config, names[j], siblings[names[j]]);
    }
    assert forall x :: x in inputs + prev <==> x in inputs || x in prev;
  }

  lemma UnderIn(inputs: seq<Volume>, prev: seq<Volume>, names: seq<string>, siblings: map<string, Path>)
    requires IsInputVolumes(inputs) && IsPrevJobVolumes(prev, names, siblings)
    ensures forall x <- inputs + prev :: x.mount != [] && x.mount[0] == "in"
  {}

  /**
   * No mount point of a child lies at or inside another if and only if no input is the root
   * directory beside others, is called previous-jobs beside previous jobs, or is called like
   * an agent's config directory.
   */
  lemma ChildMountsSeparateIff(inputs: seq<Volume>, prev: seq<Volume>, names: seq<string>, siblings: map<string, Path>,
                               agent: bool, workspace: Path, out: Path, config: Path)
    requires IsInputVolumes(inputs) && IsPrevJobVolumes(prev, names, siblings)
    ensures SeparateMounts(ChildVolumes(inputs, prev, OwnVolumes(agent, workspace, out, config)))
       <==> NoClash(inputs, prev, agent)
  {
    var own := OwnVolumes(agent, workspace, out, config);
    SeparateAppend(inputs + prev, own);
    SeparateAppend(inputs, prev);
    InputMounts(inputs);
    PrevJobMounts(prev, names, siblings);
    OwnMounts(agent, workspace, out, config);
    InputsAgainstPrevJobs(inputs, prev, names, siblings);
    UnderIn(inputs, prev, names, siblings);
    AgainstOwn(inputs + prev, agent, workspace, out, config);
    AgainstConfig(inputs, prev, names, siblings, Volume("agent-config", config, ["in", CONFIG_BASE], true));
  }

  // What is mounted.

  /** Each sibling's output directory is mounted at /in/previous-jobs/<name>, and that is all. */
  lemma PrevJobsAreSiblings(vs: seq<Volume>, names: seq<string>, siblings: map<string, Path>, n: string, host: Path)
    requires IsPrevJobVolumes(vs, names, siblings)
    ensures (exists v <- vs :: v.mount == ["in", "previous-jobs", n] && v.host == host)
       <==> n in siblings && siblings[n] == host
    ensures forall v <- vs :: |v.mount| == 3 && v.mount[..2] == ["in", "previous-jobs"]
  {
    if n in siblings && siblings[n] == host {
      assert n in names;
      var i :| 0 <= i < |names| && names[i] == n;
      assert vs[i] in vs && vs[i].mount == ["in", "previous-jobs", n];
    }
    if v :| v in vs && v.mount == ["in", "previous-jobs", n] && v.host == host {
      var i :| 0 <= i < |vs| && vs[i] == v;
      assert v.mount[2] == names[i];
    }
  }

  /** Of a child's volumes exactly those below /in are read-only. */
  lemma ReadOnlyIffBelowIn(inputs: seq<Volume>, prev: seq<Volume>, names: seq<string>,
                           siblings: map<string, Path>, agent: bool, workspace: Path, out: Path, config: Path)
    requires IsInputVolumes(inputs) && IsPrevJobVolumes(prev, names, siblings)
    ensures forall v <- ChildVolumes(inputs, prev, OwnVolumes(agent, workspace, out, config)) ::
      v.mount != [] && (v.readOnly <==> v.mount[0] == "in")
  {
    assert "workspace"[0] != "in"[0] && "out"[0] != "in"[0];
    forall v | v in inputs ensures v.mount != [] && v.mount[0] == "in" && v.readOnly {
      var i :| 0 <= i < |inputs| && inputs[i] == v;
    }
    forall v | v in prev ensures v.mount != [] && v.mount[0] == "in" && v.readOnly {
      var i :| 0 <= i < |prev| && prev[i] == v;
    }
  }

  // ---------------------------------------------------------------- one spawning context

  /** spawnContext, as far as its children's names go. */
  class SpawnContext {
    const outHost: Path
    var usedNames: set<string>
    var siblingOutputs: map<string, Path>

    constructor (outHost: Path)
      ensures this.outHost == outHost && usedNames == {} && siblingOutputs == map[]
    {
      this.outHost, usedNames, siblingOutputs := outHost, {}, map[];
    }

    /** Succeeds for a valid name not used before, which is used from then on. */
    method ReserveName(name: string) returns (ok: bool)
      modifies this`usedNames
      ensures ok <==> CanReserve(old(usedNames), name)
      ensures usedNames == if ok then old(usedNames) + {name} else old(usedNames)
    {
      var valid := ValidateChildName(name);
      if !valid || name in usedNames {
        return false;
      }
      usedNames := usedNames + {name};
      return true;
    }

    method PriorSiblings() returns (out: map<string, Path>)
      ensures out == siblingOutputs
    {
      return siblingOutputs;
    }

    method RecordSibling(name: string, outHost: Path)
      modifies this`siblingOutputs
      ensures siblingOutputs == old(siblingOutputs)[name := outHost]
    {
      siblingOutputs := siblingOutputs[name := outHost];
    }
  }

  predicate CanReserve(used: set<string>, name: string) {
    ValidName(name) && name !in used
  }

  // ---------------------------------------------------------------- runs of many spawns

  datatype Context = Context(outHost: Path, used: set<string>, siblings: map<string, Path>)

  /** A root job, or a child with its parent's id; out and prior are set when it is laid out. */
  datatype Job = Job(parent: Option<JobId>, name: string, agent: bool, isolated: bool,
                     out: Option<Path>, prior: map<string, Path>, recorded: bool)

  /** Contexts stay: a spawn that looked one up goes on with it after its job deregisters. */
  datatype State = State(contexts: map<JobId, Context>, jobs: map<JobId, Job>)

  const INIT := State(map[], map[])

  datatype Step =
    | Root(id: JobId, agent: bool)
    | Reserve(id: JobId, parent: JobId, name: string, agent: bool, isolated: bool)
    | LayOut(id: JobId)
    | Register(id: JobId)
    | Record(id: JobId)

  function RootOut(id: JobId, agent: bool): Path {
    if agent then [id, "out"] else [id]
  }

  function ChildOut(parentOut: Path, name: string): Path {
    parentOut + ["child", name]
  }

  predicate Enabled(s: State, l: Step) {
    match l
    case Root(id, _) => id !in s.jobs
    case Reserve(id, parent, name, _, _) =>
      id !in s.jobs && parent in s.contexts && CanReserve(s.contexts[parent].used, name)
    case LayOut(id) =>
      id in s.jobs && s.jobs[id].out.None? && s.jobs[id].parent.Some? && s.jobs[id].parent.value in s.contexts
    case Register(id) => id in s.jobs && s.jobs[id].agent && s.jobs[id].out.Some? && id !in s.contexts
    case Record(id) =>
      && id in s.jobs && s.jobs[id].out.Some? && !s.jobs[id].recorded && (s.jobs[id].agent ==> id in s.contexts)
      && s.jobs[id].parent.Some? && s.jobs[id].parent.value in s.contexts
  }

  function Apply(s: State, l: Step): State
    requires Enabled(s, l)
  {
    match l
    case Root(id, agent) =>
      s.(jobs := s.jobs[id := Job(None, "", agent, false, Some(RootOut(id, agent)), map[], false)])
    case Reserve(id, parent, name, agent, isolated) =>
      var c := s.contexts[parent];
      s.(contexts := s.contexts[parent := c.(used := c.used + {name})],
         jobs := s.jobs[id := Job(Some(parent), name, agent, isolated && agent, None, map[], false)])
    case LayOut(id) =>
      var j := s.jobs[id];
      var c := s.contexts[j.parent.value];
      s.(jobs := s.jobs[id := j.(out := Some(ChildOut(c.outHost, j.name)),
                                 prior := if j.isolated then map[] else c.siblings)])
    case Register(id) =>
      s.(contexts := s.contexts[id := Context(s.jobs[id].out.value, {}, map[])])
    case Record(id) =>
      var j := s.jobs[id];
      var c := s.contexts[j.parent.value];
      s.(contexts := s.contexts[j.parent.value := c.(siblings := c.siblings[j.name := j.out.value])],
         jobs := s.jobs[id := j.(recorded := true)])
  }

  /** A run from the start: every step is enabled where it is taken. */
  ghost predicate Legal(ls: seq<Step>)
    decreases |ls|, 0
  {
    ls == [] || (Legal(ls[..|ls| - 1]) && Enabled(Exec(ls[..|ls| - 1]), ls[|ls| - 1]))
  }

  ghost function Exec(ls: seq<Step>): State
    requires Legal(ls)
    decreases |ls|, 1
  {
    if ls == [] then INIT else Apply(Exec(ls[..|ls| - 1]), ls[|ls| - 1])
  }

  ghost predicate Reachable(s: State) {
    exists ls :: Legal(ls) && Exec(ls) == s
  }

  // ---------------------------------------------------------------- what every step keeps

  predicate ContextOk(s: State, id: JobId)
    requires id in s.contexts
  {
    var c := s.contexts[id];
    && id in s.jobs && s.jobs[id].agent && s.jobs[id].out == Some(c.outHost)
    && forall n <- c.siblings :: n in c.used && c.siblings[n] == ChildOut(c.outHost, n)
  }

  predicate JobOk(s: State, id: JobId)
    requires id in s.jobs
  {
    var j := s.jobs[id];
    if j.parent.None? then j.out == Some(RootOut(id, j.agent)) && j.prior == map[]
    else
      && j.parent.value in s.contexts && ValidName(j.name)
      && var c := s.contexts[j.parent.value];
      && j.name in c.used && (j.recorded <==> j.name in c.siblings)
      && (j.out.Some? ==> j.out.value == ChildOut(c.outHost, j.name))
      && (j.recorded ==> j.out.Some?)
      && forall n <- j.prior :: n != j.name && n in c.siblings && j.prior[n] == c.siblings[n]
  }

  /** No two children of one parent have one name. */
  predicate OneJobPerName(s: State) {
    forall i, j :: i in s.jobs && j in s.jobs && i != j
        && s.jobs[i].parent.Some? && s.jobs[i].parent == s.jobs[j].parent
      ==> s.jobs[i].name != s.jobs[j].name
  }

  /** A recorded sibling is some child that was created. */
  ghost predicate SiblingsAreJobs(s: State) {
    forall p, n :: p in s.contexts && n in s.contexts[p].siblings ==> exists i :: Created(s, p, n, i)
  }

  ghost predicate Inv(s: State) {
    && (forall id <- s.contexts :: ContextOk(s, id))
    && (forall id <- s.jobs :: JobOk(s, id))
    && OneJobPerName(s) && SiblingsAreJobs(s)
  }

  lemma ContextKept(s: State, l: Step, id: JobId)
    requires Enabled(s, l) && id in s.contexts && ContextOk(s, id)
    requires l.Record? ==> JobOk(s, l.id)
    ensures ContextOk(Apply(s, l), id)
  {}

  lemma ContextsKept(s: State, l: Step)
    requires Inv(s) && Enabled(s, l)
    ensures forall id <- Apply(s, l).contexts :: ContextOk(Apply(s, l), id)
  {
    var s' := Apply(s, l);
    forall id | id in s'.contexts ensures ContextOk(s', id) {
      if l.Record? {
        assert JobOk(s, l.id);
      }
      if id in s.contexts {
        ContextKept(s, l, id);
      }
    }
  }

  lemma ChildKept(s: State, l: Step, id: JobId)
    requires Enabled(s, l) && !l.Record? && id in s.jobs && JobOk(s, id)
    requires l.LayOut? ==> ContextOk(s, s.jobs[l.id].parent.value)
    requires l.Register? ==> s.jobs[id].parent != Some(l.id)
    ensures JobOk(Apply(s, l), id)
  {}

  lemma NewChildOk(s: State, l: Step)
    requires Enabled(s, l) && l.Reserve? && ContextOk(s, l.parent)
    ensures JobOk(Apply(s, l), l.id)
  {}

  lemma JobsKept(s: State, l: Step)
    requires Inv(s) && Enabled(s, l)
    ensures forall id <- Apply(s, l).jobs :: JobOk(Apply(s, l), id)
  {
    var s' := Apply(s, l);
    forall id | id in s'.jobs ensures JobOk(s', id) {
      if id in s.jobs {
        assert JobOk(s, id);
        if l.Record? {
          assert JobOk(s, l.id);
          OtherChildAtRecord(s, l.id, id);
        } else {
          if l.LayOut? {
            assert ContextOk(s, s.jobs[l.id].parent.value);
          }
          ChildKept(s, l, id);
        }
      } else if l.Reserve? {
        assert ContextOk(s, l.parent);
        NewChildOk(s, l);
      }
    }
  }

  lemma OtherChildAtRecord(s: State, r: JobId, id: JobId)
    requires Enabled(s, Record(r)) && id in s.jobs && JobOk(s, id) && JobOk(s, r)
    requires id != r && s.jobs[id].parent == s.jobs[r].parent ==> s.jobs[id].name != s.jobs[r].name
    ensures JobOk(Apply(s, Record(r)), id)
  {}

  lemma NamesKept(s: State, l: Step)
    requires Inv(s) && Enabled(s, l)
    ensures OneJobPerName(Apply(s, l))
  {}

  /** Some child of p was created under this name. */
  predicate Created(s: State, p: JobId, n: string, i: JobId) {
    i in s.jobs && s.jobs[i].parent == Some(p) && s.jobs[i].name == n && s.jobs[i].recorded
  }

  lemma CreatedKept(s: State, l: Step, p: JobId, n: string, i: JobId)
    requires Enabled(s, l) && Created(s, p, n, i)
    ensures Created(Apply(s, l), p, n, i)
  {}

  lemma SiblingsKept(s: State, l: Step)
    requires SiblingsAreJobs(s) && Enabled(s, l)
    ensures SiblingsAreJobs(Apply(s, l))
  {
    var s' := Apply(s, l);
    forall p, n | p in s'.contexts && n in s'.contexts[p].siblings ensures exists i :: Created(s', p, n, i) {
      if p in s.contexts && n in s.contexts[p].siblings {
        var i :| Created(s, p, n, i);
        CreatedKept(s, l, p, n, i);
      } else {
        assert Created(s', p, n, l.id);
      }
    }
  }

  lemma InvKept(s: State, l: Step)
    requires Inv(s) && Enabled(s, l)
    ensures Inv(Apply(s, l))
  {
    ContextsKept(s, l);
    JobsKept(s, l);
    NamesKept(s, l);
    SiblingsKept(s, l);
  }

  lemma {:induction false} InvAlways(ls: seq<Step>)
    requires Legal(ls)
    ensures Inv(Exec(ls))
  {
    if ls != [] {
      InvAlways(ls[..|ls| - 1]);
      InvKept(Exec(ls[..|ls| - 1]), ls[|ls| - 1]);
    }
  }

  lemma ReachableInv(s: State)
    requires Reachable(s)
    ensures Inv(s)
  {
    var ls :| Legal(ls) && Exec(ls) == s;
    InvAlways(ls);
  }

  // ---------------------------------------------------------------- main results

  lemma ChildOutInjective(a: Path, m: string, b: Path, n: string)
    requires ChildOut(a, m) == ChildOut(b, n)
    ensures a == b && m == n
  {
    var x, y := ChildOut(a, m), ChildOut(b, n);
    assert a == x[..|x| - 2] && b == y[..|y| - 2] && x[|x| - 1] == m && y[|y| - 1] == n;
  }

  lemma AgentOutIsLong(s: State, id: JobId)
    requires Inv(s) && id in s.contexts
    ensures |s.contexts[id].outHost| >= 2
  {}

  lemma {:induction false} SameOutSameJob(s: State, i: JobId, j: JobId)
    requires Inv(s) && i in s.jobs && j in s.jobs
    requires s.jobs[i].out.Some? && s.jobs[i].out == s.jobs[j].out
    ensures i == j
    decreases |s.jobs[i].out.value|
  {
    assert JobOk(s, i) && JobOk(s, j);
    var p, q := s.jobs[i].parent, s.jobs[j].parent;
    if p.Some? {
      AgentOutIsLong(s, p.value);
    }
    if q.Some? {
      AgentOutIsLong(s, q.value);
    }
    if p.Some? && q.Some? {
      ChildOutInjective(s.contexts[p.value].outHost, s.jobs[i].name, s.contexts[q.value].outHost, s.jobs[j].name);
      assert ContextOk(s, p.value) && ContextOk(s, q.value);
      SameOutSameJob(s, p.value, q.value);
    }
  }

  /** In every run all output directories are different. */
  lemma OutputsDistinct(s: State)
    requires Reachable(s)
    ensures forall i, j :: i in s.jobs && j in s.jobs && i != j && s.jobs[i].out.Some?
              ==> s.jobs[i].out != s.jobs[j].out
  {
    ReachableInv(s);
    forall i, j | i in s.jobs && j in s.jobs && i != j && s.jobs[i].out.Some? ensures s.jobs[i].out != s.jobs[j].out {
      if s.jobs[i].out == s.jobs[j].out {
        SameOutSameJob(s, i, j);
      }
    }
  }

  /** In every run a child's directory is child/<name> below its parent's, and a root's has its id. */
  lemma OutputLayout(s: State, id: JobId)
    requires Reachable(s) && id in s.jobs && s.jobs[id].out.Some?
    ensures var j := s.jobs[id];
      if j.parent.Some? then
        && j.parent.value in s.jobs && s.jobs[j.parent.value].agent && s.jobs[j.parent.value].out.Some?
        && j.out.value == s.jobs[j.parent.value].out.value + ["child", j.name]
      else j.out.value == if j.agent then [id, "out"] else [id]
  {
    ReachableInv(s);
    assert JobOk(s, id);
    if s.jobs[id].parent.Some? {
      assert ContextOk(s, s.jobs[id].parent.value);
    }
  }

  /** In every run recorded siblings have reserved names, and names are reserved by one child only. */
  lemma SiblingsAreReserved(s: State, p: JobId)
    requires Reachable(s) && p in s.contexts
    ensures s.contexts[p].siblings.Keys <= s.contexts[p].used
    ensures forall i <- s.jobs, j <- s.jobs :: s.jobs[i].parent == Some(p) == s.jobs[j].parent && i != j
              ==> s.jobs[i].name != s.jobs[j].name
  {
    ReachableInv(s);
    assert ContextOk(s, p);
  }

  /** Another child of the same parent, created under this name with this output directory. */
  predicate IsOther(s: State, id: JobId, k: JobId, n: string, out: Path)
    requires id in s.jobs
  {
    && k in s.jobs && k != id && s.jobs[k].parent.Some? && s.jobs[k].parent == s.jobs[id].parent
    && s.jobs[k].name == n && s.jobs[k].recorded && s.jobs[k].out == Some(out)
  }

  /**
   * In every run a child's snapshot names other children of its parent that were created,
   * with their output directories, and never the child itself.
   */
  lemma SnapshotIsOfOthers(s: State, id: JobId, n: string) returns (k: JobId)
    requires Reachable(s) && id in s.jobs && n in s.jobs[id].prior
    ensures n != s.jobs[id].name && IsOther(s, id, k, n, s.jobs[id].prior[n])
  {
    ReachableInv(s);
    assert JobOk(s, id);
    k := SnapshotEntry(s, id, s.jobs[id].parent.value, n);
  }

  /** A child that is not isolated sees every sibling recorded by its layout; an isolated one none. */
  lemma SnapshotIsComplete(s: State, id: JobId, k: JobId)
    requires Reachable(s) && Enabled(s, LayOut(id)) && k in s.jobs
    requires s.jobs[k].parent == s.jobs[id].parent && s.jobs[k].recorded
    ensures var prior, n := Apply(s, LayOut(id)).jobs[id].prior, s.jobs[k].name;
      if s.jobs[id].isolated then prior == map[] else n in prior && Some(prior[n]) == s.jobs[k].out
  {
    ReachableInv(s);
    assert JobOk(s, k) && ContextOk(s, s.jobs[id].parent.value);
  }

  lemma {:induction false} LegalPrefix(ls: seq<Step>, n: nat)
    requires Legal(ls) && n <= |ls|
    ensures Legal(ls[..n])
  {
    if n < |ls| {
      LegalPrefix(ls[..|ls| - 1], n);
      assert ls[..|ls| - 1][..n] == ls[..n];
    } else {
      assert ls[..n] == ls;
    }
  }

  /** The k-th step of a run. */
  lemma StepOfRun(ls: seq<Step>, k: nat)
    requires Legal(ls) && k < |ls|
    ensures Legal(ls[..k]) && Enabled(Exec(ls[..k]), ls[k])
    ensures Legal(ls[..k + 1]) && Exec(ls[..k + 1]) == Apply(Exec(ls[..k]), ls[k])
  {
    LegalPrefix(ls, k + 1);
    assert ls[..k + 1][..k] == ls[..k];
  }

  /** After a request a job keeps what was asked for, and after its layout its snapshot. */
  lemma {:induction false} RequestStays(ls: seq<Step>, n: nat, id: JobId)
    requires Legal(ls) && n <= |ls| && Legal(ls[..n]) && id in Exec(ls[..n]).jobs
    ensures id in Exec(ls).jobs
    ensures var j, j' := Exec(ls[..n]).jobs[id], Exec(ls).jobs[id];
      && j'.parent == j.parent && j'.name == j.name && j'.agent == j.agent && j'.isolated == j.isolated
      && (j.out.Some? ==> j'.out == j.out && j'.prior == j.prior)
    decreases |ls|
  {
    if n < |ls| {
      assert ls[..|ls| - 1][..n] == ls[..n];
      RequestStays(ls[..|ls| - 1], n, id);
    } else {
      assert ls[..n] == ls;
    }
  }

  /** What the layout takes, read off the children there are. */
  lemma SnapshotAtLayout(s: State, id: JobId, p: JobId, n: string)
    requires Reachable(s) && Enabled(s, LayOut(id)) && s.jobs[id].parent == Some(p)
    ensures IsSnapshotEntry(s, p, s.jobs[id].isolated, n, Apply(s, LayOut(id)).jobs[id].prior)
  {
    ReachableInv(s);
    forall k | Created(s, p, n, k) {
      SnapshotIsComplete(s, id, k);
    }
    if n in Apply(s, LayOut(id)).jobs[id].prior {
      assert n in s.contexts[p].siblings;
    }
  }

  /** n is in the snapshot exactly if a child of p is recorded under it, with that child's directory. */
  ghost predicate IsSnapshotEntry(s: State, p: JobId, isolated: bool, n: string, prior: map<string, Path>) {
    && (n in prior <==> !isolated && exists k :: Created(s, p, n, k))
    && (n in prior ==> forall k :: Created(s, p, n, k) ==> Some(prior[n]) == s.jobs[k].out)
  }

  /** A run cut at a layout, and what it still knows of the request. */
  lemma RequestAtLayout(ls: seq<Step>, asked: nat, laidOut: nat)
    requires Legal(ls) && asked < laidOut < |ls| && ls[asked].Reserve? && ls[laidOut] == LayOut(ls[asked].id)
    ensures Legal(ls[..laidOut]) && Enabled(Exec(ls[..laidOut]), LayOut(ls[asked].id))
    ensures var j := Exec(ls[..laidOut]).jobs[ls[asked].id];
      j.parent == Some(ls[asked].parent) && j.isolated == (ls[asked].agent && ls[asked].isolated)
  {
    StepOfRun(ls, asked);
    StepOfRun(ls, laidOut);
    assert ls[..laidOut][..asked + 1] == ls[..asked + 1];
    RequestStays(ls[..laidOut], asked + 1, ls[asked].id);
  }

  lemma SnapshotStays(ls: seq<Step>, laidOut: nat, id: JobId)
    requires Legal(ls) && laidOut < |ls| && ls[laidOut] == LayOut(id)
    requires Legal(ls[..laidOut]) && Enabled(Exec(ls[..laidOut]), LayOut(id))
    ensures id in Exec(ls).jobs && Exec(ls).jobs[id].prior == Apply(Exec(ls[..laidOut]), LayOut(id)).jobs[id].prior
  {
    StepOfRun(ls, laidOut);
    RequestStays(ls, laidOut + 1, id);
  }

  /**
   * In every run a child's snapshot is fixed at its layout: the siblings recorded by then with
   * their output directories, or none for an isolated agent.
   */
  lemma SnapshotIsRecordedSiblings(ls: seq<Step>, asked: nat, laidOut: nat, n: string)
    requires Legal(ls) && asked < laidOut < |ls| && ls[asked].Reserve? && ls[laidOut] == LayOut(ls[asked].id)
    ensures Legal(ls[..laidOut]) && ls[asked].id in Exec(ls).jobs
    ensures var l := ls[asked];
      IsSnapshotEntry(Exec(ls[..laidOut]), l.parent, l.agent && l.isolated, n, Exec(ls).jobs[l.id].prior)
  {
    RequestAtLayout(ls, asked, laidOut);
    SnapshotStays(ls, laidOut, ls[asked].id);
    assert Reachable(Exec(ls[..laidOut]));
    SnapshotAtLayout(Exec(ls[..laidOut]), ls[asked].id, ls[asked].parent, n);
  }

  lemma SnapshotEntry(s: State, id: JobId, p: JobId, n: string) returns (k: JobId)
    requires id in s.jobs && s.jobs[id].parent == Some(p) && p in s.contexts && n in s.jobs[id].prior
    requires JobOk(s, id) && SiblingsAreJobs(s) && ContextOk(s, p)
    requires forall i <- s.jobs :: JobOk(s, i)
    ensures IsOther(s, id, k, n, s.jobs[id].prior[n])
  {
    assert n in s.contexts[p].siblings;
    k :| Created(s, p, n, k);
    assert JobOk(s, k);
  }

  /** In every run the volumes for a child's previous jobs have distinct valid labels for names. */
  lemma PrevJobVolumesAreLabelled(s: State, id: JobId, vs: seq<Volume>, names: seq<string>)
    requires Reachable(s) && id in s.jobs && IsPrevJobVolumes(vs, names, s.jobs[id].prior)
    ensures DistinctNames(vs) && SeparateMounts(vs) && forall v <- vs :: IsLabel(v.name)
  {
    PrevJobNames(vs, names, s.jobs[id].prior);
    PrevJobMounts(vs, names, s.jobs[id].prior);
    ReachableInv(s);
    forall v | v in vs ensures IsLabel(v.name) {
      var i :| 0 <= i < |vs| && vs[i] == v;
      var k := SnapshotIsOfOthers(s, id, names[i]);
      assert JobOk(s, k);
      PrevJobIsLabel(names[i]);
    }
  }
}
