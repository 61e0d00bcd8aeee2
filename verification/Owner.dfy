// The owner label of a sandbox (internal/sandbox/owner.go) and the start-up reaper that reads
// it back (internal/sandbox/reaper.go). Reading /proc, the sandbox listing and the destroy
// calls are parameters.

module Owner {
  import opened Common
  import opened Text

  // ---------------------------------------------------------------- the label

  /** "<bootID>_<pid>_<starttime>". */
  function OwnerLabel(boot: string, pid: nat, starttime: nat): string {
    boot + ['_'] + Decimal(pid) + ['_'] + Decimal(starttime)
  }

  datatype Verdict = Keep | Reap | Skip

  function ClassifyOwner(tag: string, currentBoot: string, processAlive: (nat, nat) -> bool): Verdict {
    if tag == "" then Skip
    else
      var parts := Split(tag, '_');
      if |parts| != 3 || parts[0] == "" then Skip
      else
        match (ParseUint(parts[1]), ParseUint(parts[2]))
        case (Some(pid), Some(starttime)) =>
          if parts[0] != currentBoot then Reap
          else if processAlive(pid, starttime) then Keep
          else Reap
        case _ => Skip
  }

  lemma DigitsHaveNoUnderscore(s: string)
    requires AllDigits(s)
    ensures '_' !in s
  {}

  /** tag names the boot id, the pid and the start time, numbers in any spelling. */
  ghost predicate Names(tag: string, boot: string, pid: nat, starttime: nat) {
    exists p: string, s: string ::
      && tag == boot + ['_'] + p + ['_'] + s && boot != "" && '_' !in boot
      && ParseUint(p) == Some(pid) && ParseUint(s) == Some(starttime)
  }

  lemma SplitInThree(boot: string, p: string, s: string)
    requires '_' !in boot && '_' !in p && '_' !in s
    ensures Split(boot + ['_'] + p + ['_'] + s, '_') == [boot, p, s]
  {
    assert boot + ['_'] + p + ['_'] + s == boot + ['_'] + (p + ['_'] + s);
    SplitAtFirst(boot, p + ['_'] + s, '_');
    SplitAtFirst(p, s, '_');
    SplitNone(s, '_');
  }

  /** What the verdict is for any label that names an owner. */
  lemma VerdictOnNamedOwner(tag: string, boot: string, pid: nat, starttime: nat,
                            currentBoot: string, alive: (nat, nat) -> bool)
    requires Names(tag, boot, pid, starttime)
    ensures ClassifyOwner(tag, currentBoot, alive)
         == if boot == currentBoot && alive(pid, starttime) then Keep else Reap
  {
    var p: string, s: string :|
      tag == boot + ['_'] + p + ['_'] + s && boot != "" && '_' !in boot
      && ParseUint(p) == Some(pid) && ParseUint(s) == Some(starttime);
    DigitsHaveNoUnderscore(p);
    DigitsHaveNoUnderscore(s);
    SplitInThree(boot, p, s);
  }

  /** A sandbox is left alone exactly when its label names no owner. */
  lemma SkipIffNoOwner(tag: string, currentBoot: string, alive: (nat, nat) -> bool)
    ensures ClassifyOwner(tag, currentBoot, alive) == Skip
       <==> !exists boot, pid, starttime :: Names(tag, boot, pid, starttime)
  {
    if boot, pid, starttime :| Names(tag, boot, pid, starttime) {
      VerdictOnNamedOwner(tag, boot, pid, starttime, currentBoot, alive);
    }
    if ClassifyOwner(tag, currentBoot, alive) != Skip {
      var parts := Split(tag, '_');
      SplitJoined(tag, '_');
      assert parts[0] in parts;
      assert Joined(parts[1..], '_') == parts[1] + ['_'] + Joined(parts[1..][1..], '_');
      assert tag == parts[0] + ['_'] + parts[1] + ['_'] + parts[2];
      assert Names(tag, parts[0], ParseUint(parts[1]).value, ParseUint(parts[2]).value);
    }
  }

  /** Labels read back: for every boot id, and all 64-bit pids and start times. */
  lemma LabelReadsBack(boot: string, pid: nat, starttime: nat, currentBoot: string, alive: (nat, nat) -> bool)
    requires pid <= MAX_UINT64 && starttime <= MAX_UINT64
    ensures ClassifyOwner(OwnerLabel(boot, pid, starttime), currentBoot, alive)
         == if boot == "" || '_' in boot then Skip
            else if boot == currentBoot && alive(pid, starttime) then Keep
            else Reap
  {
    var p, s := Decimal(pid), Decimal(starttime);
    DigitsHaveNoUnderscore(p);
    DigitsHaveNoUnderscore(s);
    ParseOfDecimal(pid);
    ParseOfDecimal(starttime);
    if '_' in boot {
      TooManyParts(boot, p + ['_'] + s);
      assert OwnerLabel(boot, pid, starttime) == boot + ['_'] + (p + ['_'] + s);
      SplitAtFirst(p, s, '_');
    } else {
      SplitInThree(boot, p, s);
    }
  }

  lemma {:induction false} TooManyParts(a: string, b: string)
    requires '_' in a
    ensures |Split(a + ['_'] + b, '_')| > 1 + |Split(b, '_')|
    decreases |a|
  {
    assert (a + ['_'] + b)[1..] == a[1..] + ['_'] + b;
    if a[0] == '_' {
      MorePartsThan(a[1..], b);
    } else {
      TooManyParts(a[1..], b);
    }
  }

  lemma {:induction false} MorePartsThan(a: string, b: string)
    ensures |Split(a + ['_'] + b, '_')| >= 1 + |Split(b, '_')|
    decreases |a|
  {
    if a == [] {
      assert (a + ['_'] + b)[1..] == b;
    } else {
      assert (a + ['_'] + b)[1..] == a[1..] + ['_'] + b;
      MorePartsThan(a[1..], b);
    }
  }

  // ---------------------------------------------------------------- the start time

  /** strings.Fields on ASCII text; word is the field begun. */
  function Fields(s: string, word: string): seq<string> {
    if s == [] then (if word == [] then [] else [word])
    else if IsSpace(s[0]) then (if word == [] then [] else [word]) + Fields(s[1..], [])
    else Fields(s[1..], word + [s[0]])
  }

  /** What follows the last ')' of s. */
  function AfterLastParen(s: string): Option<string> {
    if s == [] then None
    else
      var rest := AfterLastParen(s[1..]);
      if rest.Some? then rest else if s[0] == ')' then Some(s[1..]) else None
  }

  /** parseStarttimeFromStat; trimming is subsumed by Fields. */
  function ParseStarttime(stat: string): Option<nat> {
    var rest := AfterLastParen(stat);
    if rest.None? then None
    else
      var fields := Fields(rest.value, []);
      if |fields| < 20 then None else ParseUint(fields[19])
  }

  predicate IsField(f: string) {
    f != [] && forall c <- f :: !IsSpace(c) && c != ')'
  }

  /** Each field after a space, as the kernel prints the ones after comm. */
  function Spaced(fields: seq<string>): string {
    if fields == [] then [] else [' '] + fields[0] + Spaced(fields[1..])
  }

  lemma {:induction false} FieldsOfWord(w: string, word: string, rest: string)
    requires forall c <- w :: !IsSpace(c)
    ensures Fields(w + rest, word) == Fields(rest, word + w)
    decreases |w|
  {
    if w == [] {
      assert w + rest == rest && word + w == word;
    } else {
      assert (w + rest)[1..] == w[1..] + rest;
      assert forall c <- w[1..] :: c in w;
      FieldsOfWord(w[1..], word + [w[0]], rest);
      assert word + [w[0]] + w[1..] == word + w;
    }
  }

  lemma {:induction false} FieldsOfSpaced(fields: seq<string>, word: string)
    requires forall f <- fields :: IsField(f)
    ensures Fields(Spaced(fields) + ['\n'], word) == (if word == [] then [] else [word]) + fields
    decreases |fields|
  {
    if fields == [] {
      assert Spaced(fields) + ['\n'] == ['\n'];
    } else {
      var f, more := fields[0], Spaced(fields[1..]) + ['\n'];
      assert f in fields;
      assert (Spaced(fields) + ['\n'])[1..] == f + more;
      FieldsOfWord(f, [], more);
      assert [] + f == f;
      forall g | g in fields[1..] ensures IsField(g) {
        assert g in fields;
      }
      FieldsOfSpaced(fields[1..], f);
      assert fields == [f] + fields[1..];
    }
  }

  lemma {:induction false} NoParenAfter(s: string)
    requires ')' !in s
    ensures AfterLastParen(s) == None
    decreases |s|
  {
    if s != [] {
      NoParenAfter(s[1..]);
    }
  }

  lemma {:induction false} LastParenFound(before: string, after: string)
    requires ')' !in after
    ensures AfterLastParen(before + [')'] + after) == Some(after)
    decreases |before|
  {
    if before == [] {
      assert (before + [')'] + after)[1..] == after;
      NoParenAfter(after);
    } else {
      assert (before + [')'] + after)[1..] == before[1..] + [')'] + after;
      LastParenFound(before[1..], after);
    }
  }

  lemma {:induction false} SpacedHasNoParen(fields: seq<string>)
    requires forall f <- fields :: IsField(f)
    ensures ')' !in Spaced(fields)
    decreases |fields|
  {
    if fields != [] {
      assert fields[0] in fields;
      forall g | g in fields[1..] ensures IsField(g) {
        assert g in fields;
      }
      SpacedHasNoParen(fields[1..]);
    }
  }

  /** The line of /proc/<pid>/stat for a process of any name and the fields after it. */
  function StatLine(pid: nat, comm: string, fields: seq<string>): string {
    Decimal(pid) + [' ', '('] + comm + [')'] + Spaced(fields) + ['\n']
  }

  /** Field 22 is found whatever the process calls itself, parentheses and newlines included. */
  lemma StarttimeReadsBack(pid: nat, comm: string, fields: seq<string>, starttime: nat)
    requires (forall f <- fields :: IsField(f)) && |fields| >= 20
    requires fields[19] == Decimal(starttime) && starttime <= MAX_UINT64
    ensures ParseStarttime(StatLine(pid, comm, fields)) == Some(starttime)
  {
    var before, after := Decimal(pid) + [' ', '('] + comm, Spaced(fields) + ['\n'];
    assert StatLine(pid, comm, fields) == before + [')'] + after;
    SpacedHasNoParen(fields);
    LastParenFound(before, after);
    FieldsOfSpaced(fields, []);
    ParseOfDecimal(starttime);
  }

  // ---------------------------------------------------------------- the reaper

  datatype Info = Info(id: string, owner: string)

  datatype Effect = RemoveSidecar(id: string) | Destroy(id: string)

  datatype ReapError = NoBootId | NoListing | SidecarRemove(id: string) | DestroyFailed(id: string)

  /** A listed sandbox and how the world answers when its turn comes. */
  datatype Case = Case(info: Info, alive: (nat, nat) -> bool, sidecarFails: bool, destroyFails: bool)

  function VerdictOn(c: Case, boot: string): Verdict {
    ClassifyOwner(c.info.owner, boot, c.alive)
  }

  /** The cases to reap, in listing order. */
  function Victims(cases: seq<Case>, boot: string): seq<Case> {
    if cases == [] then []
    else
      Victims(cases[..|cases| - 1], boot)
      + (if VerdictOn(cases[|cases| - 1], boot) == Reap then [cases[|cases| - 1]] else [])
  }

  function Effects(vs: seq<Case>): seq<Effect> {
    if vs == [] then []
    else Effects(vs[..|vs| - 1]) + [RemoveSidecar(vs[|vs| - 1].info.id), Destroy(vs[|vs| - 1].info.id)]
  }

  function Successes(vs: seq<Case>): nat {
    if vs == [] then 0 else Successes(vs[..|vs| - 1]) + (if vs[|vs| - 1].destroyFails then 0 else 1)
  }

  function Errors(c: Case): seq<ReapError> {
    (if c.sidecarFails then [SidecarRemove(c.info.id)] else [])
    + (if c.destroyFails then [DestroyFailed(c.info.id)] else [])
  }

  function Failures(vs: seq<Case>): seq<ReapError> {
    if vs == [] then [] else Failures(vs[..|vs| - 1]) + Errors(vs[|vs| - 1])
  }

  /** Every case with a reap verdict as often as it is listed, and no other case. */
  lemma {:induction false} VictimsExact(cases: seq<Case>, boot: string, c: Case)
    ensures multiset(Victims(cases, boot))[c] == if VerdictOn(c, boot) == Reap then multiset(cases)[c] else 0
  {
    if cases != [] {
      VictimsExact(cases[..|cases| - 1], boot, c);
      assert cases == cases[..|cases| - 1] + [cases[|cases| - 1]];
    }
  }

  /** The k-th victim's sidecar goes right before it is destroyed, and nothing else happens. */
  lemma {:induction false} SidecarRightBeforeDestroy(vs: seq<Case>)
    ensures |Effects(vs)| == 2 * |vs|
    ensures forall k :: 0 <= k < |vs| ==>
      Effects(vs)[2 * k] == RemoveSidecar(vs[k].info.id) && Effects(vs)[2 * k + 1] == Destroy(vs[k].info.id)
  {
    if vs != [] {
      SidecarRightBeforeDestroy(vs[..|vs| - 1]);
    }
  }

  function DestroyErrors(errs: seq<ReapError>): nat {
    if errs == [] then 0
    else DestroyErrors(errs[..|errs| - 1]) + (if errs[|errs| - 1].DestroyFailed? then 1 else 0)
  }

  lemma {:induction false} DestroyErrorsAppend(a: seq<ReapError>, b: seq<ReapError>)
    ensures DestroyErrors(a + b) == DestroyErrors(a) + DestroyErrors(b)
    decreases |b|
  {
    if b == [] {
      assert a + b == a;
    } else {
      assert (a + b)[..|a + b| - 1] == a + b[..|b| - 1];
      DestroyErrorsAppend(a, b[..|b| - 1]);
    }
  }

  lemma ErrorsOfOne(c: Case)
    ensures DestroyErrors(Errors(c)) == if c.destroyFails then 1 else 0
  {
    var s := if c.sidecarFails then [SidecarRemove(c.info.id)] else [];
    var d := if c.destroyFails then [DestroyFailed(c.info.id)] else [];
    DestroyErrorsAppend(s, d);
  }

  /** Every victim is either counted as reaped or reported. */
  lemma {:induction false} ReapedOrReported(vs: seq<Case>)
    ensures Successes(vs) + DestroyErrors(Failures(vs)) == |vs|
  {
    if vs != [] {
      var init, v := vs[..|vs| - 1], vs[|vs| - 1];
      ReapedOrReported(init);
      DestroyErrorsAppend(Failures(init), Errors(v));
      ErrorsOfOne(v);
    }
  }

  /** The errors are exactly the failed removals and the failed destroys of the victims. */
  lemma {:induction false} FailuresExact(vs: seq<Case>, id: string)
    ensures SidecarRemove(id) in Failures(vs) <==> exists c <- vs :: c.info.id == id && c.sidecarFails
    ensures DestroyFailed(id) in Failures(vs) <==> exists c <- vs :: c.info.id == id && c.destroyFails
    ensures NoBootId !in Failures(vs) && NoListing !in Failures(vs)
  {
    if vs != [] {
      var init, v := vs[..|vs| - 1], vs[|vs| - 1];
      assert vs == init + [v];
      FailuresExact(init, id);
      OneFailure(v, id);
    }
  }

  lemma OneFailure(c: Case, id: string)
    ensures SidecarRemove(id) in Errors(c) <==> c.info.id == id && c.sidecarFails
    ensures DestroyFailed(id) in Errors(c) <==> c.info.id == id && c.destroyFails
    ensures NoBootId !in Errors(c) && NoListing !in Errors(c)
  {}

  method ReapOrphans(bootID: Option<string>, listing: Option<seq<Case>>)
    returns (effects: seq<Effect>, reaped: nat, errs: seq<ReapError>)
    ensures bootID.None? ==> effects == [] && reaped == 0 && errs == [NoBootId]
    ensures bootID.Some? && listing.None? ==> effects == [] && reaped == 0 && errs == [NoListing]
    ensures bootID.Some? && listing.Some? ==>
      var vs := Victims(listing.value, bootID.value);
      effects == Effects(vs) && reaped == Successes(vs) && errs == Failures(vs)
  {
    effects, reaped, errs := [], 0, [];
    if bootID.None? {
      return effects, 0, [NoBootId];
    }
    if listing.None? {
      return effects, 0, [NoListing];
    }
    var cases := listing.value;
    ghost var vs: seq<Case> := [];
    for i := 0 to |cases|
      invariant vs == Victims(cases[..i], bootID.value)
      invariant effects == Effects(vs) && reaped == Successes(vs) && errs == Failures(vs)
    {
      assert cases[..i + 1][..i] == cases[..i];
      var c := cases[i];
      var verdict := ClassifyOwner(c.info.owner, bootID.value, c.alive);
      if verdict == Reap {
        effects, reaped, errs := ReapOne(c, effects, reaped, errs, vs);
        vs := vs + [c];
      }
    }
    assert cases[..|cases|] == cases;
  }

  /** The body of the loop for a sandbox to reap. */
  method ReapOne(c: Case, effects: seq<Effect>, reaped: nat, errs: seq<ReapError>, ghost vs: seq<Case>)
    returns (effects': seq<Effect>, reaped': nat, errs': seq<ReapError>)
    requires effects == Effects(vs) && reaped == Successes(vs) && errs == Failures(vs)
    ensures effects' == Effects(vs + [c]) && reaped' == Successes(vs + [c]) && errs' == Failures(vs + [c])
  {
    assert (vs + [c])[..|vs|] == vs;
    var id := c.info.id;
    effects', reaped', errs' := effects + [RemoveSidecar(id)], reaped, errs;
    if c.sidecarFails {
      errs' := errs' + [SidecarRemove(id)];
    }
    effects' := effects' + [Destroy(id)];
    if c.destroyFails {
      errs' := errs' + [DestroyFailed(id)];
    } else {
      reaped' := reaped' + 1;
    }
    assert effects' == effects + [RemoveSidecar(id), Destroy(id)];
    assert errs' == errs + Errors(c);
  }
}
