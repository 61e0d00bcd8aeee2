// Distilling subagent attribution from transcripts and reading it back
// (internal/sandbox/attribution.go). Transcript lines are already parsed.

module Attribution {
  import opened Listing
  import opened Sorting
  import opened Text

  datatype Record = Record(requestId: string, agent: string, skill: string, plugin: string)

  /** One parsed line of a transcript. */
  datatype Entry = Entry(isAssistant: bool, stopped: bool, messageId: string, outputTokens: int, rec: Record)

  type Key = (string, string)

  /** The record kept for a key and the output tokens it came with. */
  datatype Kept = Kept(rec: Record, outputTokens: int)

  predicate Qualifies(e: Entry) {
    e.isAssistant && e.rec.requestId != "" && e.stopped
  }

  function KeyOf(e: Entry): Key {
    (e.rec.requestId, e.messageId)
  }

  /** Line i is the first of those with its key that have the most output tokens. */
  predicate IsFirstBest(all: seq<Entry>, i: nat, k: Key) {
    && i < |all| && Qualifies(all[i]) && KeyOf(all[i]) == k
    && forall j :: 0 <= j < |all| && Qualifies(all[j]) && KeyOf(all[j]) == k
         ==> all[j].outputTokens <= all[i].outputTokens && (j < i ==> all[j].outputTokens < all[i].outputTokens)
  }

  /** seen holds, for exactly the keys of qualifying lines, the first best line's record. */
  ghost predicate Keeps(seen: map<Key, Kept>, all: seq<Entry>) {
    && (forall e <- all :: Qualifies(e) ==> KeyOf(e) in seen)
    && (forall k <- seen :: exists i: nat :: IsFirstBest(all, i, k) && seen[k] == Kept(all[i].rec, all[i].outputTokens))
  }

  function WithEntry(seen: map<Key, Kept>, e: Entry): map<Key, Kept> {
    if Qualifies(e) && (KeyOf(e) !in seen || e.outputTokens > seen[KeyOf(e)].outputTokens)
    then seen[KeyOf(e) := Kept(e.rec, e.outputTokens)] else seen
  }

  lemma FirstBestKept(all: seq<Entry>, e: Entry, i: nat, k: Key)
    requires IsFirstBest(all, i, k)
    requires Qualifies(e) && KeyOf(e) == k ==> e.outputTokens <= all[i].outputTokens
    ensures IsFirstBest(all + [e], i, k)
  {}

  lemma NewBest(all: seq<Entry>, e: Entry)
    requires Qualifies(e)
    requires forall j :: 0 <= j < |all| && Qualifies(all[j]) && KeyOf(all[j]) == KeyOf(e)
               ==> all[j].outputTokens < e.outputTokens
    ensures IsFirstBest(all + [e], |all|, KeyOf(e))
  {}

  lemma EntryKept(seen: map<Key, Kept>, all: seq<Entry>, e: Entry)
    requires Keeps(seen, all)
    ensures Keeps(WithEntry(seen, e), all + [e])
  {
    var seen', more := WithEntry(seen, e), all + [e];
    forall k | k in seen'
      ensures exists i: nat :: IsFirstBest(more, i, k) && seen'[k] == Kept(more[i].rec, more[i].outputTokens)
    {
      if k in seen && seen'[k] == seen[k]
         && (Qualifies(e) && KeyOf(e) == k ==> e.outputTokens <= seen[k].outputTokens) {
        var i: nat :| IsFirstBest(all, i, k) && seen[k] == Kept(all[i].rec, all[i].outputTokens);
        FirstBestKept(all, e, i, k);
        assert more[i] == all[i];
      } else {
        forall j | 0 <= j < |all| && Qualifies(all[j]) && KeyOf(all[j]) == k
          ensures all[j].outputTokens < e.outputTokens
        {
          assert all[j] in all;
          var i: nat :| IsFirstBest(all, i, k) && seen[k] == Kept(all[i].rec, all[i].outputTokens);
        }
        NewBest(all, e);
        assert more[|all|] == e;
      }
    }
  }

  /** parseTranscriptJSONL: merges one file's lines, seen being what the lines so far gave. */
  method ParseTranscript(entries: seq<Entry>, seen: map<Key, Kept>, ghost all: seq<Entry>)
    returns (seen': map<Key, Kept>)
    requires Keeps(seen, all)
    ensures Keeps(seen', all + entries)
  {
    seen' := seen;
    assert all + entries[..0] == all;
    for i := 0 to |entries|
      invariant Keeps(seen', all + entries[..i])
    {
      var e := entries[i];
      EntryKept(seen', all + entries[..i], e);
      assert all + entries[..i] + [e] == all + entries[..i + 1];
      if e.isAssistant && e.rec.requestId != "" && e.stopped {
        var key := (e.rec.requestId, e.messageId);
        if key !in seen' || e.outputTokens > seen'[key].outputTokens {
          seen' := seen'[key := Kept(e.rec, e.outputTokens)];
        }
      }
    }
    assert all + entries[..|entries|] == all + entries;
  }

  // ---------------------------------------------------------------- the file and back

  /** By request id, then by message id. */
  function ByKey(): (Key, Key) -> bool {
    (a: Key, b: Key) => if a.0 != b.0 then Less(a.0, b.0) else Less(a.1, b.1)
  }

  lemma ByKeyIsTotal()
    ensures TotalOrder(ByKey())
  {
    ByNameIsTotal();
    var less, name := ByKey(), ByName();
    forall a: Key ensures !less(a, a) { assert !name(a.1, a.1); }
    forall a: Key, b: Key, c: Key | less(a, b) && less(b, c) ensures less(a, c) {
      assert name(a.0, b.0) && name(b.0, c.0) ==> name(a.0, c.0);
      assert name(a.1, b.1) && name(b.1, c.1) ==> name(a.1, c.1);
      assert name(a.0, b.0) && name(b.0, a.0) ==> name(a.0, a.0);
    }
    forall a: Key, b: Key | a != b ensures less(a, b) || less(b, a) {
      assert a.0 != b.0 ==> name(a.0, b.0) || name(b.0, a.0);
      assert a.1 != b.1 ==> name(a.1, b.1) || name(b.1, a.1);
    }
  }

  /** The lines of attribution.jsonl, one per key. */
  function FileLines(seen: map<Key, Kept>, keys: seq<Key>): seq<Record>
    requires forall k <- keys :: k in seen
  {
    seq(|keys|, i requires 0 <= i < |keys| => assert keys[i] in keys; seen[keys[i]].rec)
  }

  /** recs is the file distilled from all these lines. */
  ghost predicate IsDistilled(recs: seq<Record>, all: seq<Entry>) {
    exists seen, keys :: IsFileOf(recs, seen, keys) && Keeps(seen, all)
  }

  ghost predicate IsFileOf(recs: seq<Record>, seen: map<Key, Kept>, keys: seq<Key>) {
    SortedListing(keys, seen.Keys, ByKey()) && (forall k <- keys :: k in seen) && recs == FileLines(seen, keys)
  }

  function Concat(files: seq<seq<Entry>>): seq<Entry> {
    if files == [] then [] else Concat(files[..|files| - 1]) + files[|files| - 1]
  }

  /** distillAttribution, once the transcripts are read; with no record kept no file is written. */
  method DistillAttribution(files: seq<seq<Entry>>) returns (recs: seq<Record>)
    ensures IsDistilled(recs, Concat(files))
  {
    var seen: map<Key, Kept> := map[];
    for i := 0 to |files|
      invariant Keeps(seen, Concat(files[..i]))
    {
      assert files[..i + 1][..i] == files[..i];
      seen := ParseTranscript(files[i], seen, Concat(files[..i]));
    }
    assert files[..|files|] == files;
    ByKeyIsTotal();
    var keys := SortedKeys(seen.Keys, ByKey());
    forall k | k in keys ensures k in seen {
      assert k in set x | x in keys;
    }
    recs := FileLines(seen, keys);
    assert IsFileOf(recs, seen, keys);
  }

  /** Line i is the last with its request id. */
  predicate IsLast(recs: seq<Record>, i: nat, id: string) {
    i < |recs| && recs[i].requestId == id && forall j :: i < j < |recs| ==> recs[j].requestId != id
  }

  /** m has, for exactly the request ids of the lines, the last line with that id. */
  ghost predicate ReadBack(recs: seq<Record>, m: map<string, Record>) {
    && (forall r <- recs :: r.requestId != "" ==> r.requestId in m)
    && (forall id <- m :: id != "" && exists i: nat :: IsLast(recs, i, id) && m[id] == recs[i])
  }

  /** readAttributionMap: a later line for a request id replaces an earlier one. */
  method ReadAttributionMap(recs: seq<Record>) returns (m: map<string, Record>)
    ensures ReadBack(recs, m)
  {
    m := map[];
    for i := 0 to |recs|
      invariant forall k :: 0 <= k < i && recs[k].requestId != "" ==> recs[k].requestId in m
      invariant forall id <- m :: id != "" && exists k: nat :: IsLast(recs[..i], k, id) && m[id] == recs[k]
    {
      ghost var before := m;
      if recs[i].requestId != "" {
        m := m[recs[i].requestId := recs[i]];
      }
      forall id | id in m ensures exists k: nat :: IsLast(recs[..i + 1], k, id) && m[id] == recs[k] {
        if id == recs[i].requestId {
          assert IsLast(recs[..i + 1], i, id);
        } else {
          var k: nat :| IsLast(recs[..i], k, id) && before[id] == recs[k];
          assert IsLast(recs[..i + 1], k, id);
        }
      }
    }
    assert recs[..|recs|] == recs;
  }

  lemma KeptHasItsRequest(seen: map<Key, Kept>, all: seq<Entry>, k: Key)
    requires Keeps(seen, all) && k in seen
    ensures seen[k].rec.requestId == k.0 != ""
    ensures exists e <- all :: Qualifies(e) && KeyOf(e) == k
  {}

  /** The file has one line per key of a qualifying line, keys being in the same order. */
  ghost predicate HasKeys(recs: seq<Record>, keys: seq<Key>, all: seq<Entry>) {
    && |recs| == |keys| && Sorted(keys, ByKey()) && Distinct(keys)
    && (forall i :: 0 <= i < |recs| ==> recs[i].requestId == keys[i].0 != "")
    && (forall e <- all :: Qualifies(e) ==> KeyOf(e) in keys)
    && (forall k <- keys :: exists e <- all :: Qualifies(e) && KeyOf(e) == k)
  }

  lemma FileHasKeys(recs: seq<Record>, seen: map<Key, Kept>, keys: seq<Key>, all: seq<Entry>)
    requires IsFileOf(recs, seen, keys) && Keeps(seen, all)
    ensures HasKeys(recs, keys, all)
  {
    forall i | 0 <= i < |keys| ensures recs[i].requestId == keys[i].0 != "" {
      assert keys[i] in keys;
      KeptHasItsRequest(seen, all, keys[i]);
    }
    forall k | k in keys ensures exists e <- all :: Qualifies(e) && KeyOf(e) == k {
      KeptHasItsRequest(seen, all, k);
    }
    forall k | k in seen ensures k in keys {
      assert k in set x | x in keys;
    }
  }

  lemma DistilledKeys(recs: seq<Record>, all: seq<Entry>) returns (keys: seq<Key>)
    requires IsDistilled(recs, all)
    ensures HasKeys(recs, keys, all)
  {
    var seen: map<Key, Kept>, ks: seq<Key> :| IsFileOf(recs, seen, ks) && Keeps(seen, all);
    keys := ks;
    FileHasKeys(recs, seen, keys, all);
  }

  /** Requests with a qualifying line are attributed, others are not. */
  lemma AttributedIffSeen(recs: seq<Record>, all: seq<Entry>, m: map<string, Record>, id: string)
    requires IsDistilled(recs, all) && ReadBack(recs, m)
    ensures id in m <==> id != "" && exists e <- all :: e.rec.requestId == id && e.isAssistant && e.stopped
  {
    var keys := DistilledKeys(recs, all);
    if e :| e in all && Qualifies(e) && e.rec.requestId == id {
      var i :| 0 <= i < |keys| && keys[i] == KeyOf(e);
      assert recs[i] in recs;
    }
    if id in m {
      var i: nat :| IsLast(recs, i, id) && m[id] == recs[i];
      assert keys[i] in keys;
    }
  }

  lemma LastIsGreatest(keys: seq<Key>, i: nat, k: Key)
    requires Sorted(keys, ByKey()) && i < |keys| && (forall j :: i < j < |keys| ==> keys[j].0 != keys[i].0)
    requires k in keys && k.0 == keys[i].0 && k != keys[i]
    ensures Less(k.1, keys[i].1)
  {
    var j :| 0 <= j < |keys| && keys[j] == k;
    assert ByKey()(keys[j], keys[i]);
  }

  /** msg is the greatest message id that this request qualifies with. */
  predicate IsGreatest(all: seq<Entry>, id: string, msg: string) {
    forall e <- all :: Qualifies(e) && e.rec.requestId == id && e.messageId != msg ==> Less(e.messageId, msg)
  }

  lemma LastLineIsGreatest(recs: seq<Record>, keys: seq<Key>, all: seq<Entry>, i: nat, id: string)
    requires HasKeys(recs, keys, all) && IsLast(recs, i, id)
    ensures keys[i].0 == id && IsGreatest(all, id, keys[i].1)
  {
    forall e | e in all && Qualifies(e) && e.rec.requestId == id && e.messageId != keys[i].1
      ensures Less(e.messageId, keys[i].1)
    {
      LastIsGreatest(keys, i, KeyOf(e));
    }
  }

  /**
   * What a request is attributed to in the end, after the file was written and read back: of
   * its lines with the greatest message id the first with the most output tokens.
   */
  lemma AttributedToGreatestMessage(recs: seq<Record>, all: seq<Entry>, m: map<string, Record>, id: string)
    returns (i: nat)
    requires IsDistilled(recs, all) && ReadBack(recs, m) && id in m
    ensures i < |all| && m[id] == all[i].rec && IsFirstBest(all, i, (id, all[i].messageId))
    ensures IsGreatest(all, id, all[i].messageId)
  {
    var seen: map<Key, Kept>, keys: seq<Key> :| IsFileOf(recs, seen, keys) && Keeps(seen, all);
    FileHasKeys(recs, seen, keys, all);
    var l: nat :| IsLast(recs, l, id) && m[id] == recs[l];
    LastLineIsGreatest(recs, keys, all, l, id);
    i := LineBehind(recs, seen, keys, all, l);
  }

  /** The transcript line whose record the l-th line of the file is. */
  lemma LineBehind(recs: seq<Record>, seen: map<Key, Kept>, keys: seq<Key>, all: seq<Entry>, l: nat) returns (i: nat)
    requires IsFileOf(recs, seen, keys) && Keeps(seen, all) && l < |recs|
    ensures IsFirstBest(all, i, keys[l]) && recs[l] == all[i].rec
  {
    assert keys[l] in keys;
    i :| IsFirstBest(all, i, keys[l]) && seen[keys[l]] == Kept(all[i].rec, all[i].outputTokens);
  }

  predicate OneLineEach(recs: seq<Record>) {
    forall i, j :: 0 <= i < j < |recs| ==> recs[i].requestId != recs[j].requestId
  }

  /** Each request that qualifies does so with one message id only. */
  predicate OneMessageEach(all: seq<Entry>) {
    forall d <- all, e <- all :: Qualifies(d) && Qualifies(e) && d.rec.requestId == e.rec.requestId
      ==> d.messageId == e.messageId
  }

  lemma TwoMessagesTwoLines(recs: seq<Record>, keys: seq<Key>, all: seq<Entry>, d: Entry, e: Entry)
    requires HasKeys(recs, keys, all) && d in all && e in all && Qualifies(d) && Qualifies(e)
    requires d.rec.requestId == e.rec.requestId && d.messageId != e.messageId
    ensures !OneLineEach(recs)
  {
    var i :| 0 <= i < |keys| && keys[i] == KeyOf(d);
    var j :| 0 <= j < |keys| && keys[j] == KeyOf(e);
    var lo, hi := if i < j then i else j, if i < j then j else i;
    assert recs[lo].requestId == recs[hi].requestId;
  }

  lemma OneMessageOneLine(recs: seq<Record>, keys: seq<Key>, all: seq<Entry>)
    requires HasKeys(recs, keys, all) && OneMessageEach(all)
    ensures OneLineEach(recs)
  {
    forall i, j | 0 <= i < j < |recs| ensures recs[i].requestId != recs[j].requestId {
      assert keys[i] in keys && keys[j] in keys;
      var d :| d in all && Qualifies(d) && KeyOf(d) == keys[i];
      var e :| e in all && Qualifies(e) && KeyOf(e) == keys[j];
      assert keys[i] != keys[j];
    }
  }

  /** A request has one line in the file exactly if it occurs with one message id only. */
  lemma OneLinePerRequestIff(recs: seq<Record>, all: seq<Entry>)
    requires IsDistilled(recs, all)
    ensures OneLineEach(recs) <==> OneMessageEach(all)
  {
    var keys := DistilledKeys(recs, all);
    if OneMessageEach(all) {
      OneMessageOneLine(recs, keys, all);
    } else {
      var d, e :| d in all && e in all && Qualifies(d) && Qualifies(e)
                  && d.rec.requestId == e.rec.requestId && d.messageId != e.messageId;
      TwoMessagesTwoLines(recs, keys, all, d, e);
    }
  }

  lemma TwoKeys(keys: seq<Key>, a: Key, b: Key)
    requires Distinct(keys) && a != b && a in keys && b in keys && forall k <- keys :: k == a || k == b
    ensures |keys| == 2
  {
    assert {a, b} == set k | k in keys;
    ListingLength(keys, {a, b});
  }

  lemma OnlyTheirKeys(recs: seq<Record>, keys: seq<Key>, d: Entry, e: Entry)
    requires HasKeys(recs, keys, [d, e]) && Qualifies(d) && Qualifies(e)
    ensures KeyOf(d) in keys && KeyOf(e) in keys && forall k <- keys :: k == KeyOf(d) || k == KeyOf(e)
  {
    assert d in [d, e] && e in [d, e];
  }

  /** Two qualifying lines of one request with two message ids: the file has two lines for it. */
  lemma TwoLinesForOneRequest(recs: seq<Record>, d: Entry, e: Entry)
    requires IsDistilled(recs, [d, e]) && Qualifies(d) && Qualifies(e)
    requires d.rec.requestId == e.rec.requestId && d.messageId != e.messageId
    ensures |recs| == 2 && recs[0].requestId == recs[1].requestId == d.rec.requestId
  {
    var keys := DistilledKeys(recs, [d, e]);
    OnlyTheirKeys(recs, keys, d, e);
    TwoKeys(keys, KeyOf(d), KeyOf(e));
    assert keys[0] in keys && keys[1] in keys;
  }
}
