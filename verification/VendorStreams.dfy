// What the two usage proxies read out of a response body: the line handlers and event folds
// of internal/proxies/openai/usage.go and internal/proxies/anthropic/usage.go, and one whole
// response from its reads to the tracker.

module VendorStreams {
  import opened Common
  import opened EventLines
  import opened Pricing
  import opened SseScan
  import opened Tracker

  // ---------------------------------------------------------------- first and last

  /** The last value present, if any. */
  function LastSome<T>(xs: seq<Option<T>>): Option<T> {
    if xs == [] then None
    else if xs[|xs| - 1].Some? then xs[|xs| - 1]
    else LastSome(xs[..|xs| - 1])
  }

  /** The first value present, if any. */
  function FirstSome<T>(xs: seq<Option<T>>): Option<T> {
    if xs == [] then None else if xs[0].Some? then xs[0] else FirstSome(xs[1..])
  }

  function OrElse<T>(o: Option<T>, default: T): T {
    if o.Some? then o.value else default
  }

  lemma {:induction false} LastSomeIs<T>(xs: seq<Option<T>>, i: nat)
    requires i < |xs| && xs[i].Some? && forall j :: i < j < |xs| ==> xs[j].None?
    ensures LastSome(xs) == xs[i]
    decreases |xs|
  {
    if i < |xs| - 1 {
      LastSomeIs(xs[..|xs| - 1], i);
    }
  }

  lemma {:induction false} FirstSomeIs<T>(xs: seq<Option<T>>, i: nat)
    requires i < |xs| && xs[i].Some? && forall j :: 0 <= j < i ==> xs[j].None?
    ensures FirstSome(xs) == xs[i]
    decreases |xs|
  {
    if i > 0 {
      FirstSomeIs(xs[1..], i - 1);
    }
  }

  /** xs[k] is the last that p holds of. */
  predicate LastHere<E>(xs: seq<E>, k: nat, p: E -> bool) {
    k < |xs| && p(xs[k]) && forall j :: k < j < |xs| ==> !p(xs[j])
  }

  /** xs[k] is the first that p holds of. */
  predicate FirstHere<E>(xs: seq<E>, k: nat, p: E -> bool) {
    k < |xs| && p(xs[k]) && forall j :: 0 <= j < k ==> !p(xs[j])
  }

  lemma {:induction false} NoneIsLast<T>(xs: seq<Option<T>>)
    requires forall i :: 0 <= i < |xs| ==> xs[i].None?
    ensures LastSome(xs) == None
  {
    if xs != [] {
      NoneIsLast(xs[..|xs| - 1]);
    }
  }

  lemma {:induction false} NoneIsFirst<T>(xs: seq<Option<T>>)
    requires forall i :: 0 <= i < |xs| ==> xs[i].None?
    ensures FirstSome(xs) == None
  {
    if xs != [] {
      NoneIsFirst(xs[1..]);
    }
  }

  lemma {:induction false} FirstSomeSnoc<T>(xs: seq<Option<T>>, x: Option<T>)
    ensures FirstSome(xs + [x]) == if FirstSome(xs).Some? then FirstSome(xs) else x
    decreases |xs|
  {
    if xs == [] {
      assert [x][1..] == [];
    } else {
      assert (xs + [x])[1..] == xs[1..] + [x];
      FirstSomeSnoc(xs[1..], x);
    }
  }

  function Project<E, T>(evs: seq<E>, f: E -> Option<T>): seq<Option<T>> {
    seq(|evs|, i requires 0 <= i < |evs| => f(evs[i]))
  }

  lemma ProjectSnoc<E, T>(evs: seq<E>, e: E, f: E -> Option<T>)
    ensures Project(evs + [e], f) == Project(evs, f) + [f(e)]
    ensures LastSome(Project(evs + [e], f)) == if f(e).Some? then f(e) else LastSome(Project(evs, f))
    ensures FirstSome(Project(evs + [e], f))
         == if FirstSome(Project(evs, f)).Some? then FirstSome(Project(evs, f)) else f(e)
  {
    var p := Project(evs, f) + [f(e)];
    assert Project(evs + [e], f) == p;
    assert p[..|p| - 1] == Project(evs, f);
    FirstSomeSnoc(Project(evs, f), f(e));
  }

  /** The event types the two handlers know: response.completed, message_start, message_delta. */
  datatype EventType = ResponseCompleted | MessageStart | MessageDelta | OtherType(name: string)

  // ---------------------------------------------------------------- OpenAI

  datatype OpenAiResponse = OpenAiResponse(id: string, model: string, usage: Option<OpenAiCounts>)
  datatype OpenAiEvent = OpenAiEvent(ty: EventType, response: Option<OpenAiResponse>, usage: Option<OpenAiCounts>)

  datatype OpenAiState = OpenAiState(modelID: string, counts: OpenAiCounts, sawUsage: bool, requestID: string)

  const OPENAI_START := OpenAiState("", OPENAI.zero, false, "")

  function OpenAiApplyEvent(s: OpenAiState, ev: OpenAiEvent): OpenAiState {
    if ev.ty == ResponseCompleted then
      if ev.response.Some? && ev.response.value.usage.Some?
      then s.(counts := ev.response.value.usage.value, sawUsage := true) else s
    else if ev.usage.Some? && !s.sawUsage then s.(counts := ev.usage.value, sawUsage := true)
    else s
  }

  function OpenAiStep(s: OpenAiState, ev: OpenAiEvent): OpenAiState {
    var s1 := if ev.response.Some? && ev.response.value.model != "" then s.(modelID := ev.response.value.model) else s;
    var s2 := if ev.response.Some? && ev.response.value.id != "" then s1.(requestID := ev.response.value.id) else s1;
    OpenAiApplyEvent(s2, ev)
  }

  function OpenAiFold(evs: seq<OpenAiEvent>): OpenAiState {
    if evs == [] then OPENAI_START else OpenAiStep(OpenAiFold(evs[..|evs| - 1]), evs[|evs| - 1])
  }

  function CompletedUsage(ev: OpenAiEvent): Option<OpenAiCounts> {
    if ev.ty == ResponseCompleted && ev.response.Some? then ev.response.value.usage else None
  }

  function FallbackUsage(ev: OpenAiEvent): Option<OpenAiCounts> {
    if ev.ty != ResponseCompleted then ev.usage else None
  }

  function NonEmpty(s: string): Option<string> {
    if s == "" then None else Some(s)
  }

  function ResponseModel(ev: OpenAiEvent): Option<string> {
    if ev.response.Some? then NonEmpty(ev.response.value.model) else None
  }

  function ResponseId(ev: OpenAiEvent): Option<string> {
    if ev.response.Some? then NonEmpty(ev.response.value.id) else None
  }

  /** The usage of the last completed response, else the first fallback usage. */
  function OpenAiUsage(evs: seq<OpenAiEvent>): Option<OpenAiCounts> {
    var done := LastSome(Project(evs, CompletedUsage));
    if done.Some? then done else FirstSome(Project(evs, FallbackUsage))
  }

  lemma {:induction false} OpenAiFoldModel(evs: seq<OpenAiEvent>)
    ensures OpenAiFold(evs).modelID == OrElse(LastSome(Project(evs, ResponseModel)), "")
  {
    if evs != [] {
      var init, last := evs[..|evs| - 1], evs[|evs| - 1];
      assert evs == init + [last];
      OpenAiFoldModel(init);
      ProjectSnoc(init, last, ResponseModel);
    }
  }

  lemma {:induction false} OpenAiFoldId(evs: seq<OpenAiEvent>)
    ensures OpenAiFold(evs).requestID == OrElse(LastSome(Project(evs, ResponseId)), "")
  {
    if evs != [] {
      var init, last := evs[..|evs| - 1], evs[|evs| - 1];
      assert evs == init + [last];
      OpenAiFoldId(init);
      ProjectSnoc(init, last, ResponseId);
    }
  }

  /** The event fold picks its usage by the rule of OpenAiUsage. */
  lemma {:induction false} OpenAiFoldUsage(evs: seq<OpenAiEvent>)
    ensures OpenAiFold(evs).sawUsage == OpenAiUsage(evs).Some?
    ensures OpenAiFold(evs).counts == OrElse(OpenAiUsage(evs), OPENAI.zero)
  {
    if evs != [] {
      var init, last := evs[..|evs| - 1], evs[|evs| - 1];
      assert evs == init + [last];
      OpenAiFoldUsage(init);
      ProjectSnoc(init, last, CompletedUsage);
      ProjectSnoc(init, last, FallbackUsage);
    }
  }

  lemma {:induction false} IdsAreNonEmpty(evs: seq<OpenAiEvent>)
    ensures LastSome(Project(evs, ResponseId)) != Some("")
  {
    if evs != [] {
      var init, last := evs[..|evs| - 1], evs[|evs| - 1];
      assert evs == init + [last];
      IdsAreNonEmpty(init);
      ProjectSnoc(init, last, ResponseId);
    }
  }

  /** What one response amounts to for the tracker. */
  function OpenAiOutcome(evs: seq<OpenAiEvent>, xRequestID: string): Call<OpenAiCounts> {
    match OpenAiUsage(evs)
    case None => DropNoUsage
    case Some(usage) =>
      Add(OrElse(LastSome(Project(evs, ResponseModel)), ""), usage,
          OrElse(LastSome(Project(evs, ResponseId)), xRequestID))
  }

  /** The outcome, read off the state the events leave. */
  lemma OpenAiOutcomeOf(evs: seq<OpenAiEvent>, xRequestID: string)
    ensures var s := OpenAiFold(evs);
      OpenAiOutcome(evs, xRequestID)
      == if s.sawUsage
         then Add(s.modelID, s.counts, if s.requestID == "" then xRequestID else s.requestID)
         else DropNoUsage
  {
    OpenAiFoldModel(evs);
    OpenAiFoldId(evs);
    OpenAiFoldUsage(evs);
    IdsAreNonEmpty(evs);
  }

  /** A response.completed event with usage. */
  predicate Completes(ev: OpenAiEvent) {
    ev.ty == ResponseCompleted && ev.response.Some? && ev.response.value.usage.Some?
  }

  /** Another event with usage of its own. */
  predicate FallsBack(ev: OpenAiEvent) {
    ev.ty != ResponseCompleted && ev.usage.Some?
  }

  /** The usage recorded is that of the last event that completes. */
  lemma LastCompletedCounts(evs: seq<OpenAiEvent>, xRequestID: string, k: nat)
    requires LastHere(evs, k, Completes)
    ensures OpenAiOutcome(evs, xRequestID).Add?
    ensures Some(OpenAiOutcome(evs, xRequestID).counts) == evs[k].response.value.usage
  {
    LastSomeIs(Project(evs, CompletedUsage), k);
  }

  lemma NoneCompleted(evs: seq<OpenAiEvent>)
    requires forall ev <- evs :: !Completes(ev)
    ensures LastSome(Project(evs, CompletedUsage)) == None
  {
    forall i | 0 <= i < |evs| ensures CompletedUsage(evs[i]).None? {
      assert evs[i] in evs;
    }
    NoneIsLast(Project(evs, CompletedUsage));
  }

  /** If none completes it is that of the first event that falls back. */
  lemma FirstFallbackCounts(evs: seq<OpenAiEvent>, xRequestID: string, k: nat)
    requires FirstHere(evs, k, FallsBack) && forall ev <- evs :: !Completes(ev)
    ensures OpenAiOutcome(evs, xRequestID).Add?
    ensures Some(OpenAiOutcome(evs, xRequestID).counts) == evs[k].usage
  {
    NoneCompleted(evs);
    forall j | 0 <= j < k ensures FallbackUsage(evs[j]).None? {
      assert !FallsBack(evs[j]);
    }
    assert FallbackUsage(evs[k]).Some?;
    FirstSomeIs(Project(evs, FallbackUsage), k);
  }

  /** A response is dropped only if no event completes or falls back. */
  lemma OpenAiDropsWithoutUsage(evs: seq<OpenAiEvent>, xRequestID: string)
    requires forall ev <- evs :: !Completes(ev) && !FallsBack(ev)
    ensures OpenAiOutcome(evs, xRequestID) == DropNoUsage
  {
    NoneCompleted(evs);
    forall i | 0 <= i < |evs| ensures FallbackUsage(evs[i]).None? {
      assert evs[i] in evs;
    }
    NoneIsFirst(Project(evs, FallbackUsage));
  }

  class OpenAiStream {
    const decode: string -> Option<OpenAiEvent>
    const xRequestID: string
    var modelID: string
    var counts: OpenAiCounts
    var sawUsage: bool
    var requestID: string

    constructor (decode: string -> Option<OpenAiEvent>, xRequestID: string)
      ensures this.decode == decode && this.xRequestID == xRequestID && State() == OpenAiFold([])
    {
      this.decode, this.xRequestID := decode, xRequestID;
      modelID, counts, sawUsage, requestID := "", OpenAiCounts(0, 0, 0, 0, 0), false, "";
    }

    function State(): OpenAiState
      reads this
    {
      OpenAiState(modelID, counts, sawUsage, requestID)
    }

    method ApplyEvent(ev: OpenAiEvent)
      modifies this`counts, this`sawUsage
      ensures State() == OpenAiApplyEvent(old(State()), ev)
    {
      if ev.ty == ResponseCompleted {
        if ev.response.Some? && ev.response.value.usage.Some? {
          counts := ev.response.value.usage.value;
          sawUsage := true;
        }
      } else if ev.usage.Some? && !sawUsage {
        counts := ev.usage.value;
        sawUsage := true;
      }
    }

    method HandleEvent(ev: OpenAiEvent)
      modifies this
      ensures State() == OpenAiStep(old(State()), ev)
    {
      if ev.response.Some? {
        if ev.response.value.model != "" {
          modelID := ev.response.value.model;
        }
        if ev.response.value.id != "" {
          requestID := ev.response.value.id;
        }
      }
      ApplyEvent(ev);
    }

    method HandleLine(line: string, ghost seen: seq<string>)
      requires State() == OpenAiFold(EventsOf(seen, decode))
      modifies this
      ensures State() == OpenAiFold(EventsOf(seen + [line], decode))
    {
      EventsSnoc(seen, line, decode);
      var payload := Payload(line);
      if payload == None {
        return;
      }
      var ev := decode(payload.value);
      if ev == None {
        return;
      }
      HandleEvent(ev.value);
      ghost var evs := EventsOf(seen, decode);
      assert (evs + [ev.value])[..|evs|] == evs;
    }

    /** The onLine calls of one scan, in order: the lines from that place on. */
    method HandleLines(lines: seq<string>, from: nat, ghost before: seq<string>)
      requires before <= lines && from == |before| && State() == OpenAiFold(EventsOf(before, decode))
      modifies this
      ensures State() == OpenAiFold(EventsOf(lines, decode))
    {
      assert lines[..from] == before;
      for k := from to |lines|
        invariant State() == OpenAiFold(EventsOf(lines[..k], decode))
      {
        HandleLine(lines[k], lines[..k]);
        TakeNext(lines, k);
      }
      assert lines[..|lines|] == lines;
    }

    method Flush(tracker: UsageTracker<OpenAiCounts>, ghost evs: seq<OpenAiEvent>)
      requires tracker.Valid() && State() == OpenAiFold(evs)
      modifies tracker
      ensures tracker.Valid() && tracker.calls == old(tracker.calls) + [OpenAiOutcome(evs, xRequestID)]
    {
      OpenAiOutcomeOf(evs, xRequestID);
      if !sawUsage {
        tracker.AddDroppedNoUsageBlock();
        return;
      }
      var reqID := if requestID == "" then xRequestID else requestID;
      tracker.Add(modelID, counts, reqID);
    }
  }

  // ---------------------------------------------------------------- Anthropic

  datatype AnthropicMessage = AnthropicMessage(model: string, usage: Option<AnthropicCounts>)
  datatype AnthropicEvent =
    AnthropicEvent(ty: EventType, message: Option<AnthropicMessage>, usage: Option<AnthropicCounts>)

  datatype AnthropicState = AnthropicState(modelID: string, counts: AnthropicCounts, sawStart: bool)

  const ANTHROPIC_START := AnthropicState("", ANTHROPIC.zero, false)

  function AnthropicApplyStart(s: AnthropicState, ev: AnthropicEvent): AnthropicState {
    if ev.message.None? then s
    else
      var s1 := if ev.message.value.model != "" then s.(modelID := ev.message.value.model) else s;
      if ev.message.value.usage.None? then s1
      else s1.(counts := ev.message.value.usage.value, sawStart := true)
  }

  function AnthropicApplyDelta(s: AnthropicState, ev: AnthropicEvent): AnthropicState {
    if ev.usage.None? then s
    else
      var u, c := ev.usage.value, s.counts;
      s.(counts := AnthropicCounts(
           if u.input > 0 then u.input else c.input,
           u.output,
           if u.cacheCreation > 0 then u.cacheCreation else c.cacheCreation,
           if u.cacheRead > 0 then u.cacheRead else c.cacheRead))
  }

  function AnthropicStep(s: AnthropicState, ev: AnthropicEvent): AnthropicState {
    if ev.ty == MessageStart then AnthropicApplyStart(s, ev)
    else if ev.ty == MessageDelta then AnthropicApplyDelta(s, ev)
    else s
  }

  function AnthropicFold(evs: seq<AnthropicEvent>): AnthropicState {
    if evs == [] then ANTHROPIC_START else AnthropicStep(AnthropicFold(evs[..|evs| - 1]), evs[|evs| - 1])
  }

  function StartUsage(ev: AnthropicEvent): Option<AnthropicCounts> {
    if ev.ty == MessageStart && ev.message.Some? then ev.message.value.usage else None
  }

  function StartModel(ev: AnthropicEvent): Option<string> {
    if ev.ty == MessageStart && ev.message.Some? then NonEmpty(ev.message.value.model) else None
  }

  function DeltaUsage(ev: AnthropicEvent): Option<AnthropicCounts> {
    if ev.ty == MessageDelta then ev.usage else None
  }

  function Positive(n: int): Option<int> {
    if n > 0 then Some(n) else None
  }

  function OutputOverride(ev: AnthropicEvent): Option<int> {
    if DeltaUsage(ev).Some? then Some(DeltaUsage(ev).value.output) else None
  }

  function InputOverride(ev: AnthropicEvent): Option<int> {
    if DeltaUsage(ev).Some? then Positive(DeltaUsage(ev).value.input) else None
  }

  function CacheCreationOverride(ev: AnthropicEvent): Option<int> {
    if DeltaUsage(ev).Some? then Positive(DeltaUsage(ev).value.cacheCreation) else None
  }

  function CacheReadOverride(ev: AnthropicEvent): Option<int> {
    if DeltaUsage(ev).Some? then Positive(DeltaUsage(ev).value.cacheRead) else None
  }

  /** A start's usage with each field replaced by its last superseding delta. */
  function Superseded(u: AnthropicCounts, deltas: seq<AnthropicEvent>): AnthropicCounts {
    AnthropicCounts(
      OrElse(LastSome(Project(deltas, InputOverride)), u.input),
      OrElse(LastSome(Project(deltas, OutputOverride)), u.output),
      OrElse(LastSome(Project(deltas, CacheCreationOverride)), u.cacheCreation),
      OrElse(LastSome(Project(deltas, CacheReadOverride)), u.cacheRead))
  }

  /** The position of the last start that carries usage; the length if there is none. */
  function LastStart(evs: seq<AnthropicEvent>): (k: nat)
    ensures k <= |evs|
    ensures k < |evs| ==> StartUsage(evs[k]).Some?
    ensures forall j :: 0 <= j < |evs| && (j > k || k == |evs|) ==> StartUsage(evs[j]).None?
  {
    if evs == [] then 0
    else if StartUsage(evs[|evs| - 1]).Some? then |evs| - 1
    else
      var k := LastStart(evs[..|evs| - 1]);
      if k == |evs| - 1 then |evs| else k
  }

  lemma SupersededSnoc(u: AnthropicCounts, deltas: seq<AnthropicEvent>, ev: AnthropicEvent)
    requires StartUsage(ev).None?
    ensures Superseded(u, deltas + [ev])
         == AnthropicStep(AnthropicState("", Superseded(u, deltas), true), ev).counts
  {
    ProjectSnoc(deltas, ev, InputOverride);
    ProjectSnoc(deltas, ev, OutputOverride);
    ProjectSnoc(deltas, ev, CacheCreationOverride);
    ProjectSnoc(deltas, ev, CacheReadOverride);
  }

  lemma {:induction false} AnthropicFoldModel(evs: seq<AnthropicEvent>)
    ensures AnthropicFold(evs).modelID == OrElse(LastSome(Project(evs, StartModel)), "")
  {
    if evs != [] {
      var init, last := evs[..|evs| - 1], evs[|evs| - 1];
      assert evs == init + [last];
      AnthropicFoldModel(init);
      ProjectSnoc(init, last, StartModel);
    }
  }

  /** What AnthropicFoldUsage says of a sequence of events. */
  ghost predicate HoldsLastStart(s: AnthropicState, evs: seq<AnthropicEvent>) {
    var k := LastStart(evs);
    && (s.sawStart <==> k < |evs|)
    && (k < |evs| ==> s.counts == Superseded(StartUsage(evs[k]).value, evs[k + 1..]))
  }

  lemma AfterStart(s: AnthropicState, evs: seq<AnthropicEvent>, ev: AnthropicEvent)
    requires StartUsage(ev).Some?
    ensures HoldsLastStart(AnthropicStep(s, ev), evs + [ev])
  {
    assert (evs + [ev])[|evs| + 1..] == [];
    NothingSuperseded(StartUsage(ev).value);
  }

  lemma LastStartSnoc(evs: seq<AnthropicEvent>, ev: AnthropicEvent)
    requires StartUsage(ev).None?
    ensures LastStart(evs + [ev]) == if LastStart(evs) == |evs| then |evs| + 1 else LastStart(evs)
  {
    assert (evs + [ev])[..|evs|] == evs;
  }

  lemma AfterOther(s: AnthropicState, evs: seq<AnthropicEvent>, ev: AnthropicEvent)
    requires StartUsage(ev).None? && HoldsLastStart(s, evs)
    ensures HoldsLastStart(AnthropicStep(s, ev), evs + [ev])
  {
    var k := LastStart(evs);
    LastStartSnoc(evs, ev);
    if k < |evs| {
      assert (evs + [ev])[k + 1..] == evs[k + 1..] + [ev] && (evs + [ev])[k] == evs[k];
      SupersededSnoc(StartUsage(evs[k]).value, evs[k + 1..], ev);
    }
  }

  /** The event fold saw a start exactly if one carried usage, and holds its superseded usage. */
  lemma {:induction false} AnthropicFoldUsage(evs: seq<AnthropicEvent>)
    ensures AnthropicFold(evs).sawStart <==> LastStart(evs) < |evs|
    ensures LastStart(evs) < |evs| ==>
      AnthropicFold(evs).counts == Superseded(StartUsage(evs[LastStart(evs)]).value, evs[LastStart(evs) + 1..])
  {
    if evs != [] {
      var init, last := evs[..|evs| - 1], evs[|evs| - 1];
      AnthropicFoldUsage(init);
      if StartUsage(last).Some? {
        AfterStart(AnthropicFold(init), init, last);
      } else {
        AfterOther(AnthropicFold(init), init, last);
      }
      assert init + [last] == evs;
    }
  }

  lemma NothingSuperseded(u: AnthropicCounts)
    ensures Superseded(u, []) == u
  {}

  function AnthropicOutcome(evs: seq<AnthropicEvent>, requestID: string): Call<AnthropicCounts> {
    var k := LastStart(evs);
    if k == |evs| then DropNoUsage
    else
      Add(OrElse(LastSome(Project(evs, StartModel)), ""), Superseded(StartUsage(evs[k]).value, evs[k + 1..]), requestID)
  }

  /** The outcome, read off the state the events leave. */
  lemma AnthropicOutcomeOf(evs: seq<AnthropicEvent>, requestID: string)
    ensures var s := AnthropicFold(evs);
      AnthropicOutcome(evs, requestID) == if s.sawStart then Add(s.modelID, s.counts, requestID) else DropNoUsage
  {
    AnthropicFoldModel(evs);
    AnthropicFoldUsage(evs);
  }

  /** A message_start event with usage. */
  predicate Starts(ev: AnthropicEvent) {
    ev.ty == MessageStart && ev.message.Some? && ev.message.value.usage.Some?
  }

  /** A message_delta event with usage. */
  predicate Updates(ev: AnthropicEvent) {
    ev.ty == MessageDelta && ev.usage.Some?
  }

  /** A response is dropped if and only if no event starts. */
  lemma AnthropicDropsIff(evs: seq<AnthropicEvent>, requestID: string)
    ensures AnthropicOutcome(evs, requestID).DropNoUsage? <==> forall ev <- evs :: !Starts(ev)
  {
    var k := LastStart(evs);
    forall j | 0 <= j < |evs| ensures Starts(evs[j]) <==> StartUsage(evs[j]).Some? {}
    if k < |evs| {
      assert evs[k] in evs;
    }
  }

  lemma LastStartIs(evs: seq<AnthropicEvent>, k: nat)
    requires LastHere(evs, k, Starts)
    ensures LastStart(evs) == k
  {
    assert StartUsage(evs[k]).Some?;
    forall j | k < j < |evs| ensures StartUsage(evs[j]).None? {
      assert !Starts(evs[j]);
    }
  }

  /** One count after the updates: that of the last update that sets it, else the start's. */
  lemma LastSetting(deltas: seq<AnthropicEvent>, f: AnthropicEvent -> Option<int>, sets: AnthropicEvent -> bool,
                    u: nat, default: int)
    requires forall ev :: sets(ev) <==> f(ev).Some?
    ensures LastHere(deltas, u, sets) ==> Some(OrElse(LastSome(Project(deltas, f)), default)) == f(deltas[u])
    ensures (forall ev <- deltas :: !sets(ev)) ==> OrElse(LastSome(Project(deltas, f)), default) == default
  {
    if LastHere(deltas, u, sets) {
      LastSomeIs(Project(deltas, f), u);
    }
    if forall ev <- deltas :: !sets(ev) {
      NoneIsLast(Project(deltas, f));
    }
  }

  /** The output tokens are those of the last update after the last start, a zero included. */
  lemma LastUpdateSetsOutput(evs: seq<AnthropicEvent>, requestID: string, k: nat, u: nat)
    requires LastHere(evs, k, Starts)
    ensures AnthropicOutcome(evs, requestID).Add?
    ensures var c, deltas := AnthropicOutcome(evs, requestID).counts, evs[k + 1..];
      && (LastHere(deltas, u, Updates) ==> c.output == deltas[u].usage.value.output)
      && ((forall ev <- deltas :: !Updates(ev)) ==> c.output == evs[k].message.value.usage.value.output)
  {
    LastStartIs(evs, k);
    LastSetting(evs[k + 1..], OutputOverride, Updates, u, evs[k].message.value.usage.value.output);
  }

  predicate SetsInput(ev: AnthropicEvent) {
    Updates(ev) && ev.usage.value.input > 0
  }

  predicate SetsCacheCreation(ev: AnthropicEvent) {
    Updates(ev) && ev.usage.value.cacheCreation > 0
  }

  predicate SetsCacheRead(ev: AnthropicEvent) {
    Updates(ev) && ev.usage.value.cacheRead > 0
  }

  /** The input tokens are those of the last such update in which they are positive. */
  lemma LastPositiveSetsInput(evs: seq<AnthropicEvent>, requestID: string, k: nat, u: nat)
    requires LastHere(evs, k, Starts)
    ensures AnthropicOutcome(evs, requestID).Add?
    ensures var c, deltas := AnthropicOutcome(evs, requestID).counts, evs[k + 1..];
      && (LastHere(deltas, u, SetsInput) ==> c.input == deltas[u].usage.value.input)
      && ((forall ev <- deltas :: !SetsInput(ev)) ==> c.input == evs[k].message.value.usage.value.input)
  {
    LastStartIs(evs, k);
    LastSetting(evs[k + 1..], InputOverride, SetsInput, u, evs[k].message.value.usage.value.input);
  }

  /** So are the tokens written to the cache. */
  lemma LastPositiveSetsCacheCreation(evs: seq<AnthropicEvent>, requestID: string, k: nat, u: nat)
    requires LastHere(evs, k, Starts)
    ensures AnthropicOutcome(evs, requestID).Add?
    ensures var c, deltas := AnthropicOutcome(evs, requestID).counts, evs[k + 1..];
      && (LastHere(deltas, u, SetsCacheCreation) ==> c.cacheCreation == deltas[u].usage.value.cacheCreation)
      && ((forall ev <- deltas :: !SetsCacheCreation(ev))
            ==> c.cacheCreation == evs[k].message.value.usage.value.cacheCreation)
  {
    LastStartIs(evs, k);
    LastSetting(evs[k + 1..], CacheCreationOverride, SetsCacheCreation, u,
                evs[k].message.value.usage.value.cacheCreation);
  }

  /** And those read from it. */
  lemma LastPositiveSetsCacheRead(evs: seq<AnthropicEvent>, requestID: string, k: nat, u: nat)
    requires LastHere(evs, k, Starts)
    ensures AnthropicOutcome(evs, requestID).Add?
    ensures var c, deltas := AnthropicOutcome(evs, requestID).counts, evs[k + 1..];
      && (LastHere(deltas, u, SetsCacheRead) ==> c.cacheRead == deltas[u].usage.value.cacheRead)
      && ((forall ev <- deltas :: !SetsCacheRead(ev)) ==> c.cacheRead == evs[k].message.value.usage.value.cacheRead)
  {
    LastStartIs(evs, k);
    LastSetting(evs[k + 1..], CacheReadOverride, SetsCacheRead, u, evs[k].message.value.usage.value.cacheRead);
  }

  class AnthropicStream {
    const decode: string -> Option<AnthropicEvent>
    const requestID: string
    var modelID: string
    var counts: AnthropicCounts
    var sawStart: bool

    constructor (decode: string -> Option<AnthropicEvent>, requestID: string)
      ensures this.decode == decode && this.requestID == requestID && State() == AnthropicFold([])
    {
      this.decode, this.requestID := decode, requestID;
      modelID, counts, sawStart := "", AnthropicCounts(0, 0, 0, 0), false;
    }

    function State(): AnthropicState
      reads this
    {
      AnthropicState(modelID, counts, sawStart)
    }

    method ApplyStart(ev: AnthropicEvent)
      modifies this
      ensures State() == AnthropicApplyStart(old(State()), ev)
    {
      if ev.message.None? {
        return;
      }
      if ev.message.value.model != "" {
        modelID := ev.message.value.model;
      }
      if ev.message.value.usage.None? {
        return;
      }
      counts := ev.message.value.usage.value;
      sawStart := true;
    }

    method ApplyDelta(ev: AnthropicEvent)
      modifies this`counts
      ensures State() == AnthropicApplyDelta(old(State()), ev)
    {
      if ev.usage.None? {
        return;
      }
      var u := ev.usage.value;
      counts := counts.(output := u.output);
      if u.input > 0 {
        counts := counts.(input := u.input);
      }
      if u.cacheCreation > 0 {
        counts := counts.(cacheCreation := u.cacheCreation);
      }
      if u.cacheRead > 0 {
        counts := counts.(cacheRead := u.cacheRead);
      }
    }

    method HandleLine(line: string, ghost seen: seq<string>)
      requires State() == AnthropicFold(EventsOf(seen, decode))
      modifies this
      ensures State() == AnthropicFold(EventsOf(seen + [line], decode))
    {
      EventsSnoc(seen, line, decode);
      var payload := Payload(line);
      if payload == None {
        return;
      }
      var ev := decode(payload.value);
      if ev == None {
        return;
      }
      if ev.value.ty == MessageStart {
        ApplyStart(ev.value);
      } else if ev.value.ty == MessageDelta {
        ApplyDelta(ev.value);
      }
      ghost var evs := EventsOf(seen, decode);
      assert (evs + [ev.value])[..|evs|] == evs;
    }

    /** The onLine calls of one scan, in order: the lines from that place on. */
    method HandleLines(lines: seq<string>, from: nat, ghost before: seq<string>)
      requires before <= lines && from == |before| && State() == AnthropicFold(EventsOf(before, decode))
      modifies this
      ensures State() == AnthropicFold(EventsOf(lines, decode))
    {
      assert lines[..from] == before;
      for k := from to |lines|
        invariant State() == AnthropicFold(EventsOf(lines[..k], decode))
      {
        HandleLine(lines[k], lines[..k]);
        TakeNext(lines, k);
      }
      assert lines[..|lines|] == lines;
    }

    method Flush(tracker: UsageTracker<AnthropicCounts>, ghost evs: seq<AnthropicEvent>)
      requires tracker.Valid() && State() == AnthropicFold(evs)
      modifies tracker
      ensures tracker.Valid() && tracker.calls == old(tracker.calls) + [AnthropicOutcome(evs, requestID)]
    {
      AnthropicOutcomeOf(evs, requestID);
      if !sawStart {
        tracker.AddDroppedNoUsageBlock();
        return;
      }
      tracker.Add(modelID, counts, requestID);
    }
  }

  // ---------------------------------------------------------------- one response, end to end

  /** The lines handed to the vendor by a body read in chunks, the last of which may be EOF. */
  function LinesSeen(body: string, sawEof: bool): seq<string> {
    if sawEof then BatchLines(body) else CompleteLines(body)
  }

  /** The reads of one body: io.EOF, if it comes at all, comes with the last. */
  predicate OneBody(cs: seq<Chunk>, sawEof: bool) {
    && (forall i :: 0 <= i < |cs| ==> (cs[i].eof <==> sawEof && i == |cs| - 1))
    && (sawEof ==> cs != [])
  }

  lemma ReadsSeen(cs: seq<Chunk>, sawEof: bool)
    requires OneBody(cs, sawEof)
    ensures AfterReads(FRESH, cs).delivered == LinesSeen(Bytes(cs), sawEof)
  {
    if sawEof {
      var init, last := cs[..|cs| - 1], cs[|cs| - 1];
      WholeBodyDelivered(init, last, 0);
      assert init + [last] + seq(0, _ => Chunk([], true)) == cs;
    } else {
      StreamingEqualsBatch(cs);
    }
  }

  /** The events of a body sent message by message, whether or not its end is seen. */
  lemma ServedMessages<E>(ms: seq<Message>, sawEof: bool, decode: string -> Option<E>)
    requires forall m <- ms :: Sendable(m)
    ensures EventsOf(LinesSeen(Body(ms), sawEof), decode) == Decoded(ms, decode)
  {
    BodyYieldsItsMessages(ms, decode);
  }

  lemma OnlyGrows(s: Scanner, c: Chunk)
    ensures s.delivered <= AfterRead(s, c).delivered
  {}

  lemma {:induction false} NeverFlushed(cs: seq<Chunk>)
    ensures !AfterReads(FRESH, cs).flushed
  {
    if cs != [] {
      NeverFlushed(cs[..|cs| - 1]);
    }
  }

  /** Reading a body: each Read scans, and each line found goes to the vendor at once. */
  method PumpOpenAi(body: SseInterceptor, state: OpenAiStream, cs: seq<Chunk>)
    requires body.State() == FRESH && state.State() == OpenAiFold([])
    modifies body, state
    ensures body.State() == AfterReads(FRESH, cs)
    ensures state.State() == OpenAiFold(EventsOf(body.delivered, state.decode))
  {
    for i := 0 to |cs|
      invariant body.State() == AfterReads(FRESH, cs[..i])
      invariant state.State() == OpenAiFold(EventsOf(body.delivered, state.decode))
    {
      assert cs[..i + 1][..i] == cs[..i];
      ghost var before := body.delivered;
      var n := |body.delivered|;
      OnlyGrows(body.State(), cs[i]);
      body.Read(cs[i]);
      state.HandleLines(body.delivered, n, before);
    }
    assert cs[..|cs|] == cs;
  }

  /** Closing a body some number of times: the first Close flushes, the others do nothing. */
  method FinishOpenAi(body: SseInterceptor, state: OpenAiStream, closes: nat,
                     tracker: UsageTracker<OpenAiCounts>, ghost evs: seq<OpenAiEvent>)
    requires !body.flushed && state.State() == OpenAiFold(evs) && tracker.Valid()
    modifies body, tracker
    ensures tracker.Valid()
    ensures tracker.calls == old(tracker.calls) + (if closes == 0 then [] else [OpenAiOutcome(evs, state.xRequestID)])
  {
    for i := 0 to closes
      invariant body.flushed <==> i > 0
      invariant tracker.Valid()
      invariant tracker.calls == old(tracker.calls) + (if i == 0 then [] else [OpenAiOutcome(evs, state.xRequestID)])
    {
      if !body.flushed {
        state.Flush(tracker, evs);
      }
      body.Close();
    }
  }

  /**
   * One response: whatever the chunking and however often the body is closed, the tracker
   * gets exactly one call, and it is the one the body's lines call for.
   */
  method ServeOpenAi(cs: seq<Chunk>, sawEof: bool, closes: nat, decode: string -> Option<OpenAiEvent>,
                     xRequestID: string, tracker: UsageTracker<OpenAiCounts>)
    requires OneBody(cs, sawEof) && tracker.Valid()
    modifies tracker
    ensures tracker.Valid()
    ensures tracker.calls == old(tracker.calls)
      + (if closes == 0 then [] else [OpenAiOutcome(EventsOf(LinesSeen(Bytes(cs), sawEof), decode), xRequestID)])
  {
    var body := new SseInterceptor();
    var state := new OpenAiStream(decode, xRequestID);
    PumpOpenAi(body, state, cs);
    ReadsSeen(cs, sawEof);
    NeverFlushed(cs);
    FinishOpenAi(body, state, closes, tracker, EventsOf(LinesSeen(Bytes(cs), sawEof), decode));
  }

  /** Reading a body: each Read scans, and each line found goes to the vendor at once. */
  method PumpAnthropic(body: SseInterceptor, state: AnthropicStream, cs: seq<Chunk>)
    requires body.State() == FRESH && state.State() == AnthropicFold([])
    modifies body, state
    ensures body.State() == AfterReads(FRESH, cs)
    ensures state.State() == AnthropicFold(EventsOf(body.delivered, state.decode))
  {
    for i := 0 to |cs|
      invariant body.State() == AfterReads(FRESH, cs[..i])
      invariant state.State() == AnthropicFold(EventsOf(body.delivered, state.decode))
    {
      assert cs[..i + 1][..i] == cs[..i];
      ghost var before := body.delivered;
      var n := |body.delivered|;
      OnlyGrows(body.State(), cs[i]);
      body.Read(cs[i]);
      state.HandleLines(body.delivered, n, before);
    }
    assert cs[..|cs|] == cs;
  }

  /** Closing a body some number of times: the first Close flushes, the others do nothing. */
  method FinishAnthropic(body: SseInterceptor, state: AnthropicStream, closes: nat,
                     tracker: UsageTracker<AnthropicCounts>, ghost evs: seq<AnthropicEvent>)
    requires !body.flushed && state.State() == AnthropicFold(evs) && tracker.Valid()
    modifies body, tracker
    ensures tracker.Valid()
    ensures tracker.calls == old(tracker.calls) + (if closes == 0 then [] else [AnthropicOutcome(evs, state.requestID)])
  {
    for i := 0 to closes
      invariant body.flushed <==> i > 0
      invariant tracker.Valid()
      invariant tracker.calls == old(tracker.calls) + (if i == 0 then [] else [AnthropicOutcome(evs, state.requestID)])
    {
      if !body.flushed {
        state.Flush(tracker, evs);
      }
      body.Close();
    }
  }

  /**
   * One response: whatever the chunking and however often the body is closed, the tracker
   * gets exactly one call, and it is the one the body's lines call for.
   */
  method ServeAnthropic(cs: seq<Chunk>, sawEof: bool, closes: nat, decode: string -> Option<AnthropicEvent>,
                     requestID: string, tracker: UsageTracker<AnthropicCounts>)
    requires OneBody(cs, sawEof) && tracker.Valid()
    modifies tracker
    ensures tracker.Valid()
    ensures tracker.calls == old(tracker.calls)
      + (if closes == 0 then [] else [AnthropicOutcome(EventsOf(LinesSeen(Bytes(cs), sawEof), decode), requestID)])
  {
    var body := new SseInterceptor();
    var state := new AnthropicStream(decode, requestID);
    PumpAnthropic(body, state, cs);
    ReadsSeen(cs, sawEof);
    NeverFlushed(cs);
    FinishAnthropic(body, state, closes, tracker, EventsOf(LinesSeen(Bytes(cs), sawEof), decode));
  }
}
