/** Model of eventcoalescer.go.  `State` and `Next` give the meaning of every
    mutex-protected region as one atomic step; class `Coalescer` is the code
    itself, proved against those steps. */
module EventCoalescer {
  import opened Common
  import opened GoTimers
  import WatcherKeys

  // ---------------------------------------------------------------- data model

  const MILLISECOND := 1_000_000
  const DEFAULT_FRAME := 16 * MILLISECOND
  const DEFAULT_BATCH := 500

  /** `name` is the metadata name the source digs out of the resource map, ""
      when the metadata is missing; `body` stands for the rest of the resource. */
  datatype ResourceEvent = ResourceEvent(kind: string, resourceType: string, namespace: string, name: string,
    body: string)

  /** What reaches the frontend: one event, or a batch of several. */
  datatype Emission = One(event: ResourceEvent) | Batch(events: seq<ResourceEvent>)

  type Buffer = map<string, ResourceEvent>

  /** `checking` and `flushing` count the FlushNow calls that are about to look
      at the buffer, respectively about to flush it. */
  datatype State = State(
    frameInterval: int,
    maxBatchSize: int,
    events: Buffer,
    timer: Option<nat>,
    pending: bool,
    timers: Timers<()>,
    out: seq<Emission>,
    checking: nat,
    flushing: nat)

  datatype Step =
    | Emit(event: ResourceEvent)
    | Expire(id: nat)
    | Fire(id: nat, order: seq<string>)
    | DrainStart
    | DrainCheck
    | DrainFlush(order: seq<string>)
    | Clear
    | SetFrameInterval(ms: int)
    | SetMaxBatchSize(n: int)

  function EventKey(e: ResourceEvent): string {
    WatcherKeys.EventKey(e.resourceType, e.namespace, e.name)
  }

  predicate IsDelete(e: ResourceEvent) {
    e.kind == "DELETED"
  }

  function Clamp(lo: int, hi: int, n: int): int {
    if n < lo then lo else if n > hi then hi else n
  }

  function Init(frameInterval: int): State {
    State(if frameInterval == 0 then DEFAULT_FRAME else frameInterval, DEFAULT_BATCH,
          map[], None, false, NoTimers(), [], 0, 0)
  }

  // ---------------------------------------------------------------- atomic steps

  function Arm(s: State): State {
    s.(pending := true, timer := Some(s.timers.next), timers := s.timers.AfterFunc(()))
  }

  function EmitStep(s: State, e: ResourceEvent): State {
    if s.frameInterval < MILLISECOND then
      s.(out := s.out + [One(e)])
    else if IsDelete(e) then
      s.(events := s.events - {EventKey(e)}, out := s.out + [One(e)])
    else
      var s' := s.(events := s.events[EventKey(e) := e]);
      if s'.pending then s' else Arm(s')
  }

  function BatchLimit(s: State): nat {
    if s.maxBatchSize > 0 && |s.events| > s.maxBatchSize then s.maxBatchSize else |s.events|
  }

  function KeySet(order: seq<string>): set<string> {
    set k | k in order
  }

  ghost predicate NoRepeats(order: seq<string>) {
    |KeySet(order)| == |order|
  }

  /** A possible outcome of ranging over the map up to the batch limit. */
  ghost predicate PossibleOrder(s: State, order: seq<string>) {
    |order| == BatchLimit(s) && NoRepeats(order) && KeySet(order) <= s.events.Keys
  }

  function Pick(buffer: Buffer, order: seq<string>): (batch: seq<ResourceEvent>)
    requires KeySet(order) <= buffer.Keys
    ensures |batch| == |order|
  {
    if order == [] then [] else
    assert order[0] in KeySet(order) && KeySet(order[1..]) <= KeySet(order);
    [buffer[order[0]]] + Pick(buffer, order[1..])
  }

  function Pack(batch: seq<ResourceEvent>): Emission {
    if |batch| == 1 then One(batch[0]) else Batch(batch)
  }

  ghost function FlushStep(s: State, order: seq<string>): State
    requires PossibleOrder(s, order)
  {
    if s.events == map[] then
      s.(pending := false)
    else
      var rest := s.(events := s.events - KeySet(order), out := s.out + [Pack(Pick(s.events, order))]);
      if rest.events != map[] then Arm(rest) else rest.(pending := false)
  }

  ghost predicate Enabled(s: State, step: Step) {
    match step
    case Expire(id) => id in s.timers.armed
    case Fire(id, order) => id in s.timers.due && PossibleOrder(s, order)
    case DrainCheck => s.checking > 0
    case DrainFlush(order) => s.flushing > 0 && PossibleOrder(s, order)
    case _ => true
  }

  ghost function Next(s: State, step: Step): State
    requires Enabled(s, step)
  {
    match step
    case Emit(e) => EmitStep(s, e)
    case Expire(id) => s.(timers := s.timers.Expire(id))
    case Fire(id, order) => FlushStep(s.(timers := s.timers.Begin(id)), order)
    case DrainStart => s.(timers := s.timers.Stop(s.timer), checking := s.checking + 1)
    case DrainCheck =>
      if s.events == map[] then s.(checking := s.checking - 1)
      else s.(checking := s.checking - 1, flushing := s.flushing + 1)
    case DrainFlush(order) => FlushStep(s.(flushing := s.flushing - 1, checking := s.checking + 1), order)
    case Clear => s.(timers := s.timers.Stop(s.timer), timer := None, events := map[], pending := false)
    case SetFrameInterval(ms) => s.(frameInterval := Clamp(1, 100, ms) * MILLISECOND)
    case SetMaxBatchSize(n) => s.(maxBatchSize := Clamp(50, 5000, n))
  }

  // ---------------------------------------------------------------- runs

  ghost predicate Feasible(s: State, steps: seq<Step>)
    decreases |steps|
  {
    steps == [] || (Enabled(s, steps[0]) && Feasible(Next(s, steps[0]), steps[1..]))
  }

  ghost function Exec(s: State, steps: seq<Step>): State
    requires Feasible(s, steps)
    decreases |steps|
  {
    if steps == [] then s else Exec(Next(s, steps[0]), steps[1..])
  }

  /** The events handed to Emit, in order. */
  ghost function Inputs(steps: seq<Step>): seq<ResourceEvent>
    decreases |steps|
  {
    if steps == [] then []
    else (if steps[0].Emit? then [steps[0].event] else []) + Inputs(steps[1..])
  }

  ghost predicate Buffered(s: State) {
    && (forall k | k in s.events :: EventKey(s.events[k]) == k && !IsDelete(s.events[k]))
    && (s.frameInterval < MILLISECOND ==> s.events == map[] && !s.pending)
    && 50 <= s.maxBatchSize <= 5000
    && s.timers.Valid()
  }

  lemma InitBuffered(frameInterval: int)
    ensures Buffered(Init(frameInterval)) && WakeUp(Init(frameInterval))
  {
  }

  lemma EmitKeepsBuffered(s: State, e: ResourceEvent)
    requires Buffered(s)
    ensures Buffered(Next(s, Emit(e)))
  {
  }

  lemma FlushKeepsBuffered(s: State, order: seq<string>)
    requires Buffered(s) && PossibleOrder(s, order)
    ensures Buffered(FlushStep(s, order))
  {
  }

  lemma NextKeepsBuffered(s: State, step: Step)
    requires Buffered(s) && Enabled(s, step)
    ensures Buffered(Next(s, step))
  {
    match step
    case Emit(e) => EmitKeepsBuffered(s, e);
    case Fire(t, order) => FlushKeepsBuffered(s.(timers := s.timers.Begin(t)), order);
    case DrainFlush(order) => FlushKeepsBuffered(s.(flushing := s.flushing - 1, checking := s.checking + 1), order);
    case _ =>
  }

  // ---------------------------------------------------------------- what the frontend shows

  /** ADDED and MODIFIED upsert, DELETED removes. */
  function Apply(ui: Buffer, e: ResourceEvent): Buffer {
    if IsDelete(e) then ui - {EventKey(e)} else ui[EventKey(e) := e]
  }

  function ApplyAll(ui: Buffer, es: seq<ResourceEvent>): Buffer
    decreases |es|
  {
    if es == [] then ui else ApplyAll(Apply(ui, es[0]), es[1..])
  }

  function Contents(e: Emission): seq<ResourceEvent> {
    match e case One(x) => [x] case Batch(xs) => xs
  }

  function Flat(out: seq<Emission>): seq<ResourceEvent>
    decreases |out|
  {
    if out == [] then [] else Flat(out[..|out| - 1]) + Contents(out[|out| - 1])
  }

  function Ui(s: State): Buffer {
    ApplyAll(map[], Flat(s.out))
  }

  /** The frontend's resources overlaid with what is still buffered. */
  function Shown(s: State): Buffer {
    Ui(s) + s.events
  }

  lemma {:induction false} ApplyAllConcat(ui: Buffer, a: seq<ResourceEvent>, b: seq<ResourceEvent>)
    ensures ApplyAll(ui, a + b) == ApplyAll(ApplyAll(ui, a), b)
    decreases |a|
  {
    if a == [] {
      assert a + b == b;
    } else {
      assert (a + b)[1..] == a[1..] + b;
      ApplyAllConcat(Apply(ui, a[0]), a[1..], b);
    }
  }

  lemma UiAfterEmission(s: State, e: Emission, s': State)
    requires s'.out == s.out + [e]
    ensures Ui(s') == ApplyAll(Ui(s), Contents(e))
  {
    assert s'.out[..|s'.out| - 1] == s.out;
    ApplyAllConcat(map[], Flat(s.out), Contents(e));
  }

  function Chosen(buffer: Buffer, order: seq<string>): Buffer {
    map k | k in order && k in buffer :: buffer[k]
  }

  lemma ChosenCons(ui: Buffer, buffer: Buffer, order: seq<string>)
    requires order != [] && order[0] in buffer
    ensures ui[order[0] := buffer[order[0]]] + Chosen(buffer, order[1..]) == ui + Chosen(buffer, order)
  {
  }

  /** Sending a batch of buffered events upserts exactly the chosen keys,
      whatever their order. */
  lemma {:induction false} ApplyPicked(ui: Buffer, buffer: Buffer, order: seq<string>)
    requires forall k | k in buffer :: EventKey(buffer[k]) == k && !IsDelete(buffer[k])
    requires KeySet(order) <= buffer.Keys
    ensures ApplyAll(ui, Pick(buffer, order)) == ui + Chosen(buffer, order)
    decreases |order|
  {
    if order == [] {
      assert ui + Chosen(buffer, order) == ui;
    } else {
      var k, rest := order[0], order[1..];
      assert k in KeySet(order) && KeySet(rest) <= KeySet(order);
      assert Pick(buffer, order) == [buffer[k]] + Pick(buffer, rest);
      ApplyPicked(ui[k := buffer[k]], buffer, rest);
      ChosenCons(ui, buffer, order);
    }
  }

  // ---------------------------------------------------------------- coalescing refines direct emission

  lemma OverlayOfChosen(ui: Buffer, buffer: Buffer, order: seq<string>)
    ensures (ui + Chosen(buffer, order)) + (buffer - KeySet(order)) == ui + buffer
  {
  }

  lemma FlushKeepsShown(s: State, order: seq<string>)
    requires Buffered(s) && PossibleOrder(s, order)
    ensures Shown(FlushStep(s, order)) == Shown(s)
  {
    if s.events != map[] {
      FlushSendsChosen(s, order);
      OverlayOfChosen(Ui(s), s.events, order);
    }
  }

  lemma FlushSendsChosen(s: State, order: seq<string>)
    requires Buffered(s) && PossibleOrder(s, order) && s.events != map[]
    ensures var s' := FlushStep(s, order);
      Ui(s') == Ui(s) + Chosen(s.events, order) && s'.events == s.events - KeySet(order)
  {
    UiAfterEmission(s, Pack(Pick(s.events, order)), FlushStep(s, order));
    ApplyPicked(Ui(s), s.events, order);
  }

  lemma SentDirectly(s: State, e: ResourceEvent, s': State)
    requires s'.out == s.out + [One(e)]
    ensures Ui(s') == Apply(Ui(s), e)
  {
    UiAfterEmission(s, One(e), s');
    assert [e][1..] == [];
    assert ApplyAll(Ui(s), [e]) == Apply(Ui(s), e);
  }

  lemma OverlayUpsert(ui: Buffer, buffer: Buffer, k: string, e: ResourceEvent)
    ensures ui + buffer[k := e] == (ui + buffer)[k := e]
    ensures (ui - {k}) + (buffer - {k}) == (ui + buffer) - {k}
  {
  }

  lemma EmitRefinesDirect(s: State, e: ResourceEvent)
    requires Buffered(s)
    ensures Shown(EmitStep(s, e)) == Apply(Shown(s), e)
  {
    OverlayUpsert(Ui(s), s.events, EventKey(e), e);
    if s.frameInterval < MILLISECOND || IsDelete(e) {
      SentDirectly(s, e, EmitStep(s, e));
    } else {
      assert EmitStep(s, e).out == s.out;
    }
  }

  lemma QuietSteps(s: State, step: Step)
    requires Enabled(s, step)
    requires step.Expire? || step.DrainStart? || step.DrainCheck? || step.SetFrameInterval? || step.SetMaxBatchSize?
    ensures Next(s, step).out == s.out && Next(s, step).events == s.events
  {
  }

  lemma OtherStepsKeepShown(s: State, step: Step)
    requires Buffered(s) && Enabled(s, step) && !step.Clear? && !step.Emit?
    ensures Shown(Next(s, step)) == Shown(s)
  {
    if step.Fire? {
      var t := s.(timers := s.timers.Begin(step.id));
      FlushKeepsShown(t, step.order);
      assert t.out == s.out && t.events == s.events;
    } else if step.DrainFlush? {
      var t := s.(flushing := s.flushing - 1, checking := s.checking + 1);
      FlushKeepsShown(t, step.order);
      assert t.out == s.out && t.events == s.events;
    } else {
      QuietSteps(s, step);
    }
  }

  lemma NextRefinesDirect(s: State, step: Step)
    requires Buffered(s) && Enabled(s, step) && !step.Clear?
    ensures Shown(Next(s, step)) == ApplyAll(Shown(s), Inputs([step]))
  {
    assert [step][1..] == [];
    if step.Emit? {
      EmitRefinesDirect(s, step.event);
      assert Inputs([step]) == [step.event] && [step.event][1..] == [];
    } else {
      OtherStepsKeepShown(s, step);
      assert Inputs([step]) == [];
    }
  }

  lemma ShownWithEmptyBuffer(s: State)
    ensures s.events == map[] ==> Shown(s) == Ui(s)
  {
    if s.events == map[] { assert Ui(s) + map[] == Ui(s); }
  }

  lemma InputsCons(steps: seq<Step>)
    requires steps != []
    ensures Inputs(steps) == Inputs([steps[0]]) + Inputs(steps[1..])
  {
    assert [steps[0]][1..] == [];
  }

  /** Main result: in every interleaving of Emit, timer flushes, FlushNow and the
      setters, what the frontend shows overlaid with the buffer is what it would
      show had every event been sent directly and at once. */
  lemma {:induction false} CoalescingRefinesDirectEmission(s: State, steps: seq<Step>)
    requires Buffered(s) && Feasible(s, steps)
    requires forall step | step in steps :: !step.Clear?
    ensures Buffered(Exec(s, steps))
    ensures Shown(Exec(s, steps)) == ApplyAll(Shown(s), Inputs(steps))
    ensures Exec(s, steps).events == map[] ==> Ui(Exec(s, steps)) == ApplyAll(Shown(s), Inputs(steps))
    decreases |steps|
  {
    if steps != [] {
      var s' := Next(s, steps[0]);
      assert !steps[0].Clear?;
      NextKeepsBuffered(s, steps[0]);
      NextRefinesDirect(s, steps[0]);
      CoalescingRefinesDirectEmission(s', steps[1..]);
      InputsCons(steps);
      ApplyAllConcat(Shown(s), Inputs([steps[0]]), Inputs(steps[1..]));
    }
    ShownWithEmptyBuffer(Exec(s, steps));
  }

  /** Clear forgets the buffer: what is shown falls back to what was already sent. */
  lemma ClearForgetsBuffer(s: State)
    ensures Shown(Next(s, Clear)) == Ui(s) == Ui(Next(s, Clear))
  {
  }

  ghost predicate Gone(s: State, key: string) {
    key !in Ui(s) && key !in s.events
  }

  lemma {:induction false} ApplyAllKeepsAbsent(ui: Buffer, es: seq<ResourceEvent>, key: string)
    requires key !in ui && forall e | e in es :: EventKey(e) != key
    ensures key !in ApplyAll(ui, es)
    decreases |es|
  {
    if es != [] {
      ApplyAllKeepsAbsent(Apply(ui, es[0]), es[1..], key);
    }
  }

  lemma NextKeepsGone(s: State, step: Step, key: string)
    requires Buffered(s) && Enabled(s, step) && Gone(s, key)
    requires step.Emit? ==> EventKey(step.event) != key
    ensures Gone(Next(s, step), key)
  {
    if !step.Clear? {
      assert [step][1..] == [];
      NextRefinesDirect(s, step);
      ApplyAllKeepsAbsent(Shown(s), Inputs([step]), key);
      assert key !in Shown(Next(s, step));
    }
  }

  /** A deleted resource does not come back: after DELETED, and until somebody
      emits an event for that key again, no interleaving of stale timers, drains
      or clears shows it or buffers it. */
  lemma {:induction false} DeletedStaysGone(s: State, deleted: ResourceEvent, steps: seq<Step>)
    requires Buffered(s) && IsDelete(deleted)
    requires Feasible(Next(s, Emit(deleted)), steps)
    requires forall step | step in steps && step.Emit? :: EventKey(step.event) != EventKey(deleted)
    ensures Gone(Exec(Next(s, Emit(deleted)), steps), EventKey(deleted))
  {
    var s' := Next(s, Emit(deleted));
    NextKeepsBuffered(s, Emit(deleted));
    SentDirectly(s, deleted, s');
    GoneStaysGone(s', EventKey(deleted), steps);
  }

  lemma {:induction false} GoneStaysGone(s: State, key: string, steps: seq<Step>)
    requires Buffered(s) && Gone(s, key) && Feasible(s, steps)
    requires forall step | step in steps && step.Emit? :: EventKey(step.event) != key
    ensures Gone(Exec(s, steps), key)
    decreases |steps|
  {
    if steps != [] {
      NextKeepsGone(s, steps[0], key);
      NextKeepsBuffered(s, steps[0]);
      GoneStaysGone(Next(s, steps[0]), key, steps[1..]);
    }
  }

  // ---------------------------------------------------------------- the wake-up protocol

  ghost predicate WillWake(s: State) {
    s.timers.Live() != {} || s.checking + s.flushing > 0
  }

  ghost predicate WakeUp(s: State) {
    && (s.pending ==> WillWake(s))
    && (s.events != map[] ==> s.pending)
  }

  /** The one bad step: the last FlushNow in progress finds the buffer empty
      while `pending` is set and it has itself stopped the only timer. */
  ghost predicate Strands(s: State, step: Step) {
    && step.DrainCheck?
    && s.events == map[]
    && s.pending
    && s.timers.Live() == {}
    && s.checking + s.flushing == 1
  }

  lemma NextKeepsWakeUp(s: State, step: Step)
    requires Buffered(s) && WakeUp(s) && Enabled(s, step)
    ensures WakeUp(Next(s, step)) <==> !Strands(s, step)
  {
    var s' := Next(s, step);
    if (s'.pending && !s.pending) || step.Fire? || step.DrainFlush? {
      if s'.pending { assert s'.timers.next - 1 in s'.timers.Live(); }
    }
    match step
    case Emit(e) =>
      if s.pending { assert s'.timers == s.timers; }
    case Expire(id) => assert id in s'.timers.Live();
    case _ =>
  }

  ghost predicate NeverStrands(s: State, steps: seq<Step>)
    requires Feasible(s, steps)
    decreases |steps|
  {
    steps == [] || (!Strands(s, steps[0]) && NeverStrands(Next(s, steps[0]), steps[1..]))
  }

  /** Main result: in every run, the wake-up invariant holds at the end provided
      no step was the stranding one.  A buffered event then has `pending` set and
      a live timer or a FlushNow that is still going to look at the buffer. */
  lemma {:induction false} NoStrandedEvent(s: State, steps: seq<Step>)
    requires Buffered(s) && WakeUp(s) && Feasible(s, steps) && NeverStrands(s, steps)
    ensures Buffered(Exec(s, steps)) && WakeUp(Exec(s, steps))
    decreases |steps|
  {
    if steps != [] {
      NextKeepsBuffered(s, steps[0]);
      NextKeepsWakeUp(s, steps[0]);
      NoStrandedEvent(Next(s, steps[0]), steps[1..]);
    }
  }

  /** The main results from the start of a coalescer. */
  lemma EveryRunFromTheStart(frameInterval: int, steps: seq<Step>)
    requires Feasible(Init(frameInterval), steps)
    ensures (forall step | step in steps :: !step.Clear?) ==>
      var s := Exec(Init(frameInterval), steps);
      Buffered(s) && Shown(s) == ApplyAll(map[], Inputs(steps))
    ensures NeverStrands(Init(frameInterval), steps) ==> WakeUp(Exec(Init(frameInterval), steps))
  {
    var s0 := Init(frameInterval);
    InitBuffered(frameInterval);
    if forall step | step in steps :: !step.Clear? {
      CoalescingRefinesDirectEmission(s0, steps);
      assert Shown(s0) == map[];
    }
    if NeverStrands(s0, steps) {
      NoStrandedEvent(s0, steps);
    }
  }

  ghost predicate IsDrain(step: Step) {
    step.DrainStart? || step.DrainCheck? || step.DrainFlush?
  }

  /** Without FlushNow every run keeps a timer for every buffered event. */
  lemma {:induction false} TimersAloneNeverStrand(s: State, steps: seq<Step>)
    requires Buffered(s) && WakeUp(s) && Feasible(s, steps)
    requires s.checking == s.flushing == 0
    requires forall step | step in steps :: !IsDrain(step)
    ensures var s' := Exec(s, steps);
      WakeUp(s') && (s'.events != map[] ==> s'.pending && s'.timers.Live() != {})
    decreases |steps|
  {
    if steps != [] {
      NextKeepsBuffered(s, steps[0]);
      NextKeepsWakeUp(s, steps[0]);
      assert !IsDrain(steps[0]);
      TimersAloneNeverStrand(Next(s, steps[0]), steps[1..]);
    }
  }

  /** `pending` is set but nothing will ever call flush. */
  ghost predicate Starved(s: State) {
    s.pending && !WillWake(s)
  }

  lemma NextKeepsStarved(s: State, step: Step)
    requires Buffered(s) && Starved(s) && Enabled(s, step) && !step.Clear? && !step.DrainStart?
    ensures Starved(Next(s, step))
    ensures Next(s, step).out == s.out
         || (step.Emit? && IsDelete(step.event) && Next(s, step).out == s.out + [One(step.event)])
    ensures step.Emit? && !IsDelete(step.event) ==> EventKey(step.event) in Next(s, step).events
    ensures forall k | k in s.events && !(step.Emit? && IsDelete(step.event) && EventKey(step.event) == k) ::
      k in Next(s, step).events
  {
  }

  /** Once starved, only Clear or another FlushNow helps: any number of further
      ADDED or MODIFIED events are buffered and none is ever sent. */
  lemma {:induction false} StarvedBuffersForever(s: State, steps: seq<Step>)
    requires Buffered(s) && Starved(s) && Feasible(s, steps)
    requires forall step | step in steps :: !step.Clear? && !step.DrainStart?
    requires forall step | step in steps && step.Emit? :: !IsDelete(step.event)
    ensures var s' := Exec(s, steps);
      && Starved(s') && s'.out == s.out
      && s.events.Keys <= s'.events.Keys
      && (forall e | e in Inputs(steps) :: EventKey(e) in s'.events)
    decreases |steps|
  {
    if steps != [] {
      NextKeepsBuffered(s, steps[0]);
      NextKeepsStarved(s, steps[0]);
      StarvedBuffersForever(Next(s, steps[0]), steps[1..]);
    }
  }

  /** The stranding step is reachable: ADDED x, DELETED x, FlushNow.  The next
      ADDED y arms nothing and stays in the buffer. */
  lemma StrandingRun(x: ResourceEvent, y: ResourceEvent)
    requires x.kind == "ADDED" && y.kind == "ADDED"
    ensures var steps := [Emit(x), Emit(x.(kind := "DELETED")), DrainStart, DrainCheck, Emit(y)];
      && Feasible(Init(0), steps)
      && Starved(Exec(Init(0), steps))
      && Exec(Init(0), steps).events == map[EventKey(y) := y]
      && !WakeUp(Exec(Init(0), steps))
  {
    var d := x.(kind := "DELETED");
    var s0 := Init(0);
    var s1 := Next(s0, Emit(x));
    var s2 := Next(s1, Emit(d));
    var s3 := Next(s2, DrainStart);
    var s4 := Next(s3, DrainCheck);
    var s5 := Next(s4, Emit(y));
    assert EventKey(d) == EventKey(x);
    assert s1.timers.armed == map[0 := ()];
    assert s2.events == map[];
    assert s3.timers.armed == map[];
    assert Strands(s3, DrainCheck);
    assert s5.events == map[EventKey(y) := y];
    assert Feasible(s5, []) && Exec(s5, []) == s5;
    assert [Emit(y)][1..] == [];
    assert Feasible(s4, [Emit(y)]) && Exec(s4, [Emit(y)]) == s5;
    assert [DrainCheck, Emit(y)][1..] == [Emit(y)];
    assert Feasible(s3, [DrainCheck, Emit(y)]) && Exec(s3, [DrainCheck, Emit(y)]) == s5;
    assert [DrainStart, DrainCheck, Emit(y)][1..] == [DrainCheck, Emit(y)];
    assert Feasible(s2, [DrainStart, DrainCheck, Emit(y)]) && Exec(s2, [DrainStart, DrainCheck, Emit(y)]) == s5;
    assert [Emit(d), DrainStart, DrainCheck, Emit(y)][1..] == [DrainStart, DrainCheck, Emit(y)];
    assert Feasible(s1, [Emit(d), DrainStart, DrainCheck, Emit(y)])
      && Exec(s1, [Emit(d), DrainStart, DrainCheck, Emit(y)]) == s5;
    var steps := [Emit(x), Emit(d), DrainStart, DrainCheck, Emit(y)];
    assert steps[1..] == [Emit(d), DrainStart, DrainCheck, Emit(y)];
  }

  // ---------------------------------------------------------------- the code

  lemma {:induction false} ExecAppend(s: State, steps: seq<Step>, step: Step)
    requires Feasible(s, steps) && Enabled(Exec(s, steps), step)
    ensures Feasible(s, steps + [step])
    ensures Exec(s, steps + [step]) == Next(Exec(s, steps), step)
    decreases |steps|
  {
    if steps == [] {
      assert steps + [step] == [step] && [step][1..] == [];
    } else {
      assert (steps + [step])[1..] == steps[1..] + [step];
      ExecAppend(Next(s, steps[0]), steps[1..], step);
    }
  }

  /** Some run leads from s to s'. */
  ghost predicate Reaches(s: State, s': State) {
    exists steps :: Feasible(s, steps) && Exec(s, steps) == s'
  }

  lemma ReachesNext(s: State, s': State, step: Step)
    requires Reaches(s, s') && Enabled(s', step)
    ensures Reaches(s, Next(s', step))
  {
    var steps :| Feasible(s, steps) && Exec(s, steps) == s';
    ExecAppend(s, steps, step);
  }

  /** q batches of d events. */
  ghost function Full(q: nat, d: nat): nat {
    if q == 0 then 0 else Full(q - 1, d) + d
  }

  /** q batches of at most d events hold n events, and fewer batches do not. */
  ghost predicate FewestBatches(q: nat, n: nat, d: nat) {
    n <= Full(q, d) && (q > 0 ==> Full(q - 1, d) < n)
  }

  lemma {:induction false} FullIsProduct(q: nat, d: nat)
    ensures Full(q, d) == q * d
  {
    if q > 0 {
      FullIsProduct(q - 1, d);
      assert q * d == (q - 1) * d + d;
    }
  }

  /** The number of batches is the quotient rounded up. */
  lemma FewestBatchesIsCeiling(q: nat, n: nat, d: nat)
    requires d > 0
    ensures FewestBatches(q, n, d) <==> q * d - d < n <= q * d
  {
    FullIsProduct(q, d);
    if q > 0 {
      FullIsProduct(q - 1, d);
      assert q * d == (q - 1) * d + d;
    }
  }

  /** The keys sent so far, `keys`, and `buffer` split `all` between them. */
  ghost predicate Sent(keys: seq<string>, all: Buffer, buffer: Buffer) {
    NoRepeats(keys) && KeySet(keys) <= all.Keys && buffer == all - KeySet(keys)
  }

  lemma KeySetConcat(a: seq<string>, b: seq<string>)
    ensures KeySet(a + b) == KeySet(a) + KeySet(b)
  {
  }

  lemma {:induction false} PickConcat(buffer: Buffer, a: seq<string>, b: seq<string>)
    requires KeySet(a) <= buffer.Keys && KeySet(b) <= buffer.Keys
    ensures KeySet(a + b) <= buffer.Keys
    ensures Pick(buffer, a + b) == Pick(buffer, a) + Pick(buffer, b)
    decreases |a|
  {
    KeySetConcat(a, b);
    if a == [] {
      assert a + b == b;
    } else {
      assert a[0] in KeySet(a) && KeySet(a[1..]) <= KeySet(a);
      assert (a + b)[0] == a[0] && (a + b)[1..] == a[1..] + b;
      PickConcat(buffer, a[1..], b);
    }
  }

  lemma {:induction false} PickFromPart(all: Buffer, buffer: Buffer, order: seq<string>)
    requires KeySet(order) <= buffer.Keys && buffer.Keys <= all.Keys
    requires forall k | k in buffer :: buffer[k] == all[k]
    ensures Pick(buffer, order) == Pick(all, order)
    decreases |order|
  {
    if order != [] {
      assert order[0] in KeySet(order) && KeySet(order[1..]) <= KeySet(order);
      PickFromPart(all, buffer, order[1..]);
    }
  }

  lemma SentMore(all: Buffer, buffer: Buffer, order: seq<string>, keys: seq<string>)
    requires Sent(keys, all, buffer) && NoRepeats(order) && KeySet(order) <= buffer.Keys
    ensures Sent(keys + order, all, buffer - KeySet(order))
    ensures |buffer| == |buffer - KeySet(order)| + |order|
  {
    KeySetConcat(keys, order);
    assert KeySet(keys) !! KeySet(order);
    assert (buffer - KeySet(order)).Keys == buffer.Keys - KeySet(order);
    assert buffer - KeySet(order) == all - KeySet(keys + order);
  }

  /** FlushNow's progress on the data: `keys` have been sent in `flushes` rounds. */
  ghost predicate Drained(s0: State, s: State, keys: seq<string>, flushes: nat) {
    && Sent(keys, s0.events, s.events)
    && SentIn(s0, s.out, keys, flushes)
    && Counted(s0, |s.events|, flushes)
  }

  ghost predicate SentIn(s0: State, out: seq<Emission>, keys: seq<string>, flushes: nat) {
    && s0.out <= out && |out| == |s0.out| + flushes
    && KeySet(keys) <= s0.events.Keys
    && Flat(out) == Flat(s0.out) + Pick(s0.events, keys)
  }

  ghost predicate Counted(s0: State, left: nat, flushes: nat) {
    s0.maxBatchSize > 0 &&
    if left == 0 then FewestBatches(flushes, |s0.events|, s0.maxBatchSize)
    else left + Full(flushes, s0.maxBatchSize) == |s0.events|
  }

  lemma CountMore(s0: State, left: nat, flushes: nat, taken: nat)
    requires left > 0 && Counted(s0, left, flushes)
    requires taken == if left > s0.maxBatchSize then s0.maxBatchSize else left
    ensures Counted(s0, left - taken, flushes + 1)
  {
  }

  lemma PickSnoc(buffer: Buffer, keys: seq<string>, k: string)
    requires KeySet(keys) <= buffer.Keys && k in buffer && k !in KeySet(keys) && NoRepeats(keys)
    ensures KeySet(keys + [k]) == KeySet(keys) + {k} && NoRepeats(keys + [k])
    ensures Pick(buffer, keys + [k]) == Pick(buffer, keys) + [buffer[k]]
  {
    assert KeySet([k]) == {k} && [k][1..] == [];
    KeySetConcat(keys, [k]);
    PickConcat(buffer, keys, [k]);
  }

  lemma FlatAppend(out: seq<Emission>, batch: seq<ResourceEvent>)
    ensures Flat(out + [Pack(batch)]) == Flat(out) + batch
  {
    assert (out + [Pack(batch)])[..|out|] == out;
  }

  lemma SendMore(s0: State, buffer: Buffer, out: seq<Emission>, keys: seq<string>, flushes: nat, order: seq<string>)
    requires SentIn(s0, out, keys, flushes)
    requires Sent(keys, s0.events, buffer) && KeySet(order) <= buffer.Keys
    ensures SentIn(s0, out + [Pack(Pick(buffer, order))], keys + order, flushes + 1)
  {
    PickFromPart(s0.events, buffer, order);
    PickConcat(s0.events, keys, order);
    FlatAppend(out, Pick(buffer, order));
    ConcatAssoc(Flat(s0.out), Pick(s0.events, keys), Pick(buffer, order));
  }

  lemma DrainedMore(s0: State, s: State, keys: seq<string>, flushes: nat, order: seq<string>)
    requires Drained(s0, s, keys, flushes)
    requires s.maxBatchSize == s0.maxBatchSize > 0
    requires PossibleOrder(s, order) && s.events != map[]
    ensures Drained(s0, FlushStep(s, order), keys + order, flushes + 1)
    ensures |FlushStep(s, order).events| < |s.events|
  {
    SentMore(s0.events, s.events, order, keys);
    SendMore(s0, s.events, s.out, keys, flushes, order);
    CountMore(s0, |s.events|, flushes, |order|);
  }

  /** FlushNow's progress as a run. */
  ghost predicate Draining(s0: State, s: State, flushes: nat) {
    && Reaches(s0, s)
    && s.checking == s0.checking + 1 && s.flushing == s0.flushing
    && s.maxBatchSize == s0.maxBatchSize
    && (flushes == 0 ==> s.events == s0.events && s.pending == s0.pending && s.timers == s0.timers.Stop(s0.timer))
    && (flushes > 0 ==> s0.events != map[] && (s.events == map[] ==> !s.pending))
  }

  lemma DrainingStarts(s0: State)
    requires s0.maxBatchSize > 0
    ensures Draining(s0, Next(s0, DrainStart), 0)
    ensures Drained(s0, Next(s0, DrainStart), [], 0)
  {
    assert Feasible(s0, []) && Exec(s0, []) == s0;
    ReachesNext(s0, s0, DrainStart);
    assert s0.events - KeySet([]) == s0.events;
  }

  lemma DrainingMore(s0: State, s: State, flushes: nat, order: seq<string>)
    requires Draining(s0, s, flushes) && s.events != map[] && PossibleOrder(s, order)
    ensures Draining(s0, FlushStep(s, order), flushes + 1)
  {
    ReachesNext(s0, s, DrainCheck);
    var s1 := Next(s, DrainCheck);
    ReachesNext(s0, s1, DrainFlush(order));
    assert Next(s1, DrainFlush(order)) == FlushStep(s, order);
  }

  function Joined(orders: seq<seq<string>>): seq<string>
    decreases |orders|
  {
    if orders == [] then [] else Joined(orders[..|orders| - 1]) + orders[|orders| - 1]
  }

  /** The rounds of FlushNow's loop lead from one state to the other. */
  ghost predicate Rounds(s: State, orders: seq<seq<string>>, s': State)
    decreases |orders|
  {
    if orders == [] then s == s'
    else
      var order := orders[|orders| - 1];
      exists m :: Rounds(s, orders[..|orders| - 1], m)
        && m.events != map[] && PossibleOrder(m, order) && s' == FlushStep(m, order)
  }

  lemma OneMoreRound(s: State, orders: seq<seq<string>>, m: State, order: seq<string>)
    requires Rounds(s, orders, m) && m.events != map[] && PossibleOrder(m, order)
    ensures Rounds(s, orders + [order], FlushStep(m, order))
    ensures |FlushStep(m, order).events| < |m.events|
  {
    assert (orders + [order])[..|orders|] == orders;
    assert m.events - {} == m.events && KeySet([]) == {};
    SentMore(m.events, m.events, order, []);
  }

  lemma {:induction false} RoundsDrain(s0: State, orders: seq<seq<string>>, s: State)
    requires s0.maxBatchSize > 0 && Rounds(Next(s0, DrainStart), orders, s)
    ensures Draining(s0, s, |orders|) && Drained(s0, s, Joined(orders), |orders|)
    decreases |orders|
  {
    if orders == [] {
      DrainingStarts(s0);
    } else {
      var before, order := orders[..|orders| - 1], orders[|orders| - 1];
      var m :| Rounds(Next(s0, DrainStart), before, m)
        && m.events != map[] && PossibleOrder(m, order) && s == FlushStep(m, order);
      RoundsDrain(s0, before, m);
      DrainedMore(s0, m, Joined(before), |before|, order);
      DrainingMore(s0, m, |before|, order);
    }
  }

  lemma DrainedAll(s0: State, s: State, keys: seq<string>, flushes: nat)
    requires Drained(s0, s, keys, flushes) && s.events == map[]
    ensures NoRepeats(keys) && KeySet(keys) == s0.events.Keys
    ensures Flat(s.out) == Flat(s0.out) + Pick(s0.events, keys)
    ensures s0.out <= s.out && |s.out| == |s0.out| + flushes
    ensures s0.maxBatchSize > 0 && FewestBatches(flushes, |s0.events|, s0.maxBatchSize)
  {
    assert s0.events.Keys - KeySet(keys) == (s0.events - KeySet(keys)).Keys;
  }

  /** What a whole FlushNow has sent: every buffered event exactly once, in the least
      number of batches. */
  ghost predicate SentAll(s0: State, s: State, keys: seq<string>, flushes: nat) {
    && s.events == map[] && NoRepeats(keys) && KeySet(keys) == s0.events.Keys
    && Flat(s.out) == Flat(s0.out) + Pick(s0.events, keys)
    && s0.out <= s.out && |s.out| == |s0.out| + flushes
    && s0.maxBatchSize > 0 && FewestBatches(flushes, |s0.events|, s0.maxBatchSize)
  }

  lemma WholeDrainSends(s0: State, orders: seq<seq<string>>, s: State)
    requires s0.maxBatchSize > 0 && Rounds(Next(s0, DrainStart), orders, s) && s.events == map[]
    ensures s.checking > 0 && Reaches(s0, Next(s, DrainCheck))
    ensures SentAll(s0, Next(s, DrainCheck), Joined(orders), |orders|)
  {
    RoundsDrain(s0, orders, s);
    DrainedAll(s0, s, Joined(orders), |orders|);
    ReachesNext(s0, s, DrainCheck);
  }

  /** A FlushNow that starts with an empty buffer, `pending` set and no timer but the
      one it stops. */
  ghost predicate DrainStrands(s: State) {
    s.events == map[] && s.pending && s.timers.Stop(s.timer).Live() == {}
  }

  lemma WholeDrainKeepsWakeUp(s0: State, orders: seq<seq<string>>, s: State)
    requires s0.maxBatchSize > 0 && Rounds(Next(s0, DrainStart), orders, s) && s.events == map[]
    ensures s.checking > 0
    ensures WakeUp(s0) && s0.checking + s0.flushing == 0 ==> (WakeUp(Next(s, DrainCheck)) <==> !DrainStrands(s0))
  {
    RoundsDrain(s0, orders, s);
    DrainEndKeepsWakeUp(s0, s, |orders|);
  }

  lemma DrainEndKeepsWakeUp(s0: State, s: State, flushes: nat)
    requires Draining(s0, s, flushes) && s.events == map[]
    ensures s.checking > 0
    ensures WakeUp(s0) && s0.checking + s0.flushing == 0 ==> (WakeUp(Next(s, DrainCheck)) <==> !DrainStrands(s0))
  {
  }

  /** Ranging over the buffer: these keys have been picked, those are unseen. */
  ghost predicate Picked(buffer: Buffer, keys: seq<string>, unseen: set<string>, batch: seq<ResourceEvent>) {
    && NoRepeats(keys) && unseen <= buffer.Keys && KeySet(keys) == buffer.Keys - unseen
    && |keys| + |unseen| == |buffer|
    && batch == Pick(buffer, keys)
  }

  lemma PickedMore(buffer: Buffer, keys: seq<string>, unseen: set<string>, batch: seq<ResourceEvent>, k: string)
    requires Picked(buffer, keys, unseen, batch) && k in unseen
    ensures Picked(buffer, keys + [k], unseen - {k}, batch + [buffer[k]])
  {
    PickSnoc(buffer, keys, k);
    assert KeySet(keys) + {k} == buffer.Keys - (unseen - {k});
  }

  lemma PickedEnough(s: State, keys: seq<string>, unseen: set<string>, batch: seq<ResourceEvent>)
    requires Picked(s.events, keys, unseen, batch) && (s.maxBatchSize > 0 ==> |keys| <= s.maxBatchSize)
    requires unseen == {} || (s.maxBatchSize > 0 && |keys| >= s.maxBatchSize)
    ensures PossibleOrder(s, keys) && batch == Pick(s.events, keys)
  {
    assert unseen != {} ==> |unseen| > 0;
  }

  class Coalescer {
    var frameInterval: int
    var maxBatchSize: int
    var events: Buffer
    var timer: Option<nat>
    var pending: bool
    var timers: Timers<()>
    var out: seq<Emission>
    ghost var checking: nat
    ghost var flushing: nat

    ghost function View(): State
      reads this
    {
      State(frameInterval, maxBatchSize, events, timer, pending, timers, out, checking, flushing)
    }

    constructor (interval: int)
      ensures View() == Init(interval)
    {
      frameInterval := if interval == 0 then DEFAULT_FRAME else interval;
      maxBatchSize := DEFAULT_BATCH;
      events, timer, pending := map[], None, false;
      timers, out, checking, flushing := NoTimers(), [], 0, 0;
    }

    method EmitEvent(e: ResourceEvent)
      modifies this
      ensures View() == Next(old(View()), Emit(e))
      ensures frameInterval < MILLISECOND || e.kind == "DELETED" ==> out == old(out) + [One(e)]
      ensures frameInterval >= MILLISECOND && e.kind != "DELETED" ==> out == old(out)
    {
      if frameInterval < MILLISECOND {
        out := out + [One(e)];
        return;
      }
      if e.kind == "DELETED" {
        var key := EventKey(e);
        events := events - {key};
        out := out + [One(e)];
        return;
      }
      var key := EventKey(e);
      events := events[key := e];
      if !pending {
        pending := true;
        timer := Some(timers.next);
        timers := timers.AfterFunc(());
      }
    }

    /** Ranges over the map in some order until the batch is full. */
    method CollectBatch() returns (batch: seq<ResourceEvent>, emittedKeys: seq<string>)
      ensures PossibleOrder(View(), emittedKeys) && batch == Pick(events, emittedKeys)
    {
      var unseen := events.Keys;
      batch, emittedKeys := [], [];
      while unseen != {}
        invariant Picked(events, emittedKeys, unseen, batch)
        invariant maxBatchSize > 0 ==> |emittedKeys| <= maxBatchSize
      {
        if maxBatchSize > 0 && |batch| >= maxBatchSize { break; }
        var k :| k in unseen;
        PickedMore(events, emittedKeys, unseen, batch, k);
        batch := batch + [events[k]];
        emittedKeys := emittedKeys + [k];
        unseen := unseen - {k};
      }
      PickedEnough(View(), emittedKeys, unseen, batch);
    }

    method RemoveKeys(keys: seq<string>)
      modifies this`events
      ensures events == old(events) - KeySet(keys)
    {
      for i := 0 to |keys|
        invariant events == old(events) - KeySet(keys[..i])
      {
        assert KeySet(keys[..i + 1]) == KeySet(keys[..i]) + {keys[i]};
        events := events - {keys[i]};
      }
      assert keys[..|keys|] == keys;
    }

    /** Called with the lock held, by a timer callback or by FlushNow. */
    method Flush() returns (ghost order: seq<string>)
      modifies this
      ensures PossibleOrder(old(View()), order)
      ensures View() == FlushStep(old(View()), order)
      ensures |order| == 1 ==> out == old(out) + [One(old(events)[order[0]])]
      ensures |order| > 1 ==>
        && |out| == |old(out)| + 1 && out[..|old(out)|] == old(out)
        && out[|old(out)|].Batch? && |out[|old(out)|].events| == |order|
      ensures |order| == 0 ==> out == old(out)
    {
      if |events| == 0 {
        pending := false;
        order := [];
        return;
      }
      var batch, emittedKeys := CollectBatch();
      order := emittedKeys;
      RemoveKeys(emittedKeys);
      if |events| > 0 {
        pending := true;
        timer := Some(timers.next);
        timers := timers.AfterFunc(());
      } else {
        pending := false;
      }
      if |batch| == 1 {
        out := out + [One(batch[0])];
      } else if |batch| > 0 {
        out := out + [Batch(batch)];
      }
    }

    /** The callback of timer `id` runs. */
    method OnTimer(id: nat) returns (ghost order: seq<string>)
      requires id in timers.due
      modifies this
      ensures Enabled(old(View()), Fire(id, order)) && View() == Next(old(View()), Fire(id, order))
    {
      timers := timers.Begin(id);
      order := Flush();
    }

    method ClearAll()
      modifies this
      ensures View() == Next(old(View()), Clear)
      ensures events == map[] && !pending && timer == None && out == old(out)
      ensures old(timer).Some? ==> old(timer).value !in timers.armed
    {
      if timer.Some? {
        timers := timers.Stop(timer);
        timer := None;
      }
      events := map[];
      pending := false;
    }

    method UpdateFrameInterval(ms: int)
      modifies this
      ensures View() == Next(old(View()), SetFrameInterval(ms))
      ensures MILLISECOND <= frameInterval <= 100 * MILLISECOND
      ensures 1 <= ms <= 100 ==> frameInterval == ms * MILLISECOND
      ensures (ms < 1 ==> frameInterval == MILLISECOND) && (ms > 100 ==> frameInterval == 100 * MILLISECOND)
    {
      var v := ms;
      if v < 1 { v := 1; }
      if v > 100 { v := 100; }
      frameInterval := v * MILLISECOND;
    }

    method UpdateMaxBatchSize(n: int)
      modifies this
      ensures View() == Next(old(View()), SetMaxBatchSize(n))
      ensures 50 <= maxBatchSize <= 5000 && (50 <= n <= 5000 ==> maxBatchSize == n)
      ensures (n < 50 ==> maxBatchSize == 50) && (n > 5000 ==> maxBatchSize == 5000)
    {
      var v := n;
      if v < 50 { v := 50; }
      if v > 5000 { v := 5000; }
      maxBatchSize := v;
    }

    /** FlushNow's loop, entered after it has stopped the timer. */
    method Drain() returns (ghost orders: seq<seq<string>>)
      modifies this
      ensures Rounds(old(View()), orders, View()) && events == map[]
    {
      orders := [];
      while |events| != 0
        invariant Rounds(old(View()), orders, View())
        decreases |events|
      {
        ghost var s := View();
        ghost var order := Flush();
        OneMoreRound(old(View()), orders, s, order);
        orders := orders + [order];
      }
    }

    /** The whole call with nobody in between.  It is a run of the machine; it
        sends every buffered event exactly once in the least number of flushes;
        and it keeps the wake-up invariant exactly when it did not start with an
        empty buffer, `pending` set and no timer but the one it stops. */
    method FlushNow() returns (ghost keys: seq<string>, ghost flushes: nat)
      requires maxBatchSize > 0
      modifies this
      ensures Reaches(old(View()), View()) && SentAll(old(View()), View(), keys, flushes)
      ensures old(WakeUp(View())) && old(checking + flushing) == 0 ==> (WakeUp(View()) <==> !DrainStrands(old(View())))
    {
      ghost var s0 := View();
      if timer.Some? {
        timers := timers.Stop(timer);
      }
      checking := checking + 1;
      assert View() == Next(s0, DrainStart);
      ghost var orders := Drain();
      ghost var s := View();
      keys, flushes := Joined(orders), |orders|;
      WholeDrainSends(s0, orders, s);
      WholeDrainKeepsWakeUp(s0, orders, s);
      checking := checking - 1;
      assert View() == Next(s, DrainCheck);
    }
  }
}
