/** Model of the one-shot requests of pkg/ai/manager.go.  Each request runs in a
    goroutine of its own, so requests of one session can overlap. */
module Sessions {
  import opened Common
  import opened ToolLoop

  // ---------------------------------------------------------------- what the window receives

  datatype Notice = ProviderFailed | TimedOut | StreamNotice(error: StreamError)

  datatype Payload =
    | Chunk(text: string)
    | ToolStarted(call: ToolCall)
    | ToolDone(id: string, name: string, result: ResultText, isError: bool)
    | Trouble(notice: Notice)
    | Done
    | DoneWith(notice: Notice)

  /** Every response is tagged with the generation of its request. */
  datatype Response = Response(generation: nat, payload: Payload)

  datatype ContextState = Live | ContextCancelled | DeadlineExceeded

  predicate IsTerminal(r: Response) {
    r.payload.Done? || r.payload.DoneWith?
  }

  function Forwarded(generation: nat, e: StreamEvent): Response {
    match e
    case TextEvent(text) => Response(generation, Chunk(text))
    case ToolUseEvent(call) => Response(generation, ToolStarted(call))
    case ToolResultEvent(id, name, result, isError) => Response(generation, ToolDone(id, name, result, isError))
    case DoneEvent(_) => Response(generation, Done)
    case ErrorEvent(error) => Response(generation, Trouble(StreamNotice(error)))
  }

  function ForwardAll(generation: nat, events: seq<StreamEvent>): seq<Response> {
    seq(|events|, i requires 0 <= i < |events| => Forwarded(generation, events[i]))
  }

  /** How the last response of a failed request reads. */
  function Terminal(outcome: Outcome, context: ContextState): Payload {
    if outcome.Finished? || context.ContextCancelled? then Done
    else if context.DeadlineExceeded? then DoneWith(TimedOut)
    else DoneWith(ProviderFailed)
  }

  function TextIn(r: Response): string {
    if r.payload.Chunk? then r.payload.text else ""
  }

  /** The text chunks of the responses, put together. */
  function TextOf(responses: seq<Response>): string {
    if responses == [] then "" else TextOf(responses[..|responses| - 1]) + TextIn(responses[|responses| - 1])
  }

  ghost predicate NoTerminal(responses: seq<Response>) {
    forall i | 0 <= i < |responses| :: !IsTerminal(responses[i])
  }

  ghost predicate AllFrom(responses: seq<Response>, generation: nat) {
    forall i | 0 <= i < |responses| :: responses[i].generation == generation
  }

  ghost predicate OneTerminalAtTheEnd(responses: seq<Response>, generation: nat) {
    && responses != [] && IsTerminal(responses[|responses| - 1])
    && (forall i | 0 <= i < |responses| - 1 :: !IsTerminal(responses[i]))
    && AllFrom(responses, generation)
  }

  lemma ForwardedProtocol(generation: nat, events: seq<StreamEvent>, outcome: Outcome)
    requires Protocol(outcome, events)
    ensures var responses := ForwardAll(generation, events);
      && AllFrom(responses, generation)
      && if outcome.Finished? then OneTerminalAtTheEnd(responses, generation) else NoTerminal(responses)
  {
    var responses, finished := ForwardAll(generation, events), outcome.Finished?;
    forall i | 0 <= i < |events| && (finished ==> i < |events| - 1) ensures !IsTerminal(responses[i]) {
      if finished { assert events[i] == events[..|events| - 1][i]; }
      assert !events[i].DoneEvent?;
    }
  }

  lemma TerminalAppended(responses: seq<Response>, generation: nat, r: Response)
    requires NoTerminal(responses) && AllFrom(responses, generation) && IsTerminal(r) && r.generation == generation
    ensures OneTerminalAtTheEnd(responses + [r], generation)
  {
  }

  lemma TextOfSnoc(responses: seq<Response>, r: Response)
    ensures TextOf(responses + [r]) == TextOf(responses) + TextIn(r)
  {
    assert (responses + [r])[..|responses|] == responses;
  }

  lemma {:induction false} TextOfConcat(a: seq<Response>, b: seq<Response>)
    ensures TextOf(a + b) == TextOf(a) + TextOf(b)
    decreases |b|
  {
    if b == [] {
      assert a + b == a;
    } else {
      var init, last := b[..|b| - 1], b[|b| - 1];
      TextOfConcat(a, init);
      assert (a + b)[..|a + b| - 1] == a + init && (a + b)[|a + b| - 1] == last;
      ConcatAssoc(TextOf(a), TextOf(init), TextIn(last));
    }
  }

  // ---------------------------------------------------------------- what the requests share

  /** The session under the manager's lock: whether the manager still has it, the
      number of its last request, the request that `cancel` belongs to, the contexts,
      and the history. */
  datatype Shared = Shared(
    known: bool,
    generation: nat,
    cancel: Option<nat>,
    contexts: map<nat, ContextState>,
    hasHistory: bool,
    messages: seq<ChatMessage>)

  /** What a finished request adds to the history. */
  function Exchange(message: string, text: string): seq<ChatMessage> {
    [ChatMessage(UserRole, message)] + if text != "" then [ChatMessage(AssistantRole, text)] else []
  }

  /** What is added: the question, then the answer if there is any text, nothing else. */
  ghost predicate Adds(before: seq<ChatMessage>, after: seq<ChatMessage>, message: string, text: string) {
    && |after| == |before| + (if text == "" then 1 else 2) && after[..|before|] == before
    && after[|before|] == ChatMessage(UserRole, message)
    && (text != "" ==> after[|before| + 1] == ChatMessage(AssistantRole, text))
  }

  /** A context ends once; the first cause stays. */
  function EndContext(contexts: map<nat, ContextState>, gen: nat, how: ContextState): map<nat, ContextState> {
    if gen in contexts && contexts[gen].Live? then contexts[gen := how] else contexts
  }

  function Cancel(x: Shared): Shared {
    if x.cancel.Some? then x.(contexts := EndContext(x.contexts, x.cancel.value, ContextCancelled)) else x
  }

  /** The locked beginning of a request. */
  function Begun(x: Shared): Shared {
    var gen := x.generation + 1;
    Cancel(x).(generation := gen, cancel := Some(gen), contexts := Cancel(x).contexts[gen := Live])
  }

  /** The locked end of a request that finished. */
  function Recorded(x: Shared, message: string, text: string): Shared {
    if x.known then x.(hasHistory := true, messages := x.messages + Exchange(message, text)) else x
  }

  // ---------------------------------------------------------------- the requests of one session

  /** `Failing` is the goroutine that has chosen its last message but not sent it. */
  datatype Phase = Streaming | Failing | Ended

  /** One request: what it asks, the history it was given, how the provider ends, the
      responses still to come, and the text collected so far. */
  datatype Request = Request(
    message: string,
    history: seq<ChatMessage>,
    outcome: Outcome,
    left: seq<Response>,
    text: string,
    phase: Phase)

  /** `out` is what the window has received; `recorded` the requests whose exchange was
      added to the history, in order. */
  datatype State = State(shared: Shared, requests: map<nat, Request>, out: seq<Response>, recorded: seq<nat>)

  function Init(): State {
    State(Shared(true, 0, None, map[], false, []), map[], [], [])
  }

  /** The outside decides what the provider streams and how it ends, when a deadline
      passes or the application stops, and when the window cancels or closes. */
  datatype Step =
    | Begin(message: string, outcome: Outcome, events: seq<StreamEvent>)
    | EmitNext(gen: nat)
    | Fail(gen: nat)
    | Record(gen: nat)
    | ContextEnds(gen: nat, how: ContextState)
    | CancelRequest
    | Close

  predicate IsStreaming(s: State, gen: nat) {
    gen in s.requests && s.requests[gen].phase.Streaming?
  }

  ghost predicate Enabled(s: State, step: Step) {
    match step
    case Begin(_, outcome, events) => Protocol(outcome, events)
    case EmitNext(gen) => gen in s.requests && s.requests[gen].left != []
    case Fail(gen) =>
      IsStreaming(s, gen) && s.requests[gen].left == [] && !s.requests[gen].outcome.Finished?
        && gen in s.shared.contexts
    case Record(gen) => IsStreaming(s, gen) && s.requests[gen].left == [] && s.requests[gen].outcome.Finished?
    case ContextEnds(gen, how) => gen in s.shared.contexts
    case _ => true
  }

  function NewRequest(x: Shared, message: string, outcome: Outcome, events: seq<StreamEvent>): Request {
    Request(message, x.messages, outcome, ForwardAll(x.generation + 1, events), "", Streaming)
  }

  /** The request after it has sent its next response. */
  function Sent(r: Request): Request
    requires r.left != []
  {
    r.(left := r.left[1..], text := r.text + TextIn(r.left[0]), phase := if r.phase.Failing? then Ended else r.phase)
  }

  ghost function Next(s: State, step: Step): State
    requires Enabled(s, step)
  {
    match step
    case Begin(message, outcome, events) =>
      s.(shared := Begun(s.shared),
         requests := s.requests[s.shared.generation + 1 := NewRequest(s.shared, message, outcome, events)])
    case EmitNext(gen) =>
      s.(out := s.out + [s.requests[gen].left[0]], requests := s.requests[gen := Sent(s.requests[gen])])
    case Fail(gen) =>
      var r := s.requests[gen];
      var last := Response(gen, Terminal(r.outcome, s.shared.contexts[gen]));
      s.(requests := s.requests[gen := r.(left := [last], phase := Failing)])
    case Record(gen) =>
      var r := s.requests[gen];
      s.(shared := Recorded(s.shared, r.message, r.text),
         requests := s.requests[gen := r.(phase := Ended)],
         recorded := if s.shared.known then s.recorded + [gen] else s.recorded)
    case ContextEnds(gen, how) => s.(shared := s.shared.(contexts := EndContext(s.shared.contexts, gen, how)))
    case CancelRequest => if s.shared.known then s.(shared := Cancel(s.shared)) else s
    case Close => if s.shared.known then s.(shared := Cancel(s.shared).(known := false)) else s
  }

  /** A cancel ends the context of the newest request and nothing else; a close does the
      same and takes the session away.  A session that is not known stays as it is. */
  lemma CancelAndCloseEndTheNewest(s: State)
    ensures var c, d := Next(s, CancelRequest), Next(s, Close);
      && c.requests == d.requests == s.requests && c.out == d.out == s.out && c.recorded == d.recorded == s.recorded
      && c.shared.known == s.shared.known && !d.shared.known
      && d.shared == c.shared.(known := false)
      && c.shared == s.shared.(contexts := c.shared.contexts) && c.shared.contexts.Keys == s.shared.contexts.Keys
      && forall gen | gen in s.shared.contexts :: c.shared.contexts[gen]
           == if s.shared.known && s.shared.cancel == Some(gen) && s.shared.contexts[gen].Live?
              then ContextCancelled else s.shared.contexts[gen]
  {
  }

  ghost predicate Feasible(s: State, steps: seq<Step>)
    decreases |steps|
  {
    steps == [] || (Enabled(s, steps[0]) && Feasible(Next(s, steps[0]), steps[1..]))
  }

  ghost function Exec(s: State, steps: seq<Step>): State
    requires Feasible(s, steps)
    decreases |steps|
  {
    if steps == [] then s else Exec(Next(s, steps[0]), steps[1..])
  }

  // ---------------------------------------------------------------- the responses of one request

  function OneOf(r: Response, gen: nat): seq<Response> {
    if r.generation == gen then [r] else []
  }

  /** The responses of one generation, in order. */
  function Of(out: seq<Response>, gen: nat): seq<Response> {
    if out == [] then [] else Of(out[..|out| - 1], gen) + OneOf(out[|out| - 1], gen)
  }

  lemma OfSnoc(out: seq<Response>, r: Response, gen: nat)
    ensures Of(out + [r], gen) == if r.generation == gen then Of(out, gen) + [r] else Of(out, gen)
  {
    assert (out + [r])[..|out|] == out && Of(out, gen) + [] == Of(out, gen);
  }

  lemma {:induction false} OfConcat(a: seq<Response>, b: seq<Response>, gen: nat)
    ensures Of(a + b, gen) == Of(a, gen) + Of(b, gen)
    decreases |b|
  {
    if b == [] {
      assert a + b == a;
    } else {
      var init, last := b[..|b| - 1], b[|b| - 1];
      OfConcat(a, init, gen);
      ConcatAssoc(Of(a, gen), Of(init, gen), OneOf(last, gen));
      assert (a + b)[..|a + b| - 1] == a + init && (a + b)[|a + b| - 1] == last;
    }
  }

  lemma {:induction false} OfIsFrom(out: seq<Response>, gen: nat)
    ensures AllFrom(Of(out, gen), gen)
  {
    if out != [] { OfIsFrom(out[..|out| - 1], gen); }
  }

  lemma {:induction false} OfNone(out: seq<Response>, gen: nat)
    requires forall i | 0 <= i < |out| :: out[i].generation != gen
    ensures Of(out, gen) == []
  {
    if out != [] { OfNone(out[..|out| - 1], gen); }
  }

  // ---------------------------------------------------------------- one terminal response for each request

  ghost predicate Numbered(s: State) {
    && (forall gen: nat :: gen in s.requests <==> 1 <= gen <= s.shared.generation)
    && s.shared.contexts.Keys == s.requests.Keys
    && s.shared.cancel == (if s.shared.generation == 0 then None else Some(s.shared.generation))
    && forall i | 0 <= i < |s.out| :: s.out[i].generation in s.requests
  }

  /** Only the newest request can still have a live context. */
  ghost predicate OlderAreCancelled(s: State) {
    forall gen | gen in s.shared.contexts && gen != s.shared.generation :: !s.shared.contexts[gen].Live?
  }

  /** What request `gen` has sent and will send, unless its provider fails, is a stream
      with one terminal response, at the end. */
  ghost predicate InProgress(r: Request, gen: nat, sent: seq<Response>) {
    && AllFrom(r.left, gen)
    && r.text == TextOf(sent)
    && (r.phase.Failing? ==> |r.left| == 1 && !r.outcome.Finished?)
    && (r.phase.Ended? ==> r.left == [])
    && if r.phase.Streaming? && !r.outcome.Finished? then NoTerminal(sent + r.left)
       else OneTerminalAtTheEnd(sent + r.left, gen)
  }

  ghost predicate AllInProgress(s: State) {
    forall gen | gen in s.requests :: InProgress(s.requests[gen], gen, Of(s.out, gen))
  }

  lemma BeginKeepsNumbered(s: State, step: Step)
    requires Numbered(s) && Enabled(s, step) && step.Begin?
    ensures Numbered(Next(s, step))
  {
    var s' := Next(s, step);
    assert s'.requests.Keys == s.requests.Keys + {s'.shared.generation};
    assert s'.shared.contexts.Keys == s.shared.contexts.Keys + {s'.shared.generation};
  }

  lemma EmitNextKeepsNumbered(s: State, gen: nat)
    requires Numbered(s) && Enabled(s, EmitNext(gen)) && AllFrom(s.requests[gen].left, gen)
    ensures Numbered(Next(s, EmitNext(gen)))
  {
    var s' := Next(s, EmitNext(gen));
    assert s'.requests.Keys == s.requests.Keys;
    forall i | 0 <= i < |s'.out| ensures s'.out[i].generation in s'.requests {
      if i < |s.out| { assert s'.out[i] == s.out[i]; } else { assert s'.out[i] == s.requests[gen].left[0]; }
    }
  }

  lemma OtherStepsKeepNumbered(s: State, step: Step)
    requires Numbered(s) && Enabled(s, step) && !step.Begin? && !step.EmitNext?
    ensures Numbered(Next(s, step))
  {
    var s' := Next(s, step);
    assert s'.requests.Keys == s.requests.Keys && s'.shared.contexts.Keys == s.shared.contexts.Keys;
    assert s'.out == s.out && s'.shared.generation == s.shared.generation;
  }

  lemma NextKeepsNumbered(s: State, step: Step)
    requires Numbered(s) && AllInProgress(s) && Enabled(s, step)
    ensures Numbered(Next(s, step))
  {
    match step
    case Begin(_, _, _) => BeginKeepsNumbered(s, step);
    case EmitNext(gen) =>
      assert InProgress(s.requests[gen], gen, Of(s.out, gen));
      EmitNextKeepsNumbered(s, gen);
    case _ => OtherStepsKeepNumbered(s, step);
  }

  lemma NextKeepsOlderCancelled(s: State, step: Step)
    requires Numbered(s) && OlderAreCancelled(s) && Enabled(s, step)
    ensures OlderAreCancelled(Next(s, step))
  {
  }

  lemma NewIsInProgress(x: Shared, message: string, outcome: Outcome, events: seq<StreamEvent>)
    requires Protocol(outcome, events)
    ensures InProgress(NewRequest(x, message, outcome, events), x.generation + 1, [])
  {
    ForwardedProtocol(x.generation + 1, events, outcome);
    var left := ForwardAll(x.generation + 1, events);
    assert [] + left == left;
  }

  lemma SentIsInProgress(r: Request, gen: nat, sent: seq<Response>)
    requires InProgress(r, gen, sent) && r.left != []
    ensures InProgress(Sent(r), gen, sent + [r.left[0]])
  {
    assert sent + [r.left[0]] + r.left[1..] == sent + r.left;
    TextOfSnoc(sent, r.left[0]);
    assert forall i | 0 <= i < |r.left[1..]| :: r.left[1..][i] == r.left[i + 1];
  }

  lemma FailingIsInProgress(r: Request, gen: nat, sent: seq<Response>, last: Response)
    requires InProgress(r, gen, sent) && r.left == [] && r.phase.Streaming? && !r.outcome.Finished?
    requires AllFrom(sent, gen) && IsTerminal(last) && last.generation == gen
    ensures InProgress(r.(left := [last], phase := Failing), gen, sent)
  {
    assert sent + [] == sent;
    TerminalAppended(sent, gen, last);
  }

  lemma BeginKeepsInProgress(s: State, step: Step, gen: nat)
    requires Numbered(s) && AllInProgress(s) && Enabled(s, step) && step.Begin? && gen in Next(s, step).requests
    ensures InProgress(Next(s, step).requests[gen], gen, Of(s.out, gen))
  {
    if gen == s.shared.generation + 1 {
      OfNone(s.out, gen);
      NewIsInProgress(s.shared, step.message, step.outcome, step.events);
    } else {
      assert Next(s, step).requests[gen] == s.requests[gen];
    }
  }

  lemma EmitNextKeepsInProgress(s: State, sender: nat, gen: nat)
    requires AllInProgress(s) && Enabled(s, EmitNext(sender)) && gen in s.requests
    ensures var s' := Next(s, EmitNext(sender));
      gen in s'.requests && InProgress(s'.requests[gen], gen, Of(s'.out, gen))
  {
    var next := s.requests[sender].left[0];
    assert InProgress(s.requests[sender], sender, Of(s.out, sender)) && next.generation == sender;
    OfSnoc(s.out, next, gen);
    var s' := Next(s, EmitNext(sender));
    assert s'.out == s.out + [next] && InProgress(s.requests[gen], gen, Of(s.out, gen));
    if gen == sender {
      SentIsInProgress(s.requests[gen], gen, Of(s.out, gen));
      assert s'.requests[gen] == Sent(s.requests[gen]);
    } else {
      assert s'.requests[gen] == s.requests[gen] && Of(s'.out, gen) == Of(s.out, gen);
    }
  }

  lemma FailKeepsInProgress(s: State, gen: nat)
    requires AllInProgress(s) && Enabled(s, Fail(gen))
    ensures InProgress(Next(s, Fail(gen)).requests[gen], gen, Of(s.out, gen))
  {
    var r := s.requests[gen];
    OfIsFrom(s.out, gen);
    FailingIsInProgress(r, gen, Of(s.out, gen), Response(gen, Terminal(r.outcome, s.shared.contexts[gen])));
  }

  lemma EndedIsInProgress(r: Request, gen: nat, sent: seq<Response>)
    requires InProgress(r, gen, sent) && r.left == [] && r.phase.Streaming? && r.outcome.Finished?
    ensures InProgress(r.(phase := Ended), gen, sent)
  {
  }

  lemma NextKeepsOneInProgress(s: State, step: Step, gen: nat)
    requires Numbered(s) && AllInProgress(s) && Enabled(s, step) && gen in Next(s, step).requests
    ensures InProgress(Next(s, step).requests[gen], gen, Of(Next(s, step).out, gen))
  {
    match step
    case Begin(_, _, _) => BeginKeepsInProgress(s, step, gen);
    case EmitNext(sender) => EmitNextKeepsInProgress(s, sender, gen);
    case Fail(g) => if g == gen { FailKeepsInProgress(s, gen); }
    case Record(g) => if g == gen { EndedIsInProgress(s.requests[gen], gen, Of(s.out, gen)); }
    case _ =>
  }

  // ---------------------------------------------------------------- the history

  ghost predicate Known(requests: map<nat, Request>, gens: seq<nat>) {
    forall i | 0 <= i < |gens| :: gens[i] in requests
  }

  /** The exchanges of these requests, one after the other. */
  ghost function Transcript(requests: map<nat, Request>, gens: seq<nat>): seq<ChatMessage>
    requires Known(requests, gens)
  {
    if gens == [] then []
    else
      var r := requests[gens[|gens| - 1]];
      Transcript(requests, gens[..|gens| - 1]) + Exchange(r.message, r.text)
  }

  lemma {:induction false} TranscriptStays(requests: map<nat, Request>, requests': map<nat, Request>, gens: seq<nat>)
    requires Known(requests, gens) && Known(requests', gens)
    requires forall i | 0 <= i < |gens| ::
      requests'[gens[i]].message == requests[gens[i]].message && requests'[gens[i]].text == requests[gens[i]].text
    ensures Transcript(requests', gens) == Transcript(requests, gens)
  {
    if gens != [] { TranscriptStays(requests, requests', gens[..|gens| - 1]); }
  }

  /** Where the exchange of the i-th of these requests begins. */
  ghost function Place(requests: map<nat, Request>, gens: seq<nat>, i: nat): nat
    requires Known(requests, gens) && i <= |gens|
  {
    if i == 0 then 0 else Place(requests, gens, i - 1) + if requests[gens[i - 1]].text == "" then 1 else 2
  }

  lemma {:induction false} PlaceInFront(requests: map<nat, Request>, gens: seq<nat>, n: nat, i: nat)
    requires Known(requests, gens) && i <= n <= |gens|
    ensures Known(requests, gens[..n]) && Place(requests, gens[..n], i) == Place(requests, gens, i)
  {
    if i > 0 { PlaceInFront(requests, gens, n, i - 1); }
  }

  /** The question of each request stands at its place, with its answer behind it. */
  ghost predicate StandsAt(messages: seq<ChatMessage>, place: nat, message: string, text: string) {
    && place < |messages| && messages[place] == ChatMessage(UserRole, message)
    && (text != "" ==> place + 1 < |messages| && messages[place + 1] == ChatMessage(AssistantRole, text))
  }

  lemma {:induction false} TranscriptHolds(requests: map<nat, Request>, gens: seq<nat>, i: nat)
    requires Known(requests, gens) && i < |gens|
    ensures |Transcript(requests, gens)| == Place(requests, gens, |gens|)
    ensures var r := requests[gens[i]];
      StandsAt(Transcript(requests, gens), Place(requests, gens, i), r.message, r.text)
  {
    var n := |gens| - 1;
    PlaceInFront(requests, gens, n, n);
    if n == 0 {
      assert Transcript(requests, gens[..0]) == [];
    } else {
      TranscriptHolds(requests, gens[..n], if i < n then i else 0);
    }
    if i < n { PlaceInFront(requests, gens, n, i); }
  }

  lemma TranscriptSnoc(requests: map<nat, Request>, gens: seq<nat>, gen: nat)
    requires Known(requests, gens) && gen in requests
    ensures Known(requests, gens + [gen])
    ensures Transcript(requests, gens + [gen])
      == Transcript(requests, gens) + Exchange(requests[gen].message, requests[gen].text)
  {
    assert (gens + [gen])[..|gens|] == gens;
  }

  ghost predicate HasFinished(s: State, gen: nat) {
    gen in s.requests && s.requests[gen].phase.Ended? && s.requests[gen].outcome.Finished?
  }

  ghost predicate NoRepeats(gens: seq<nat>) {
    forall i, j | 0 <= i < j < |gens| :: gens[i] != gens[j]
  }

  ghost predicate Has(gens: seq<nat>, gen: nat) {
    exists i :: 0 <= i < |gens| && gens[i] == gen
  }

  /** The history consists of the exchanges of finished requests, each once, in the
      order in which they finished; of all of them while the session is known. */
  ghost predicate HistoryKept(s: State) {
    && NoRepeats(s.recorded)
    && (forall i | 0 <= i < |s.recorded| :: HasFinished(s, s.recorded[i]))
    && (s.shared.known ==> forall gen | HasFinished(s, gen) :: Has(s.recorded, gen))
    && s.shared.messages == Transcript(s.requests, s.recorded)
    && (s.shared.hasHistory <==> s.recorded != [])
  }

  /** Every request was given a beginning of what is now the history. */
  ghost predicate GivenHistory(s: State) {
    forall gen | gen in s.requests :: s.requests[gen].history <= s.shared.messages
  }

  lemma RecordKeepsHistory(s: State, gen: nat)
    requires HistoryKept(s) && Enabled(s, Record(gen))
    ensures HistoryKept(Next(s, Record(gen)))
  {
    var s' := Next(s, Record(gen));
    assert !HasFinished(s, gen) && HasFinished(s', gen);
    TranscriptStays(s.requests, s'.requests, s.recorded);
    TranscriptSnoc(s'.requests, s.recorded, gen);
    RecordedOnce(s, gen);
  }

  lemma RecordedOnce(s: State, gen: nat)
    requires HistoryKept(s) && Enabled(s, Record(gen))
    ensures var s' := Next(s, Record(gen));
      && NoRepeats(s'.recorded)
      && (forall i | 0 <= i < |s'.recorded| :: HasFinished(s', s'.recorded[i]))
      && (s.shared.known ==> forall g | HasFinished(s', g) :: Has(s'.recorded, g))
  {
    var s' := Next(s, Record(gen));
    forall i | 0 <= i < |s.recorded| ensures s.recorded[i] != gen && HasFinished(s', s.recorded[i]) {
      assert HasFinished(s, s.recorded[i]);
    }
    if s.shared.known {
      forall g | HasFinished(s', g) ensures Has(s'.recorded, g) {
        if g == gen {
          assert s'.recorded[|s.recorded|] == gen;
        } else {
          assert HasFinished(s, g);
          var i :| 0 <= i < |s.recorded| && s.recorded[i] == g;
          assert s'.recorded[i] == g;
        }
      }
    }
  }

  lemma NotFinishedByOthers(s: State, step: Step, gen: nat)
    requires Enabled(s, step) && !step.Record? && gen in s.requests && gen != s.shared.generation + 1
    requires s.requests[gen].phase.Ended? ==> s.requests[gen].left == []
    requires s.requests[gen].phase.Failing? ==> !s.requests[gen].outcome.Finished?
    ensures HasFinished(Next(s, step), gen) <==> HasFinished(s, gen)
    ensures HasFinished(s, gen) ==> Next(s, step).requests[gen] == s.requests[gen]
  {
  }

  /** Only Record finishes a request, and a finished one does not change any more. */
  lemma OthersFinishNothing(s: State, step: Step, gen: nat)
    requires Numbered(s) && AllInProgress(s) && Enabled(s, step) && !step.Record?
    ensures HasFinished(Next(s, step), gen) <==> HasFinished(s, gen)
    ensures HasFinished(s, gen) ==> Next(s, step).requests[gen] == s.requests[gen]
  {
    if gen in s.requests {
      assert InProgress(s.requests[gen], gen, Of(s.out, gen));
      NotFinishedByOthers(s, step, gen);
    }
  }

  lemma SameFinishedSameHistory(s: State, s': State)
    requires HistoryKept(s) && s'.recorded == s.recorded && (s'.shared.known ==> s.shared.known)
    requires s'.shared.messages == s.shared.messages && s'.shared.hasHistory == s.shared.hasHistory
    requires forall gen :: HasFinished(s', gen) <==> HasFinished(s, gen)
    requires forall gen | HasFinished(s, gen) :: gen in s'.requests && s'.requests[gen] == s.requests[gen]
    ensures HistoryKept(s')
  {
    forall i | 0 <= i < |s.recorded| ensures
      HasFinished(s', s.recorded[i]) && s'.requests[s.recorded[i]] == s.requests[s.recorded[i]]
    {
      assert HasFinished(s, s.recorded[i]);
    }
    TranscriptStays(s.requests, s'.requests, s.recorded);
  }

  lemma OtherStepsKeepHistory(s: State, step: Step)
    requires Numbered(s) && AllInProgress(s) && HistoryKept(s) && Enabled(s, step) && !step.Record?
    ensures HistoryKept(Next(s, step))
  {
    var s' := Next(s, step);
    forall gen ensures HasFinished(s', gen) <==> HasFinished(s, gen) {
      OthersFinishNothing(s, step, gen);
    }
    forall gen | HasFinished(s, gen) ensures gen in s'.requests && s'.requests[gen] == s.requests[gen] {
      OthersFinishNothing(s, step, gen);
    }
    SameFinishedSameHistory(s, s');
  }

  lemma NextKeepsGivenHistory(s: State, step: Step)
    requires GivenHistory(s) && Enabled(s, step)
    ensures GivenHistory(Next(s, step))
  {
    var s' := Next(s, step);
    assert s.shared.messages <= s'.shared.messages;
    forall gen | gen in s'.requests ensures s'.requests[gen].history <= s'.shared.messages {
      assert gen in s.requests ==> s'.requests[gen].history in [s.requests[gen].history, s.shared.messages];
    }
  }

  // ---------------------------------------------------------------- every run

  ghost predicate Kept(s: State) {
    Numbered(s) && OlderAreCancelled(s) && AllInProgress(s) && HistoryKept(s) && GivenHistory(s)
  }

  lemma NextKeeps(s: State, step: Step)
    requires Kept(s) && Enabled(s, step)
    ensures Kept(Next(s, step))
  {
    NextKeepsNumbered(s, step);
    NextKeepsOlderCancelled(s, step);
    forall gen | gen in Next(s, step).requests
      ensures InProgress(Next(s, step).requests[gen], gen, Of(Next(s, step).out, gen))
    {
      NextKeepsOneInProgress(s, step, gen);
    }
    if step.Record? { RecordKeepsHistory(s, step.gen); } else { OtherStepsKeepHistory(s, step); }
    NextKeepsGivenHistory(s, step);
  }

  /** Main result: all of this holds in every interleaving of the requests. */
  lemma {:induction false} EveryRunIsKept(s: State, steps: seq<Step>)
    requires Kept(s) && Feasible(s, steps)
    ensures Kept(Exec(s, steps))
    decreases |steps|
  {
    if steps != [] {
      NextKeeps(s, steps[0]);
      EveryRunIsKept(Next(s, steps[0]), steps[1..]);
    }
  }

  /** From the start of a session. */
  lemma EveryRunFromTheStart(steps: seq<Step>)
    requires Feasible(Init(), steps)
    ensures Kept(Exec(Init(), steps))
  {
    assert Kept(Init());
    EveryRunIsKept(Init(), steps);
  }

  lemma NotTheLastOf(out: seq<Response>, i: nat, j: nat)
    requires i < j < |out| && out[i].generation == out[j].generation
    ensures var sent := Of(out, out[i].generation); exists k :: 0 <= k < |sent| - 1 && sent[k] == out[i]
  {
    var gen, before, after := out[i].generation, out[..i], out[i + 1..];
    assert out == (before + [out[i]]) + after;
    OfConcat(before + [out[i]], after, gen);
    OfSnoc(before, out[i], gen);
    if Of(after, gen) == [] {
      OnlyOthers(after, gen, j - i - 1);
    }
    assert Of(out, gen)[|Of(before, gen)|] == out[i];
  }

  lemma OnlyTheLastEnds(r: Request, gen: nat, sent: seq<Response>, k: nat)
    requires InProgress(r, gen, sent) && k < |sent| - 1
    ensures !IsTerminal(sent[k])
  {
    assert (sent + r.left)[k] == sent[k];
  }

  /** For the window: nothing of a generation follows its terminal response, so there
      is at most one for each request. */
  lemma NothingFollowsATerminal(s: State, i: nat, j: nat)
    requires Kept(s) && i < j < |s.out| && s.out[i].generation == s.out[j].generation
    ensures !IsTerminal(s.out[i])
  {
    var gen := s.out[i].generation;
    NotTheLastOf(s.out, i, j);
    var k :| 0 <= k < |Of(s.out, gen)| - 1 && Of(s.out, gen)[k] == s.out[i];
    assert InProgress(s.requests[gen], gen, Of(s.out, gen));
    OnlyTheLastEnds(s.requests[gen], gen, Of(s.out, gen), k);
  }

  lemma {:induction false} OnlyOthers(out: seq<Response>, gen: nat, i: nat)
    requires Of(out, gen) == [] && i < |out|
    ensures out[i].generation != gen
  {
    if i < |out| - 1 { OnlyOthers(out[..|out| - 1], gen, i); }
  }

  /** A request that has ended has sent exactly one terminal response, as its last one,
      and its text is the text the window was shown. */
  lemma EndedRequestIsComplete(s: State, gen: nat)
    requires Kept(s) && gen in s.requests && s.requests[gen].phase.Ended?
    ensures OneTerminalAtTheEnd(Of(s.out, gen), gen) && s.requests[gen].text == TextOf(Of(s.out, gen))
  {
    assert InProgress(s.requests[gen], gen, Of(s.out, gen));
    assert Of(s.out, gen) + [] == Of(s.out, gen);
  }

  /** Main result for the history: the i-th request recorded has its question there as
      the user's, and behind it the text that the window was shown, if any, as the
      assistant's; and the history has nothing else. */
  lemma RecordedStandsInTheHistory(s: State, i: nat)
    requires Kept(s) && i < |s.recorded|
    ensures s.recorded[i] in s.requests && Known(s.requests, s.recorded)
    ensures |s.shared.messages| == Place(s.requests, s.recorded, |s.recorded|)
    ensures var gen := s.recorded[i];
      StandsAt(s.shared.messages, Place(s.requests, s.recorded, i), s.requests[gen].message, TextOf(Of(s.out, gen)))
  {
    var gen := s.recorded[i];
    assert HasFinished(s, gen);
    TranscriptHolds(s.requests, s.recorded, i);
    EndedRequestIsComplete(s, gen);
  }

  /** A new request is given the whole history and a live context, and the one before is
      cancelled unless its context has ended already. */
  lemma BeginsAfresh(s: State, message: string, outcome: Outcome, events: seq<StreamEvent>)
    requires Numbered(s) && Protocol(outcome, events)
    ensures var s', gen, last := Next(s, Begin(message, outcome, events)), s.shared.generation + 1, s.shared.generation;
      && gen in s'.requests && s'.requests[gen].message == message && s'.requests[gen].history == s.shared.messages
      && gen in s'.shared.contexts && s'.shared.contexts[gen].Live?
      && (last in s.shared.contexts ==> last in s'.shared.contexts)
      && (last in s.shared.contexts && s.shared.contexts[last].Live? ==> s'.shared.contexts[last] == ContextCancelled)
      && forall g | g in s.shared.contexts && !(g == last && s.shared.contexts[g].Live?) ::
           g in s'.shared.contexts && s'.shared.contexts[g] == s.shared.contexts[g]
  {
  }

  /** A provider that fails makes one last response: Done if the request was cancelled,
      else one that says whether it was the time limit. */
  lemma FailureSaysWhy(s: State, gen: nat)
    requires Enabled(s, Fail(gen))
    ensures var left, context := Next(s, Fail(gen)).requests[gen].left, s.shared.contexts[gen];
      && |left| == 1 && left[0].generation == gen
      && (context.ContextCancelled? ==> left[0].payload == Done)
      && (context.DeadlineExceeded? ==> left[0].payload == DoneWith(TimedOut))
      && (context.Live? ==> left[0].payload == DoneWith(ProviderFailed))
  {
  }

  // ---------------------------------------------------------------- every request can end

  ghost predicate Reaches(s: State, s': State) {
    exists steps :: Feasible(s, steps) && Exec(s, steps) == s'
  }

  ghost predicate NoBegin(steps: seq<Step>) {
    forall i | 0 <= i < |steps| :: !steps[i].Begin?
  }

  /** ... without a new request. */
  ghost predicate ReachesAlone(s: State, s': State) {
    exists steps :: Feasible(s, steps) && NoBegin(steps) && Exec(s, steps) == s'
  }

  lemma ReachesItself(s: State)
    ensures ReachesAlone(s, s)
  {
    assert Feasible(s, []) && NoBegin([]) && Exec(s, []) == s;
  }

  lemma AloneReaches(s: State, s': State)
    requires ReachesAlone(s, s')
    ensures Reaches(s, s')
  {
  }

  lemma FirstStep(s: State, step: Step, steps: seq<Step>)
    requires Enabled(s, step) && Feasible(Next(s, step), steps)
    ensures Feasible(s, [step] + steps) && Exec(s, [step] + steps) == Exec(Next(s, step), steps)
  {
    assert ([step] + steps)[0] == step && ([step] + steps)[1..] == steps;
  }

  lemma StepThenReaches(s: State, step: Step, s': State)
    requires Enabled(s, step) && Reaches(Next(s, step), s')
    ensures Reaches(s, s')
  {
    var steps :| Feasible(Next(s, step), steps) && Exec(Next(s, step), steps) == s';
    FirstStep(s, step, steps);
  }

  lemma StepThenReachesAlone(s: State, step: Step, s': State)
    requires Enabled(s, step) && !step.Begin? && ReachesAlone(Next(s, step), s')
    ensures ReachesAlone(s, s')
  {
    var steps :| Feasible(Next(s, step), steps) && NoBegin(steps) && Exec(Next(s, step), steps) == s';
    FirstStep(s, step, steps);
    assert NoBegin([step] + steps);
  }

  /** The request sends everything it has left. */
  function RunOut(s: State, gen: nat): State
    requires gen in s.requests
  {
    var r := s.requests[gen];
    s.(out := s.out + r.left, requests := s.requests[gen := r.(left := [], text := r.text + TextOf(r.left))])
  }

  lemma {:induction false} RunOutThenReaches(s: State, gen: nat, s': State)
    requires IsStreaming(s, gen) && ReachesAlone(RunOut(s, gen), s')
    ensures ReachesAlone(s, s')
    decreases |s.requests[gen].left|
  {
    if s.requests[gen].left == [] {
      NothingLeft(s, gen);
    } else {
      OneLess(s, gen);
      RunOutThenReaches(Next(s, EmitNext(gen)), gen, s');
      StepThenReachesAlone(s, EmitNext(gen), s');
    }
  }

  lemma NothingLeft(s: State, gen: nat)
    requires IsStreaming(s, gen) && s.requests[gen].left == []
    ensures RunOut(s, gen) == s
  {
    var r := s.requests[gen];
    assert r.text + TextOf([]) == r.text && s.out + [] == s.out;
    assert s.requests[gen := r] == s.requests;
  }

  lemma TextOfFirst(text: string, left: seq<Response>)
    requires left != []
    ensures text + TextIn(left[0]) + TextOf(left[1..]) == text + TextOf(left)
  {
    var first, rest := left[0], left[1..];
    assert left == [first] + rest;
    TextOfSnoc([], first);
    assert [] + [first] == [first] && TextOf([first]) == TextIn(first);
    TextOfConcat([first], rest);
    ConcatAssoc(text, TextIn(first), TextOf(rest));
  }

  lemma OneLess(s: State, gen: nat)
    requires IsStreaming(s, gen) && s.requests[gen].left != []
    ensures RunOut(Next(s, EmitNext(gen)), gen) == RunOut(s, gen)
  {
    var r := s.requests[gen];
    TextOfFirst(r.text, r.left);
    assert s.out + [r.left[0]] + r.left[1..] == s.out + r.left;
    var done := r.(left := [], text := r.text + TextOf(r.left));
    assert s.requests[gen := Sent(r)][gen := done] == s.requests[gen := done];
  }

  /** The rest of a request with nobody in between. */
  ghost function Completed(s: State, gen: nat): State
    requires IsStreaming(s, gen) && gen in s.shared.contexts
  {
    var s1 := RunOut(s, gen);
    if s1.requests[gen].outcome.Finished? then Next(s1, Record(gen))
    else Next(Next(s1, Fail(gen)), EmitNext(gen))
  }

  lemma CompletedThenReaches(s: State, gen: nat, s': State)
    requires IsStreaming(s, gen) && gen in s.shared.contexts && ReachesAlone(Completed(s, gen), s')
    ensures ReachesAlone(s, s')
  {
    var s1 := RunOut(s, gen);
    if s1.requests[gen].outcome.Finished? {
      StepThenReachesAlone(s1, Record(gen), s');
    } else {
      StepThenReachesAlone(Next(s1, Fail(gen)), EmitNext(gen), s');
      StepThenReachesAlone(s1, Fail(gen), s');
    }
    RunOutThenReaches(s, gen, s');
  }

  /** No request is ever stuck, whatever the others do. */
  lemma EveryRequestCanEnd(s: State, gen: nat)
    requires IsStreaming(s, gen) && gen in s.shared.contexts
    ensures ReachesAlone(s, Completed(s, gen)) && Completed(s, gen).requests[gen].phase.Ended?
  {
    ReachesItself(Completed(s, gen));
    CompletedThenReaches(s, gen, Completed(s, gen));
  }

  // ---------------------------------------------------------------- the order of the history

  ghost predicate Ascending(gens: seq<nat>) {
    forall i, j | 0 <= i < j < |gens| :: gens[i] < gens[j]
  }

  /** A request that will be recorded when it is through, if nobody closes the session. */
  ghost predicate MayBeRecorded(s: State, gen: nat) {
    s.shared.known && IsStreaming(s, gen) && s.requests[gen].outcome.Finished?
  }

  ghost predicate NoneToCome(s: State) {
    forall gen: nat :: !MayBeRecorded(s, gen)
  }

  /** The history is in the order of the questions in every later run, as long as no
      further request begins. */
  ghost predicate StaysInOrder(s: State) {
    forall steps: seq<Step> | Feasible(s, steps) && NoBegin(steps) :: Ascending(Exec(s, steps).recorded)
  }

  /** At most one request may still be recorded, and it is newer than all that are. */
  ghost predicate InLine(s: State) {
    && Ascending(s.recorded)
    && (forall gen: nat, i: nat | MayBeRecorded(s, gen) && i < |s.recorded| :: s.recorded[i] < gen)
    && forall gen: nat, other: nat | MayBeRecorded(s, gen) && MayBeRecorded(s, other) :: gen == other
  }

  lemma AscendingSnoc(gens: seq<nat>, gen: nat)
    requires Ascending(gens) && forall i: nat | i < |gens| :: gens[i] < gen
    ensures Ascending(gens + [gen])
  {
  }

  lemma OnlyBeginAdds(s: State, step: Step, gen: nat)
    requires Enabled(s, step) && !step.Begin? && MayBeRecorded(Next(s, step), gen)
    ensures MayBeRecorded(s, gen) && step != Record(gen)
  {
  }

  lemma NextKeepsInLine(s: State, step: Step)
    requires InLine(s) && Enabled(s, step) && !step.Begin?
    ensures InLine(Next(s, step))
  {
    var s' := Next(s, step);
    forall gen: nat | MayBeRecorded(s', gen) ensures MayBeRecorded(s, gen) && step != Record(gen) {
      OnlyBeginAdds(s, step, gen);
    }
    if step.Record? && s.shared.known {
      assert MayBeRecorded(s, step.gen);
      AscendingSnoc(s.recorded, step.gen);
    }
  }

  lemma {:induction false} InLineStaysInOrder(s: State, steps: seq<Step>)
    requires InLine(s) && Feasible(s, steps) && NoBegin(steps)
    ensures Ascending(Exec(s, steps).recorded)
    decreases |steps|
  {
    if steps != [] {
      NextKeepsInLine(s, steps[0]);
      InLineStaysInOrder(Next(s, steps[0]), steps[1..]);
    }
  }

  lemma CompletedIsRecorded(s: State, gen: nat)
    requires MayBeRecorded(s, gen) && gen in s.shared.contexts
    ensures var s' := Completed(s, gen);
      && s'.recorded == s.recorded + [gen] && s'.shared.known && s'.shared.contexts == s.shared.contexts
      && forall other: nat | other != gen && MayBeRecorded(s, other) :: MayBeRecorded(s', other)
  {
  }

  lemma ReachingDisorder(s: State, s': State, i: nat, j: nat)
    requires ReachesAlone(s, s') && i < j < |s'.recorded| && s'.recorded[i] >= s'.recorded[j]
    ensures !StaysInOrder(s)
  {
    var steps :| Feasible(s, steps) && NoBegin(steps) && Exec(s, steps) == s';
    assert !Ascending(Exec(s, steps).recorded);
  }

  lemma OldIsRecordedLate(s: State, gen: nat, i: nat)
    requires Numbered(s) && MayBeRecorded(s, gen) && i < |s.recorded| && s.recorded[i] >= gen
    ensures !StaysInOrder(s)
  {
    CompletedIsRecorded(s, gen);
    EveryRequestCanEnd(s, gen);
    ReachingDisorder(s, Completed(s, gen), i, |s.recorded|);
  }

  /** Of two requests that may be recorded the newer can be the first. */
  lemma NewerIsRecordedFirst(s: State, gen: nat, later: nat)
    requires Numbered(s) && MayBeRecorded(s, gen) && MayBeRecorded(s, later) && gen < later
    ensures !StaysInOrder(s)
    ensures exists s' :: ReachesAlone(s, s') && s'.recorded == s.recorded + [later] + [gen]
  {
    CompletedIsRecorded(s, later);
    var s1 := Completed(s, later);
    CompletedIsRecorded(s1, gen);
    EveryRequestCanEnd(s1, gen);
    CompletedThenReaches(s, later, Completed(s1, gen));
    ReachingDisorder(s, Completed(s1, gen), |s.recorded|, |s.recorded| + 1);
  }

  /** What is under way is recorded in order, whatever happens, if and only if it is in
      line. */
  lemma StaysInOrderIff(s: State)
    requires Numbered(s)
    ensures StaysInOrder(s) <==> InLine(s)
  {
    if InLine(s) {
      forall steps: seq<Step> | Feasible(s, steps) && NoBegin(steps) ensures Ascending(Exec(s, steps).recorded) {
        InLineStaysInOrder(s, steps);
      }
    } else if !Ascending(s.recorded) {
      ReachesItself(s);
      var i, j :| 0 <= i < j < |s.recorded| && s.recorded[i] >= s.recorded[j];
      ReachingDisorder(s, s, i, j);
    } else if gen: nat, i: nat :| MayBeRecorded(s, gen) && i < |s.recorded| && s.recorded[i] >= gen {
      OldIsRecordedLate(s, gen, i);
    } else {
      var gen: nat, other: nat :| MayBeRecorded(s, gen) && MayBeRecorded(s, other) && gen != other;
      if gen < other { NewerIsRecordedFirst(s, gen, other); } else { NewerIsRecordedFirst(s, other, gen); }
    }
  }

  lemma BeginAddsOne(s: State, message: string, outcome: Outcome, events: seq<StreamEvent>)
    requires Numbered(s) && Protocol(outcome, events)
    ensures var s', later := Next(s, Begin(message, outcome, events)), s.shared.generation + 1;
      && s'.recorded == s.recorded && !MayBeRecorded(s, later)
      && (MayBeRecorded(s', later) <==> s.shared.known && outcome.Finished?)
      && forall gen: nat | gen != later :: MayBeRecorded(s', gen) <==> MayBeRecorded(s, gen)
  {
    assert s.shared.generation + 1 !in s.requests;
  }

  lemma RecordedAreOlder(s: State, i: nat)
    requires Numbered(s) && HistoryKept(s) && i < |s.recorded|
    ensures s.recorded[i] <= s.shared.generation
  {
    assert HasFinished(s, s.recorded[i]);
  }

  lemma SameInLine(s: State, s': State)
    requires s'.recorded == s.recorded
    requires forall gen: nat :: MayBeRecorded(s', gen) <==> MayBeRecorded(s, gen)
    ensures InLine(s') <==> InLine(s)
  {
  }

  lemma OneToComeIsInLine(s: State, gen: nat)
    requires Ascending(s.recorded) && forall i: nat | i < |s.recorded| :: s.recorded[i] < gen
    requires forall other: nat :: MayBeRecorded(s, other) ==> other == gen
    ensures InLine(s)
  {
  }

  lemma BeginInLineIff(s: State, message: string, outcome: Outcome, events: seq<StreamEvent>)
    requires Numbered(s) && HistoryKept(s) && Ascending(s.recorded) && Protocol(outcome, events)
    ensures InLine(Next(s, Begin(message, outcome, events))) <==> if outcome.Finished? then NoneToCome(s) else InLine(s)
  {
    var s', later := Next(s, Begin(message, outcome, events)), s.shared.generation + 1;
    BeginAddsOne(s, message, outcome, events);
    if !outcome.Finished? {
      SameInLine(s, s');
    } else if NoneToCome(s) {
      forall i: nat | i < |s.recorded| ensures s.recorded[i] < later {
        RecordedAreOlder(s, i);
      }
      OneToComeIsInLine(s', later);
    } else {
      var gen: nat :| MayBeRecorded(s, gen);
      assert MayBeRecorded(s', gen) && MayBeRecorded(s', later) && gen != later;
    }
  }

  /** Main result for overlaps: a new request that will finish leaves the history in
      order in every later run, if and only if no request that will finish is still
      streaming; one that will fail never matters. */
  lemma BeginStaysInOrderIff(s: State, message: string, outcome: Outcome, events: seq<StreamEvent>)
    requires Kept(s) && Ascending(s.recorded) && Protocol(outcome, events)
    ensures StaysInOrder(Next(s, Begin(message, outcome, events))) <==>
      if outcome.Finished? then NoneToCome(s) else StaysInOrder(s)
  {
    NextKeeps(s, Begin(message, outcome, events));
    StaysInOrderIff(Next(s, Begin(message, outcome, events)));
    StaysInOrderIff(s);
    BeginInLineIff(s, message, outcome, events);
  }

  /** No request that will finish begins while another one is still streaming. */
  ghost predicate NoOverlaps(s: State, steps: seq<Step>)
    requires Feasible(s, steps)
    decreases |steps|
  {
    steps == [] ||
    ((steps[0].Begin? && steps[0].outcome.Finished? ==> NoneToCome(s)) && NoOverlaps(Next(s, steps[0]), steps[1..]))
  }

  ghost predicate InOrderThroughout(s: State, steps: seq<Step>)
    requires Feasible(s, steps)
    decreases |steps|
  {
    StaysInOrder(s) && (steps == [] || InOrderThroughout(Next(s, steps[0]), steps[1..]))
  }

  /** One step keeps it so if and only if it is not such a beginning. */
  lemma NextStaysInOrderIff(s: State, step: Step)
    requires Kept(s) && StaysInOrder(s) && Enabled(s, step)
    ensures StaysInOrder(Next(s, step)) <==> (step.Begin? && step.outcome.Finished? ==> NoneToCome(s))
  {
    StaysInOrderIff(s);
    if step.Begin? {
      BeginStaysInOrderIff(s, step.message, step.outcome, step.events);
    } else {
      NextKeeps(s, step);
      NextKeepsInLine(s, step);
      StaysInOrderIff(Next(s, step));
    }
  }

  /** Main result for runs: what is under way can only be recorded in order, at every
      point of a run, if and only if the run has no such beginning. */
  lemma {:induction false} InOrderThroughoutIff(s: State, steps: seq<Step>)
    requires Kept(s) && StaysInOrder(s) && Feasible(s, steps)
    ensures InOrderThroughout(s, steps) <==> NoOverlaps(s, steps)
    decreases |steps|
  {
    if steps != [] {
      var s', rest := Next(s, steps[0]), steps[1..];
      NextStaysInOrderIff(s, steps[0]);
      NextKeeps(s, steps[0]);
      if StaysInOrder(s') {
        InOrderThroughoutIff(s', rest);
      } else {
        assert !InOrderThroughout(s', rest);
      }
    }
  }

  /** Then the history is in the order in which the questions were asked. */
  lemma {:induction false} SerialRequestsAreRecordedInOrder(s: State, steps: seq<Step>)
    requires Kept(s) && StaysInOrder(s) && Feasible(s, steps) && NoOverlaps(s, steps)
    ensures Ascending(Exec(s, steps).recorded)
    decreases |steps|
  {
    if steps == [] {
      StaysInOrderIff(s);
    } else {
      NextStaysInOrderIff(s, steps[0]);
      NextKeeps(s, steps[0]);
      SerialRequestsAreRecordedInOrder(Next(s, steps[0]), steps[1..]);
    }
  }

  /** From the start of a session. */
  lemma OrderFromTheStart(steps: seq<Step>)
    requires Feasible(Init(), steps)
    ensures InOrderThroughout(Init(), steps) <==> NoOverlaps(Init(), steps)
    ensures NoOverlaps(Init(), steps) ==> Ascending(Exec(Init(), steps).recorded)
  {
    assert Kept(Init()) && InLine(Init());
    StaysInOrderIff(Init());
    InOrderThroughoutIff(Init(), steps);
    if NoOverlaps(Init(), steps) { SerialRequestsAreRecordedInOrder(Init(), steps); }
  }

  /** It does happen: while a request that will finish is still streaming, a new one can
      be recorded before it. */
  lemma OverlapCanReverse(s: State, gen: nat, message: string, usage: Usage)
    requires Numbered(s) && MayBeRecorded(s, gen)
    ensures Enabled(s, Begin(message, Finished, [DoneEvent(usage)]))
    ensures exists s' ::
      && ReachesAlone(Next(s, Begin(message, Finished, [DoneEvent(usage)])), s')
      && s'.recorded == s.recorded + [s.shared.generation + 1] + [gen] && !Ascending(s'.recorded)
  {
    var later := s.shared.generation + 1;
    assert [DoneEvent(usage)][..0] == [];
    var s1 := Next(s, Begin(message, Finished, [DoneEvent(usage)]));
    BeginKeepsNumbered(s, Begin(message, Finished, [DoneEvent(usage)]));
    assert MayBeRecorded(s1, gen) && MayBeRecorded(s1, later) && gen < later;
    NewerIsRecordedFirst(s1, gen, later);
    var s' :| ReachesAlone(s1, s') && s'.recorded == s.recorded + [later] + [gen];
    assert s'.recorded[|s.recorded|] == later && s'.recorded[|s.recorded| + 1] == gen;
  }

  // ---------------------------------------------------------------- one call

  /** All a request sends: what the provider streams and, if it fails, how it failed. */
  function Responses(gen: nat, outcome: Outcome, events: seq<StreamEvent>, how: ContextState): seq<Response> {
    ForwardAll(gen, events) + if outcome.Finished? then [] else [Response(gen, Terminal(outcome, how))]
  }

  /** The session after a request that nobody interrupted. */
  function AfterCall(x: Shared, message: string, outcome: Outcome, how: ContextState, text: string): Shared {
    var y := Begun(x);
    var z := y.(contexts := EndContext(y.contexts, y.generation, how));
    if outcome.Finished? then Recorded(z, message, text) else z
  }

  /** A whole call is a run of the machine. */
  lemma CallIsARun(s: State, message: string, outcome: Outcome, events: seq<StreamEvent>, how: ContextState)
    requires Protocol(outcome, events)
    ensures var responses := Responses(s.shared.generation + 1, outcome, events, how);
      RunsTo(s, responses, AfterCall(s.shared, message, outcome, how, TextOf(responses)))
  {
    var gen := s.shared.generation + 1;
    var s1 := Next(s, Begin(message, outcome, events));
    var s2 := Next(s1, ContextEnds(gen, how));
    var s' := Completed(s2, gen);
    ReachesItself(s');
    CompletedThenReaches(s2, gen, s');
    AloneReaches(s2, s');
    StepThenReaches(s1, ContextEnds(gen, how), s');
    StepThenReaches(s, Begin(message, outcome, events), s');
    CallCompletes(s2, gen, how);
    assert s2.requests[gen] == NewRequest(s.shared, message, outcome, events);
    assert s2.out == s.out && s'.out == s.out + Responses(gen, outcome, events, how);
    if outcome.Finished? {
      assert Responses(gen, outcome, events, how) == ForwardAll(gen, events);
    }
  }

  /** From this state a run sends these responses and leaves that session. */
  ghost predicate RunsTo(s: State, responses: seq<Response>, after: Shared) {
    exists s' :: Reaches(s, s') && s'.out == s.out + responses && s'.shared == after
  }

  ghost predicate IsARun(before: Shared, responses: seq<Response>, after: Shared) {
    forall s: State | s.shared == before :: RunsTo(s, responses, after)
  }

  lemma EveryCallIsARun(x: Shared, message: string, outcome: Outcome, events: seq<StreamEvent>, how: ContextState)
    requires Protocol(outcome, events)
    ensures var responses := Responses(x.generation + 1, outcome, events, how);
      IsARun(x, responses, AfterCall(x, message, outcome, how, TextOf(responses)))
  {
    var responses := Responses(x.generation + 1, outcome, events, how);
    forall s: State | s.shared == x
      ensures RunsTo(s, responses, AfterCall(x, message, outcome, how, TextOf(responses)))
    {
      CallIsARun(s, message, outcome, events, how);
    }
  }

  lemma CallCompletes(s: State, gen: nat, how: ContextState)
    requires IsStreaming(s, gen) && gen in s.shared.contexts && s.shared.contexts[gen] == how
    requires s.requests[gen].text == ""
    ensures var r, s' := s.requests[gen], Completed(s, gen);
      && s'.out == s.out + (r.left + if r.outcome.Finished? then [] else [Response(gen, Terminal(r.outcome, how))])
      && s'.shared == if r.outcome.Finished? then Recorded(s.shared, r.message, TextOf(r.left)) else s.shared
  {
    var r := s.requests[gen];
    assert "" + TextOf(r.left) == TextOf(r.left) && r.left + [] == r.left;
    ConcatAssoc(s.out, r.left, [Response(gen, Terminal(r.outcome, how))]);
  }

  lemma ResponsesProtocol(gen: nat, outcome: Outcome, events: seq<StreamEvent>, how: ContextState)
    requires Protocol(outcome, events)
    ensures var responses := Responses(gen, outcome, events, how);
      OneTerminalAtTheEnd(responses, gen) && responses[|responses| - 1].payload == Terminal(outcome, how)
  {
    var forwarded := ForwardAll(gen, events);
    ForwardedProtocol(gen, events, outcome);
    if outcome.Finished? {
      assert forwarded + [] == forwarded;
    } else {
      TerminalAppended(forwarded, gen, Response(gen, Terminal(outcome, how)));
    }
  }

  /** The response says what the event says. */
  ghost predicate Reports(r: Response, generation: nat, e: StreamEvent) {
    && r.generation == generation
    && (e.TextEvent? ==> r.payload.Chunk? && r.payload.text == e.text)
    && (e.ToolUseEvent? ==> r.payload.ToolStarted? && r.payload.call == e.call)
    && (e.ToolResultEvent? ==> r.payload.ToolDone? && r.payload.id == e.id && r.payload.name == e.name)
    && (e.ToolResultEvent? ==> r.payload.result == e.result && r.payload.isError == e.isError)
    && (e.DoneEvent? ==> r.payload.Done?)
    && (e.ErrorEvent? ==> r.payload.Trouble? && r.payload.notice == StreamNotice(e.error))
  }

  lemma AllReport(generation: nat, events: seq<StreamEvent>)
    ensures forall i | 0 <= i < |events| :: Reports(ForwardAll(generation, events)[i], generation, events[i])
  {
    forall i | 0 <= i < |events| ensures Reports(Forwarded(generation, events[i]), generation, events[i]) {
    }
  }

  lemma {:induction false} ForwardedText(generation: nat, events: seq<StreamEvent>)
    ensures TextOf(ForwardAll(generation, events)) == ShownText(events)
  {
    if events != [] {
      var n := |events| - 1;
      ForwardedText(generation, events[..n]);
      assert ForwardAll(generation, events)[..n] == ForwardAll(generation, events[..n]);
    }
  }

  /** The callback of the request: forwards each event and collects the text. */
  method Forward(generation: nat, events: seq<StreamEvent>) returns (responses: seq<Response>, text: string)
    ensures responses == ForwardAll(generation, events) && text == TextOf(responses)
    ensures |responses| == |events| && forall i | 0 <= i < |events| :: Reports(responses[i], generation, events[i])
    ensures text == ShownText(events)
  {
    responses, text := [], "";
    for i := 0 to |events|
      invariant |responses| == i && forall j | 0 <= j < i :: responses[j] == Forwarded(generation, events[j])
      invariant text == TextOf(responses)
    {
      var r := Forwarded(generation, events[i]);
      TextOfSnoc(responses, r);
      if r.payload.Chunk? {
        text := text + r.payload.text;
      }
      responses := responses + [r];
    }
    assert responses == ForwardAll(generation, events);
    ForwardedText(generation, events);
    AllReport(generation, events);
  }

  ghost predicate SaysHowItEnded(last: Response, outcome: Outcome, how: ContextState) {
    && (outcome.Finished? || how.ContextCancelled? ==> last.payload == Done)
    && (!outcome.Finished? && how.DeadlineExceeded? ==> last.payload == DoneWith(TimedOut))
    && (!outcome.Finished? && how.Live? ==> last.payload == DoneWith(ProviderFailed))
  }

  /** The goroutine of a request up to its terminal response; `how` is what has become
      of its context when the provider returns. */
  method RunRequest(gen: nat, history: seq<ChatMessage>, message: string, hasKey: bool, hasClient: bool,
    turns: nat -> Turn, how: ContextState)
    returns (outcome: Outcome, responses: seq<Response>, text: string, ghost events: seq<StreamEvent>)
    ensures Protocol(outcome, events) && responses == Responses(gen, outcome, events, how)
    ensures OneTerminalAtTheEnd(responses, gen) && responses[|responses| - 1].payload == Terminal(outcome, how)
    ensures SaysHowItEnded(responses[|responses| - 1], outcome, how)
    ensures outcome.Finished? ==> text == TextOf(responses)
  {
    var streamed;
    outcome, streamed := Ask(hasKey, hasClient, history, message, turns);
    events := streamed;
    responses, text := Forward(gen, streamed);
    ResponsesProtocol(gen, outcome, events, how);
    assert responses + [] == responses;
    if !outcome.Finished? {
      if how.ContextCancelled? {
        responses := responses + [Response(gen, Done)];
      } else if how.DeadlineExceeded? {
        responses := responses + [Response(gen, DoneWith(TimedOut))];
      } else {
        responses := responses + [Response(gen, DoneWith(ProviderFailed))];
      }
    }
  }

  class Session {
    var known: bool
    var generation: nat
    var cancel: Option<nat>
    var contexts: map<nat, ContextState>
    var hasHistory: bool
    var messages: seq<ChatMessage>

    ghost function View(): Shared
      reads this
    {
      Shared(known, generation, cancel, contexts, hasHistory, messages)
    }

    constructor ()
      ensures View() == Init().shared
    {
      known, generation, cancel, contexts, hasHistory, messages := true, 0, None, map[], false, [];
    }

    /** The context of a request ends, unless it has already. */
    method End(gen: nat, how: ContextState)
      modifies `contexts
      ensures contexts == EndContext(old(contexts), gen, how)
    {
      if gen in contexts && contexts[gen].Live? {
        contexts := contexts[gen := how];
      }
    }

    /** The locked beginning of sendMessageOneShot. */
    method Begin() returns (gen: nat, history: seq<ChatMessage>)
      modifies this
      ensures View() == Begun(old(View())) && gen == generation == old(generation) + 1
      ensures history == old(messages) && cancel == Some(gen) && gen in contexts && contexts[gen].Live?
      ensures old(cancel).Some? && old(cancel).value in old(contexts) && old(cancel).value != gen ==>
        old(cancel).value in contexts && !contexts[old(cancel).value].Live?
    {
      if cancel.Some? {
        End(cancel.value, ContextCancelled);
      }
      generation := generation + 1;
      cancel := Some(generation);
      contexts := contexts[generation := Live];
      gen, history := generation, messages;
    }

    /** The locked end of a request that finished. */
    method Record(message: string, text: string)
      modifies this
      ensures View() == Recorded(old(View()), message, text)
      ensures old(known) ==> hasHistory && Adds(old(messages), messages, message, text)
      ensures !old(known) ==> View() == old(View())
    {
      if known {
        hasHistory := true;
        messages := messages + [ChatMessage(UserRole, message)];
        if text != "" {
          messages := messages + [ChatMessage(AssistantRole, text)];
        }
        assert messages == old(messages) + Exchange(message, text);
      }
    }

    /** CancelRequest. */
    method CancelRequest()
      modifies this
      ensures View() == if old(known) then Cancel(old(View())) else old(View())
      ensures old(known) && cancel.Some? && cancel.value in old(contexts) && old(contexts[cancel.value].Live?) ==>
        cancel.value in contexts && contexts[cancel.value] == ContextCancelled
    {
      if known && cancel.Some? {
        End(cancel.value, ContextCancelled);
      }
    }

    /** CloseSession, and what ClearSession and a disconnect do to a session. */
    method Close()
      modifies this
      ensures View() == if old(known) then Cancel(old(View())).(known := false) else old(View())
    {
      if known {
        if cancel.Some? {
          End(cancel.value, ContextCancelled);
        }
        known := false;
      }
    }

    /** A whole request that no other request of the session overlaps: exactly one
        terminal response, as the last one; a finished request adds the question and
        the text that was shown to the history, a failed one adds nothing; and the call
        is a run of the machine. */
    method SendMessageOneShot(message: string, hasKey: bool, hasClient: bool, turns: nat -> Turn, how: ContextState)
      returns (outcome: Outcome, responses: seq<Response>)
      modifies this
      ensures OneTerminalAtTheEnd(responses, generation) && responses[|responses| - 1].payload == Terminal(outcome, how)
      ensures SaysHowItEnded(responses[|responses| - 1], outcome, how)
      ensures View() == AfterCall(old(View()), message, outcome, how, TextOf(responses))
      ensures outcome.Finished? && old(known) ==> Adds(old(messages), messages, message, TextOf(responses))
      ensures !outcome.Finished? || !old(known) ==> messages == old(messages)
      ensures IsARun(old(View()), responses, View())
    {
      var gen, history := Begin();
      var text;
      ghost var events;
      outcome, responses, text, events := RunRequest(gen, history, message, hasKey, hasClient, turns, how);
      End(gen, how);
      if outcome.Finished? {
        Record(message, text);
      }
      EveryCallIsARun(old(View()), message, outcome, events, how);
    }
  }
}
