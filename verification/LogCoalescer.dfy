/** Model of logcoalescer.go.  Unlike the event coalescer it emits outside the
    lock, so taking lines out of a buffer and emitting them are separate steps
    that other goroutines can come between. */
module LogCoalescer {
  import opened Common
  import opened GoTimers

  // ---------------------------------------------------------------- data model

  /** Stream ids, log lines and error messages: only their equality matters. */
  type Text(==, !new)

  datatype Message =
    | Line(stream: Text, line: Text)
    | Batch(stream: Text, lines: seq<Text>)
    | Done(stream: Text)
    | Error(stream: Text, message: Text)

  datatype Buffer = Buffer(lines: seq<Text>, timer: Option<nat>, pending: bool)

  /** A goroutine between its steps: it has stopped a stream's timer and is about
      to take the stream's lines, or it has messages left to emit. */
  datatype Thread = Stopping(stream: Text, rest: seq<Message>) | Emitting(messages: seq<Message>)

  /** `queued` records, per stream, every line ever given to EmitLine. */
  datatype State = State(
    streams: map<Text, Buffer>,
    timers: Timers<Text>,
    threads: seq<Thread>,
    out: seq<Message>,
    queued: map<Text, seq<Text>>)

  datatype Step =
    | EmitLine(stream: Text, line: Text)
    | Expire(timer: nat)
    | Fire(timer: nat)
    | StartFlush(stream: Text, error: Option<Text>)
    | Take(thread: nat)
    | EmitDone(stream: Text)
    | EmitNext(thread: nat)
    | Cleanup(stream: Text)

  function Init(): State {
    State(map[], NoTimers(), [], [], map[])
  }

  function Lines(s: State, stream: Text): seq<Text> {
    if stream in s.streams then s.streams[stream].lines else []
  }

  function Queued(s: State, stream: Text): seq<Text> {
    if stream in s.queued then s.queued[stream] else []
  }

  // ---------------------------------------------------------------- atomic steps

  /** emitBatch: nothing, a single line, or a batch. */
  function Pack(stream: Text, lines: seq<Text>): seq<Message> {
    if lines == [] then []
    else if |lines| == 1 then [Line(stream, lines[0])]
    else [Batch(stream, lines)]
  }

  function EmitLineStep(s: State, stream: Text, line: Text): State {
    var b := if stream in s.streams then s.streams[stream] else Buffer([], None, false);
    var b' := b.(lines := b.lines + [line]);
    var s' := s.(queued := s.queued[stream := Queued(s, stream) + [line]]);
    if b.pending then s'.(streams := s.streams[stream := b'])
    else s'.(streams := s.streams[stream := b'.(pending := true, timer := Some(s.timers.next))],
             timers := s.timers.AfterFunc(stream))
  }

  /** The locked part of flushStream. */
  function TakeLines(s: State, stream: Text): State {
    if stream in s.streams
    then s.(streams := s.streams[stream := s.streams[stream].(lines := [], pending := false)])
    else s
  }

  function TimerOf(s: State, stream: Text): Option<nat> {
    if stream in s.streams then s.streams[stream].timer else None
  }

  /** EmitError is FlushStream followed by an error message. */
  function ErrorMessages(stream: Text, error: Option<Text>): seq<Message> {
    if error.Some? then [Error(stream, error.value)] else []
  }

  predicate Enabled(s: State, step: Step) {
    match step
    case Expire(t) => t in s.timers.armed
    case Fire(t) => t in s.timers.due
    case Take(i) => i < |s.threads| && s.threads[i].Stopping?
    case EmitNext(i) => i < |s.threads| && s.threads[i].Emitting? && s.threads[i].messages != []
    case _ => true
  }

  function Next(s: State, step: Step): State
    requires Enabled(s, step)
  {
    match step
    case EmitLine(stream, line) => EmitLineStep(s, stream, line)
    case Expire(t) => s.(timers := s.timers.Expire(t))
    case Fire(t) =>
      var stream := s.timers.due[t];
      TakeLines(s, stream).(timers := s.timers.Begin(t),
                            threads := s.threads + [Emitting(Pack(stream, Lines(s, stream)))])
    case StartFlush(stream, error) =>
      s.(timers := s.timers.Stop(TimerOf(s, stream)),
         threads := s.threads + [Stopping(stream, ErrorMessages(stream, error))])
    case Take(i) =>
      var stream := s.threads[i].stream;
      TakeLines(s, stream).(threads := s.threads[i := Emitting(Pack(stream, Lines(s, stream)) + s.threads[i].rest)])
    case EmitDone(stream) =>
      s.(streams := s.streams - {stream},
         timers := s.timers.Stop(TimerOf(s, stream)),
         threads := s.threads + [Emitting(Pack(stream, Lines(s, stream)) + [Done(stream)])])
    case EmitNext(i) =>
      var m := s.threads[i].messages;
      s.(out := s.out + [m[0]], threads := s.threads[i := Emitting(m[1..])])
    case Cleanup(stream) =>
      s.(streams := s.streams - {stream}, timers := s.timers.Stop(TimerOf(s, stream)))
  }

  ghost predicate Feasible(s: State, steps: seq<Step>)
    decreases |steps|
  {
    steps == [] || (Enabled(s, steps[0]) && Feasible(Next(s, steps[0]), steps[1..]))
  }

  ghost function Exec(s: State, steps: seq<Step>): State
    requires Feasible(s, steps)
    decreases |steps|
  {
    if steps == [] then s else Exec(Next(s, steps[0]), steps[1..])
  }

  /** The first line of a quiet stream arms a timer and remembers it; further ones join
      the buffer. */
  lemma LineArmsOnce(s: State, stream: Text, line: Text)
    ensures var s', pending := Next(s, EmitLine(stream, line)), stream in s.streams && s.streams[stream].pending;
      && stream in s'.streams && s'.streams[stream].pending
      && s'.streams[stream].lines == Lines(s, stream) + [line] && s'.timers.due == s.timers.due
      && (pending ==> s'.timers == s.timers && s'.streams[stream].timer == s.streams[stream].timer)
      && (!pending ==> s'.timers.armed == s.timers.armed[s.timers.next := stream])
      && (!pending ==> s'.streams[stream].timer == Some(s.timers.next))
  {
  }

  /** A flush stops the timer the stream remembers, before it takes the lines. */
  lemma FlushStopsTheTimer(s: State, stream: Text, error: Option<Text>)
    ensures var s' := Next(s, StartFlush(stream, error));
      && s'.streams == s.streams && s'.timers.due == s.timers.due
      && (TimerOf(s, stream) == None ==> s'.timers == s.timers)
      && (stream in s.streams && s.streams[stream].timer.Some? ==>
            s'.timers.armed == s.timers.armed - {s.streams[stream].timer.value})
  {
  }

  // ---------------------------------------------------------------- where the lines are

  function LinesIn(m: Message, stream: Text): seq<Text> {
    match m
    case Line(id, line) => if id == stream then [line] else []
    case Batch(id, lines) => if id == stream then lines else []
    case _ => []
  }

  /** The lines of one stream in a sequence of messages, in order. */
  function LinesOf(ms: seq<Message>, stream: Text): seq<Text>
    decreases |ms|
  {
    if ms == [] then [] else LinesOf(ms[..|ms| - 1], stream) + LinesIn(ms[|ms| - 1], stream)
  }

  function ThreadLines(t: Thread, stream: Text): seq<Text> {
    LinesOf(if t.Stopping? then t.rest else t.messages, stream)
  }

  lemma {:induction false} LinesOfConcat(a: seq<Message>, b: seq<Message>, stream: Text)
    ensures LinesOf(a + b, stream) == LinesOf(a, stream) + LinesOf(b, stream)
    decreases |b|
  {
    if b == [] {
      assert a + b == a;
    } else {
      var init, last := b[..|b| - 1], b[|b| - 1];
      LinesOfConcat(a, init, stream);
      ConcatAssoc(LinesOf(a, stream), LinesOf(init, stream), LinesIn(last, stream));
      assert (a + b)[..|a + b| - 1] == a + init && (a + b)[|a + b| - 1] == last;
    }
  }

  lemma PackedLines(id: Text, lines: seq<Text>, stream: Text)
    ensures LinesOf(Pack(id, lines), stream) == if id == stream then lines else []
  {
    if lines != [] {
      var m := Pack(id, lines)[0];
      assert Pack(id, lines) == [m] && [m][..0] == [];
      assert LinesOf([m], stream) == LinesIn(m, stream);
    }
  }

  lemma LinesOfTail(ms: seq<Message>, stream: Text)
    requires ms != []
    ensures LinesOf(ms, stream) == LinesIn(ms[0], stream) + LinesOf(ms[1..], stream)
  {
    assert ms == [ms[0]] + ms[1..] && [ms[0]][..0] == [];
    LinesOfConcat([ms[0]], ms[1..], stream);
    assert LinesOf([ms[0]], stream) == LinesIn(ms[0], stream);
  }

  lemma LinesOfSnoc(ms: seq<Message>, m: Message, stream: Text)
    ensures LinesOf(ms + [m], stream) == LinesOf(ms, stream) + LinesIn(m, stream)
  {
    assert (ms + [m])[..|ms|] == ms;
  }

  lemma RestHasNoLines(id: Text, error: Option<Text>, stream: Text)
    ensures LinesOf(ErrorMessages(id, error), stream) == [] && LinesOf([Done(id)], stream) == []
  {
    assert [Done(id)][..0] == [];
    if error.Some? { assert ErrorMessages(id, error)[..0] == []; }
  }

  lemma TakenLines(id: Text, lines: seq<Text>, rest: seq<Message>, stream: Text)
    ensures LinesOf(Pack(id, lines) + rest, stream) == (if id == stream then lines else []) + LinesOf(rest, stream)
  {
    PackedLines(id, lines, stream);
    LinesOfConcat(Pack(id, lines), rest, stream);
  }

  lemma DoneLines(id: Text, lines: seq<Text>, stream: Text)
    ensures LinesOf(Pack(id, lines) + [Done(id)], stream) == if id == stream then lines else []
  {
    RestHasNoLines(id, None, stream);
    TakenLines(id, lines, [Done(id)], stream);
  }

  // ---------------------------------------------------------------- conservation

  function Occurs(lines: seq<Text>, text: Text): nat
    decreases |lines|
  {
    if lines == [] then 0 else Occurs(lines[..|lines| - 1], text) + (if lines[|lines| - 1] == text then 1 else 0)
  }

  lemma {:induction false} OccursConcat(a: seq<Text>, b: seq<Text>, text: Text)
    ensures Occurs(a + b, text) == Occurs(a, text) + Occurs(b, text)
    decreases |b|
  {
    if b == [] {
      assert a + b == a;
    } else {
      assert (a + b)[..|a + b| - 1] == a + b[..|b| - 1];
      OccursConcat(a, b[..|b| - 1], text);
    }
  }

  function Sum(ws: seq<nat>): nat
    decreases |ws|
  {
    if ws == [] then 0 else Sum(ws[..|ws| - 1]) + ws[|ws| - 1]
  }

  lemma {:induction false} SumReplaced(ws: seq<nat>, i: nat, w: nat)
    requires i < |ws|
    ensures Sum(ws[i := w]) == Sum(ws) - ws[i] + w
    decreases |ws|
  {
    var n := |ws| - 1;
    if i == n {
      assert ws[i := w][..n] == ws[..n];
    } else {
      assert ws[i := w][..n] == ws[..n][i := w];
      SumReplaced(ws[..n], i, w);
    }
  }

  lemma SumAppended(ws: seq<nat>, w: nat)
    ensures Sum(ws + [w]) == Sum(ws) + w
  {
    assert (ws + [w])[..|ws|] == ws;
  }

  function Weight(t: Thread, stream: Text, text: Text): nat {
    Occurs(ThreadLines(t, stream), text)
  }

  function Weights(threads: seq<Thread>, stream: Text, text: Text): seq<nat> {
    seq(|threads|, i requires 0 <= i < |threads| => Weight(threads[i], stream, text))
  }

  /** How often the goroutines carry the line `text` of the stream. */
  function Carried(threads: seq<Thread>, stream: Text, text: Text): nat {
    Sum(Weights(threads, stream, text))
  }

  lemma CarriedReplaced(threads: seq<Thread>, i: nat, t: Thread, stream: Text, text: Text)
    requires i < |threads|
    ensures Carried(threads[i := t], stream, text)
         == Carried(threads, stream, text) - Weight(threads[i], stream, text) + Weight(t, stream, text)
  {
    assert Weights(threads[i := t], stream, text) == Weights(threads, stream, text)[i := Weight(t, stream, text)];
    SumReplaced(Weights(threads, stream, text), i, Weight(t, stream, text));
  }

  lemma CarriedAppended(threads: seq<Thread>, t: Thread, stream: Text, text: Text)
    ensures Carried(threads + [t], stream, text) == Carried(threads, stream, text) + Weight(t, stream, text)
  {
    assert Weights(threads + [t], stream, text) == Weights(threads, stream, text) + [Weight(t, stream, text)];
    SumAppended(Weights(threads, stream, text), Weight(t, stream, text));
  }

  /** The line `text` was emitted, is carried or is buffered as often as it was queued. */
  ghost predicate Conserved(s: State, stream: Text, text: Text) {
    Occurs(LinesOf(s.out, stream), text) + Carried(s.threads, stream, text) + Occurs(Lines(s, stream), text)
      == Occurs(Queued(s, stream), text)
  }

  lemma EmitNextConserves(s: State, i: nat, stream: Text, text: Text)
    requires Conserved(s, stream, text) && Enabled(s, EmitNext(i))
    ensures Conserved(Next(s, EmitNext(i)), stream, text)
  {
    var m := s.threads[i].messages;
    LinesOfTail(m, stream);
    LinesOfSnoc(s.out, m[0], stream);
    OccursConcat(LinesIn(m[0], stream), LinesOf(m[1..], stream), text);
    OccursConcat(LinesOf(s.out, stream), LinesIn(m[0], stream), text);
    CarriedReplaced(s.threads, i, Emitting(m[1..]), stream, text);
  }

  lemma ReplacedThreadConserves(s: State, s': State, i: nat, t: Thread, stream: Text, text: Text)
    requires Conserved(s, stream, text) && i < |s.threads|
    requires s'.threads == s.threads[i := t] && s'.out == s.out && s'.queued == s.queued
    requires Occurs(ThreadLines(t, stream), text) + Occurs(Lines(s', stream), text)
          == Occurs(ThreadLines(s.threads[i], stream), text) + Occurs(Lines(s, stream), text)
    ensures Conserved(s', stream, text)
  {
    CarriedReplaced(s.threads, i, t, stream, text);
  }

  lemma TakeConserves(s: State, i: nat, stream: Text, text: Text)
    requires Conserved(s, stream, text) && Enabled(s, Take(i))
    ensures Conserved(Next(s, Take(i)), stream, text)
  {
    var id := s.threads[i].stream;
    var taken := if id == stream then Lines(s, id) else [];
    var t := Emitting(Pack(id, Lines(s, id)) + s.threads[i].rest);
    assert ThreadLines(t, stream) == taken + LinesOf(s.threads[i].rest, stream) by {
      TakenLines(id, Lines(s, id), s.threads[i].rest, stream);
    }
    OccursConcat(taken, LinesOf(s.threads[i].rest, stream), text);
    assert Lines(Next(s, Take(i)), stream) == if id == stream then [] else Lines(s, stream);
    ReplacedThreadConserves(s, Next(s, Take(i)), i, t, stream, text);
  }

  /** A goroutine that takes the stream's lines on its first step, or takes none. */
  lemma NewThreadConserves(s: State, s': State, t: Thread, stream: Text, text: Text)
    requires Conserved(s, stream, text) && s'.threads == s.threads + [t] && s'.out == s.out && s'.queued == s.queued
    requires Occurs(ThreadLines(t, stream), text) + Occurs(Lines(s', stream), text) == Occurs(Lines(s, stream), text)
    ensures Conserved(s', stream, text)
  {
    CarriedAppended(s.threads, t, stream, text);
  }

  lemma FireConserves(s: State, timer: nat, stream: Text, text: Text)
    requires Conserved(s, stream, text) && Enabled(s, Fire(timer))
    ensures Conserved(Next(s, Fire(timer)), stream, text)
  {
    var id := s.timers.due[timer];
    PackedLines(id, Lines(s, id), stream);
    NewThreadConserves(s, Next(s, Fire(timer)), Emitting(Pack(id, Lines(s, id))), stream, text);
  }

  lemma StartFlushConserves(s: State, id: Text, error: Option<Text>, stream: Text, text: Text)
    requires Conserved(s, stream, text)
    ensures Conserved(Next(s, StartFlush(id, error)), stream, text)
  {
    RestHasNoLines(id, error, stream);
    NewThreadConserves(s, Next(s, StartFlush(id, error)), Stopping(id, ErrorMessages(id, error)), stream, text);
  }

  lemma EmitDoneConserves(s: State, id: Text, stream: Text, text: Text)
    requires Conserved(s, stream, text)
    ensures Conserved(Next(s, EmitDone(id)), stream, text)
  {
    DoneLines(id, Lines(s, id), stream);
    NewThreadConserves(s, Next(s, EmitDone(id)), Emitting(Pack(id, Lines(s, id)) + [Done(id)]), stream, text);
  }

  lemma EmitLineConserves(s: State, id: Text, line: Text, stream: Text, text: Text)
    requires Conserved(s, stream, text)
    ensures Conserved(EmitLineStep(s, id, line), stream, text)
  {
    var s' := EmitLineStep(s, id, line);
    if id == stream {
      assert Lines(s', stream) == Lines(s, stream) + [line] && Queued(s', stream) == Queued(s, stream) + [line];
      OccursConcat(Lines(s, stream), [line], text);
      OccursConcat(Queued(s, stream), [line], text);
    } else {
      assert Lines(s', stream) == Lines(s, stream) && Queued(s', stream) == Queued(s, stream);
    }
  }

  lemma NextConserves(s: State, step: Step, stream: Text, text: Text)
    requires Conserved(s, stream, text) && Enabled(s, step) && !step.Cleanup?
    ensures Conserved(Next(s, step), stream, text)
  {
    match step
    case EmitNext(i) => EmitNextConserves(s, i, stream, text);
    case Take(i) => TakeConserves(s, i, stream, text);
    case Fire(timer) => FireConserves(s, timer, stream, text);
    case StartFlush(id, error) => StartFlushConserves(s, id, error, stream, text);
    case EmitDone(id) => EmitDoneConserves(s, id, stream, text);
    case EmitLine(id, line) => EmitLineConserves(s, id, line, stream, text);
    case Expire(_) =>
  }

  /** Main result: no interleaving loses or duplicates a line. */
  lemma {:induction false} EveryRunConservesLines(s: State, steps: seq<Step>, stream: Text, text: Text)
    requires Conserved(s, stream, text) && Feasible(s, steps)
    requires forall step | step in steps :: !step.Cleanup?
    ensures Conserved(Exec(s, steps), stream, text)
    decreases |steps|
  {
    if steps != [] {
      assert !steps[0].Cleanup?;
      NextConserves(s, steps[0], stream, text);
      EveryRunConservesLines(Next(s, steps[0]), steps[1..], stream, text);
    }
  }

  lemma InitConserved(stream: Text, text: Text)
    ensures Conserved(Init(), stream, text)
  {
  }

  // ---------------------------------------------------------------- order

  /** The lines of one stream that each goroutine carries. */
  function Loads(threads: seq<Thread>, stream: Text): seq<seq<Text>> {
    seq(|threads|, i requires 0 <= i < |threads| => ThreadLines(threads[i], stream))
  }

  lemma LoadsChanged(threads: seq<Thread>, i: nat, t: Thread, stream: Text)
    ensures Loads(threads + [t], stream) == Loads(threads, stream) + [ThreadLines(t, stream)]
    ensures i < |threads| ==> Loads(threads[i := t], stream) == Loads(threads, stream)[i := ThreadLines(t, stream)]
  {
  }

  ghost predicate NoneButOne(loads: seq<seq<Text>>, c: int) {
    forall i | 0 <= i < |loads| && i != c :: loads[i] == []
  }

  function LoadOf(loads: seq<seq<Text>>, c: int): seq<Text> {
    if 0 <= c < |loads| then loads[c] else []
  }

  /** Goroutine c, if any, carries lines, nobody else does, and emitted, carried
      and buffered lines together are the queued lines in order. */
  ghost predicate InOrder(out: seq<Text>, loads: seq<seq<Text>>, c: int, buffered: seq<Text>, queued: seq<Text>) {
    NoneButOne(loads, c) && out + LoadOf(loads, c) + buffered == queued
  }

  ghost predicate Serial(s: State, c: int, stream: Text) {
    InOrder(LinesOf(s.out, stream), Loads(s.threads, stream), c, Lines(s, stream), Queued(s, stream))
  }

  ghost predicate Ordered(s: State, stream: Text) {
    exists c :: Serial(s, c, stream)
  }

  ghost predicate NobodyCarries(s: State, stream: Text) {
    NoneButOne(Loads(s.threads, stream), -1)
  }

  /** The step takes whatever lines the stream has buffered. */
  ghost predicate Takes(s: State, step: Step, stream: Text)
    requires Enabled(s, step)
  {
    match step
    case Fire(t) => s.timers.due[t] == stream
    case Take(i) => s.threads[i].stream == stream
    case EmitDone(id) => id == stream
    case _ => false
  }

  /** The step takes no lines of the stream while a goroutine still carries some. */
  ghost predicate NoOverlap(s: State, step: Step, stream: Text)
    requires Enabled(s, step)
  {
    Takes(s, step, stream) && Lines(s, stream) != [] ==> NobodyCarries(s, stream)
  }

  /** Goroutine i emits the first of its lines. */
  lemma MoveOut(out: seq<Text>, loads: seq<seq<Text>>, i: nat, first: seq<Text>, rest: seq<Text>, c: int,
      buffered: seq<Text>, queued: seq<Text>)
    requires InOrder(out, loads, c, buffered, queued) && i < |loads| && loads[i] == first + rest
    ensures InOrder(out + first, loads[i := rest], c, buffered, queued)
  {
    ConcatAssoc(out, first, rest);
    if i != c {
      assert first == [] && rest == [];
      assert loads[i := rest] == loads && out + first == out;
    }
  }

  /** Goroutine i, or a new one, takes the whole buffer when nobody carries lines. */
  lemma MoveIn(out: seq<Text>, loads: seq<seq<Text>>, i: nat, c: int, buffered: seq<Text>, queued: seq<Text>)
    requires InOrder(out, loads, c, buffered, queued) && NoneButOne(loads, -1)
    ensures InOrder(out, loads + [buffered], |loads|, [], queued)
    ensures i < |loads| ==> InOrder(out, loads[i := buffered], i, [], queued)
  {
    assert LoadOf(loads, c) == [];
    assert out + LoadOf(loads, c) == out;
  }

  /** A new goroutine carries nothing, or goroutine i goes on carrying nothing. */
  lemma NoMove(out: seq<Text>, loads: seq<seq<Text>>, i: nat, c: int, buffered: seq<Text>, queued: seq<Text>)
    requires InOrder(out, loads, c, buffered, queued)
    ensures InOrder(out, loads + [[]], if c == |loads| then -1 else c, buffered, queued)
    ensures i < |loads| && loads[i] == [] ==> loads[i := []] == loads
  {
  }

  lemma EmitNextKeepsSerial(s: State, i: nat, c: int, stream: Text)
    requires Serial(s, c, stream) && Enabled(s, EmitNext(i))
    ensures Serial(Next(s, EmitNext(i)), c, stream)
  {
    var m := s.threads[i].messages;
    LinesOfTail(m, stream);
    LinesOfSnoc(s.out, m[0], stream);
    LoadsChanged(s.threads, i, Emitting(m[1..]), stream);
    MoveOut(LinesOf(s.out, stream), Loads(s.threads, stream), i, LinesIn(m[0], stream), LinesOf(m[1..], stream), c,
            Lines(s, stream), Queued(s, stream));
  }

  /** Goroutine i, or a new one, becomes t: it takes the stream's lines or none. */
  lemma TakingKeepsOrdered(s: State, s': State, i: nat, t: Thread, c: int, stream: Text)
    requires Serial(s, c, stream) && i <= |s.threads|
    requires s'.threads == if i < |s.threads| then s.threads[i := t] else s.threads + [t]
    requires s'.out == s.out && s'.queued == s.queued
    requires i < |s.threads| ==> ThreadLines(s.threads[i], stream) == []
    requires || (ThreadLines(t, stream) == [] && Lines(s', stream) == Lines(s, stream))
             || (NobodyCarries(s, stream) && ThreadLines(t, stream) == Lines(s, stream) && Lines(s', stream) == [])
    ensures Ordered(s', stream)
  {
    var out, loads, buffered, queued :=
      LinesOf(s.out, stream), Loads(s.threads, stream), Lines(s, stream), Queued(s, stream);
    LoadsChanged(s.threads, i, t, stream);
    if ThreadLines(t, stream) == [] && Lines(s', stream) == buffered {
      NoMove(out, loads, i, c, buffered, queued);
      assert Serial(s', if i < |loads| || c != |loads| then c else -1, stream);
    } else {
      MoveIn(out, loads, i, c, buffered, queued);
      assert Serial(s', i, stream);
    }
  }

  /** Every goroutine that is stopping has only messages without lines to follow. */
  ghost predicate PlainRests(s: State) {
    forall i, stream | 0 <= i < |s.threads| && s.threads[i].Stopping? :: LinesOf(s.threads[i].rest, stream) == []
  }

  lemma NextKeepsPlainRests(s: State, step: Step)
    requires PlainRests(s) && Enabled(s, step)
    ensures PlainRests(Next(s, step))
  {
    if step.StartFlush? {
      forall stream ensures LinesOf(ErrorMessages(step.stream, step.error), stream) == [] {
        RestHasNoLines(step.stream, step.error, stream);
      }
    }
  }

  lemma TakeKeepsOrdered(s: State, i: nat, c: int, stream: Text)
    requires PlainRests(s) && Serial(s, c, stream) && Enabled(s, Take(i)) && NoOverlap(s, Take(i), stream)
    ensures Ordered(Next(s, Take(i)), stream)
  {
    var id := s.threads[i].stream;
    TakenLines(id, Lines(s, id), s.threads[i].rest, stream);
    TakingKeepsOrdered(s, Next(s, Take(i)), i, Emitting(Pack(id, Lines(s, id)) + s.threads[i].rest), c, stream);
  }

  lemma FireKeepsOrdered(s: State, timer: nat, c: int, stream: Text)
    requires Serial(s, c, stream) && Enabled(s, Fire(timer)) && NoOverlap(s, Fire(timer), stream)
    ensures Ordered(Next(s, Fire(timer)), stream)
  {
    var id := s.timers.due[timer];
    PackedLines(id, Lines(s, id), stream);
    TakingKeepsOrdered(s, Next(s, Fire(timer)), |s.threads|, Emitting(Pack(id, Lines(s, id))), c, stream);
  }

  lemma StartFlushKeepsOrdered(s: State, id: Text, error: Option<Text>, c: int, stream: Text)
    requires Serial(s, c, stream)
    ensures Ordered(Next(s, StartFlush(id, error)), stream)
  {
    RestHasNoLines(id, error, stream);
    TakingKeepsOrdered(s, Next(s, StartFlush(id, error)), |s.threads|, Stopping(id, ErrorMessages(id, error)), c,
      stream);
  }

  lemma EmitDoneKeepsOrdered(s: State, id: Text, c: int, stream: Text)
    requires Serial(s, c, stream) && NoOverlap(s, EmitDone(id), stream)
    ensures Ordered(Next(s, EmitDone(id)), stream)
  {
    DoneLines(id, Lines(s, id), stream);
    TakingKeepsOrdered(s, Next(s, EmitDone(id)), |s.threads|, Emitting(Pack(id, Lines(s, id)) + [Done(id)]), c, stream);
  }

  lemma EmitLineKeepsSerial(s: State, id: Text, line: Text, c: int, stream: Text)
    requires Serial(s, c, stream)
    ensures Serial(EmitLineStep(s, id, line), c, stream)
  {
    ConcatAssoc(LinesOf(s.out, stream) + LoadOf(Loads(s.threads, stream), c), Lines(s, stream), [line]);
  }

  lemma NextKeepsOrdered(s: State, step: Step, stream: Text)
    requires PlainRests(s) && Ordered(s, stream)
    requires Enabled(s, step) && !step.Cleanup? && NoOverlap(s, step, stream)
    ensures Ordered(Next(s, step), stream)
  {
    var c :| Serial(s, c, stream);
    match step
    case EmitNext(i) => EmitNextKeepsSerial(s, i, c, stream);
    case Take(i) => TakeKeepsOrdered(s, i, c, stream);
    case Fire(timer) => FireKeepsOrdered(s, timer, c, stream);
    case StartFlush(id, error) => StartFlushKeepsOrdered(s, id, error, c, stream);
    case EmitDone(id) => EmitDoneKeepsOrdered(s, id, c, stream);
    case EmitLine(id, line) => EmitLineKeepsSerial(s, id, line, c, stream);
    case Expire(_) => assert Serial(Next(s, step), c, stream);
  }

  /** With two goroutines carrying lines, no order of the goroutines is right. */
  lemma TwoCarriers(s: State, i: nat, j: nat, stream: Text)
    requires i < |s.threads| && j < |s.threads| && i != j
    requires ThreadLines(s.threads[i], stream) != [] && ThreadLines(s.threads[j], stream) != []
    ensures !Ordered(s, stream)
  {
    var loads := Loads(s.threads, stream);
    assert loads[i] != [] && loads[j] != [];
  }

  /** Some goroutine carries lines of the stream. */
  lemma CarrierExists(s: State, stream: Text) returns (k: nat)
    requires !NobodyCarries(s, stream)
    ensures k < |s.threads| && ThreadLines(s.threads[k], stream) != []
  {
    var loads := Loads(s.threads, stream);
    k :| 0 <= k < |loads| && loads[k] != [];
  }

  lemma OverlapBreaksOrder(s: State, step: Step, stream: Text)
    requires PlainRests(s) && Enabled(s, step) && !NoOverlap(s, step, stream)
    ensures !Ordered(Next(s, step), stream)
  {
    var s', lines := Next(s, step), Lines(s, stream);
    var k := CarrierExists(s, stream);
    match step
    case Fire(_) =>
      PackedLines(stream, lines, stream);
      TwoCarriers(s', k, |s.threads|, stream);
    case Take(i) =>
      assert LinesOf(s.threads[i].rest, stream) == [];
      TakenLines(stream, lines, s.threads[i].rest, stream);
      TwoCarriers(s', k, i, stream);
    case EmitDone(_) =>
      DoneLines(stream, lines, stream);
      TwoCarriers(s', k, |s.threads|, stream);
  }

  /** Main result for one step: the order is kept if and only if the step does not
      take lines while others are still carried. */
  lemma OrderIsKeptIff(s: State, step: Step, stream: Text)
    requires PlainRests(s) && Ordered(s, stream) && Enabled(s, step) && !step.Cleanup?
    ensures Ordered(Next(s, step), stream) <==> NoOverlap(s, step, stream)
  {
    if NoOverlap(s, step, stream) {
      NextKeepsOrdered(s, step, stream);
    } else {
      OverlapBreaksOrder(s, step, stream);
    }
  }

  ghost predicate NoOverlaps(s: State, steps: seq<Step>, stream: Text)
    requires Feasible(s, steps)
    decreases |steps|
  {
    steps == [] || (NoOverlap(s, steps[0], stream) && NoOverlaps(Next(s, steps[0]), steps[1..], stream))
  }

  ghost predicate OrderedThroughout(s: State, steps: seq<Step>, stream: Text)
    requires Feasible(s, steps)
    decreases |steps|
  {
    Ordered(s, stream) && (steps == [] || OrderedThroughout(Next(s, steps[0]), steps[1..], stream))
  }

  /** Main result for runs: a run is in order throughout if and only if no take
      overlaps an unfinished emission of lines. */
  lemma {:induction false} OrderedThroughoutIff(s: State, steps: seq<Step>, stream: Text)
    requires PlainRests(s) && Ordered(s, stream) && Feasible(s, steps)
    requires forall step | step in steps :: !step.Cleanup?
    ensures OrderedThroughout(s, steps, stream) <==> NoOverlaps(s, steps, stream)
    decreases |steps|
  {
    if steps != [] {
      var s', rest := Next(s, steps[0]), steps[1..];
      assert !steps[0].Cleanup?;
      OrderIsKeptIff(s, steps[0], stream);
      NextKeepsPlainRests(s, steps[0]);
      if NoOverlap(s, steps[0], stream) {
        OrderedThroughoutIff(s', rest, stream);
      } else {
        assert !OrderedThroughout(s', rest, stream);
      }
    }
  }

  /** Main result: as long as no flush of the stream takes lines while another one
      still carries some, lines come out in the order they were queued. */
  lemma {:induction false} SerialFlushesKeepOrder(s: State, steps: seq<Step>, stream: Text)
    requires PlainRests(s) && Ordered(s, stream) && Feasible(s, steps) && NoOverlaps(s, steps, stream)
    requires forall step | step in steps :: !step.Cleanup?
    ensures var s' := Exec(s, steps);
      PlainRests(s') && Ordered(s', stream) && LinesOf(s'.out, stream) <= Queued(s', stream)
    decreases |steps|
  {
    if steps == [] {
      var c :| Serial(s, c, stream);
      ConcatAssoc(LinesOf(s.out, stream), LoadOf(Loads(s.threads, stream), c), Lines(s, stream));
    } else {
      assert !steps[0].Cleanup?;
      NextKeepsPlainRests(s, steps[0]);
      NextKeepsOrdered(s, steps[0], stream);
      SerialFlushesKeepOrder(Next(s, steps[0]), steps[1..], stream);
    }
  }

  lemma InitOrdered(stream: Text)
    ensures PlainRests(Init()) && Ordered(Init(), stream)
  {
    assert Serial(Init(), -1, stream);
  }

  // ---------------------------------------------------------------- Done comes last

  /** The lines queued before EmitDone are emitted, or goroutine d, which will emit
      Done, still carries the rest of them. */
  ghost predicate DoneWaits(s: State, d: nat, stream: Text, before: seq<Text>) {
    && d < |s.threads| && s.threads[d].Emitting?
    && before <= LinesOf(s.out, stream) + LinesOf(s.threads[d].messages, stream)
  }

  lemma NobodyCarriesNothing(out: seq<Text>, loads: seq<seq<Text>>, c: int, buffered: seq<Text>, queued: seq<Text>)
    requires InOrder(out, loads, c, buffered, queued) && NoneButOne(loads, -1)
    ensures out + buffered == queued
  {
    assert LoadOf(loads, c) == [] && out + [] == out;
  }

  lemma EmitDoneStartsWaiting(s: State, c: int, stream: Text)
    requires Serial(s, c, stream) && NobodyCarries(s, stream)
    ensures DoneWaits(Next(s, EmitDone(stream)), |s.threads|, stream, Queued(s, stream))
  {
    var lines := Lines(s, stream);
    DoneLines(stream, lines, stream);
    NobodyCarriesNothing(LinesOf(s.out, stream), Loads(s.threads, stream), c, lines, Queued(s, stream));
    var t := Emitting(Pack(stream, lines) + [Done(stream)]);
    assert Next(s, EmitDone(stream)).threads == s.threads + [t] && (s.threads + [t])[|s.threads|] == t;
  }

  /** Goroutine i emits one message: its lines are put out, and only it carries less. */
  lemma EmitNextMoves(s: State, i: nat, d: nat, stream: Text)
    requires Enabled(s, EmitNext(i)) && d < |s.threads| && s.threads[d].Emitting?
    ensures var s', first := Next(s, EmitNext(i)), LinesIn(s.threads[i].messages[0], stream);
      && d < |s'.threads| && s'.threads[d].Emitting?
      && LinesOf(s'.out, stream) == LinesOf(s.out, stream) + first
      && LinesOf(s.threads[d].messages, stream)
        == (if i == d then first else []) + LinesOf(s'.threads[d].messages, stream)
  {
    var m := s.threads[i].messages;
    LinesOfTail(m, stream);
    LinesOfSnoc(s.out, m[0], stream);
  }

  /** When d carries lines, nobody else has any to emit. */
  lemma OthersAreSilent(s: State, i: nat, c: int, d: nat, stream: Text)
    requires Enabled(s, EmitNext(i)) && i != d && d < |s.threads| && s.threads[d].Emitting?
    requires NoneButOne(Loads(s.threads, stream), c)
    ensures LinesOf(s.threads[d].messages, stream) == [] || LinesIn(s.threads[i].messages[0], stream) == []
  {
    var loads := Loads(s.threads, stream);
    LinesOfTail(s.threads[i].messages, stream);
    assert loads[i] == LinesOf(s.threads[i].messages, stream) && loads[d] == LinesOf(s.threads[d].messages, stream);
  }

  lemma PrefixGrows(before: seq<Text>, out: seq<Text>, first: seq<Text>, own: seq<Text>)
    requires before <= out + own && (own == [] || first == [])
    ensures before <= (out + first) + own
  {
    if own == [] {
      assert out + own == out && (out + first) + own == out + first;
    } else {
      assert out + first == out;
    }
  }

  lemma EmitNextKeepsWaiting(s: State, i: nat, c: int, d: nat, stream: Text, before: seq<Text>)
    requires Serial(s, c, stream) && Enabled(s, EmitNext(i)) && DoneWaits(s, d, stream, before)
    ensures DoneWaits(Next(s, EmitNext(i)), d, stream, before)
  {
    var s', first := Next(s, EmitNext(i)), LinesIn(s.threads[i].messages[0], stream);
    var out, own := LinesOf(s.out, stream), LinesOf(s'.threads[d].messages, stream);
    EmitNextMoves(s, i, d, stream);
    if i == d {
      ConcatAssoc(out, first, own);
    } else {
      OthersAreSilent(s, i, c, d, stream);
      PrefixGrows(before, out, first, own);
    }
  }

  lemma NextKeepsWaiting(s: State, step: Step, d: nat, stream: Text, before: seq<Text>)
    requires Ordered(s, stream) && Enabled(s, step) && DoneWaits(s, d, stream, before)
    ensures DoneWaits(Next(s, step), d, stream, before)
  {
    if step.EmitNext? {
      var c :| Serial(s, c, stream);
      EmitNextKeepsWaiting(s, step.thread, c, d, stream, before);
    }
  }

  lemma {:induction false} RunKeepsWaiting(s: State, steps: seq<Step>, d: nat, stream: Text, before: seq<Text>)
    requires PlainRests(s) && Ordered(s, stream) && Feasible(s, steps) && NoOverlaps(s, steps, stream)
    requires forall step | step in steps :: !step.Cleanup?
    requires DoneWaits(s, d, stream, before)
    ensures DoneWaits(Exec(s, steps), d, stream, before)
    decreases |steps|
  {
    if steps != [] {
      assert !steps[0].Cleanup?;
      NextKeepsWaiting(s, steps[0], d, stream, before);
      NextKeepsPlainRests(s, steps[0]);
      NextKeepsOrdered(s, steps[0], stream);
      RunKeepsWaiting(Next(s, steps[0]), steps[1..], d, stream, before);
    }
  }

  /** Main result: in runs without overlapping flushes, when the goroutine of
      EmitDone has nothing but Done left to emit, every line queued before EmitDone
      has been emitted, in order. */
  lemma DoneFollowsEarlierLines(s: State, steps: seq<Step>, stream: Text)
    requires PlainRests(s) && Ordered(s, stream) && NobodyCarries(s, stream)
    requires Feasible(Next(s, EmitDone(stream)), steps) && NoOverlaps(Next(s, EmitDone(stream)), steps, stream)
    requires forall step | step in steps :: !step.Cleanup?
    ensures var s' := Exec(Next(s, EmitDone(stream)), steps);
      && |s.threads| < |s'.threads| && s'.threads[|s.threads|].Emitting?
      && (s'.threads[|s.threads|].messages in [[Done(stream)], []] ==> Queued(s, stream) <= LinesOf(s'.out, stream))
  {
    var s1 := Next(s, EmitDone(stream));
    var c :| Serial(s, c, stream);
    EmitDoneStartsWaiting(s, c, stream);
    NextKeepsPlainRests(s, EmitDone(stream));
    NextKeepsOrdered(s, EmitDone(stream), stream);
    RunKeepsWaiting(s1, steps, |s.threads|, stream, Queued(s, stream));
    NothingWaits(Exec(s1, steps), |s.threads|, stream, Queued(s, stream));
  }

  lemma NothingWaits(s: State, d: nat, stream: Text, before: seq<Text>)
    requires DoneWaits(s, d, stream, before)
    ensures s.threads[d].messages in [[Done(stream)], []] ==> before <= LinesOf(s.out, stream)
  {
    RestHasNoLines(stream, None, stream);
  }

  lemma FirstStep(s: State, step: Step, rest: seq<Step>)
    requires Enabled(s, step) && Feasible(Next(s, step), rest)
    ensures Feasible(s, [step] + rest) && Exec(s, [step] + rest) == Exec(Next(s, step), rest)
  {
    assert ([step] + rest)[1..] == rest;
  }

  // ---------------------------------------------------------------- emissions in one go

  /** Goroutine i emits all the messages it has left, with nobody in between. */
  function RunOut(s: State, i: nat): State
    requires i < |s.threads| && s.threads[i].Emitting?
  {
    s.(out := s.out + s.threads[i].messages, threads := s.threads[i := Emitting([])])
  }

  function Repeat(step: Step, n: nat): seq<Step> {
    if n == 0 then [] else [step] + Repeat(step, n - 1)
  }

  /** Running a goroutine out is a run of single emissions. */
  lemma {:induction false} RunOutIsRun(s: State, i: nat)
    requires i < |s.threads| && s.threads[i].Emitting?
    ensures var steps := Repeat(EmitNext(i), |s.threads[i].messages|);
      Feasible(s, steps) && Exec(s, steps) == RunOut(s, i)
    decreases |s.threads[i].messages|
  {
    var m := s.threads[i].messages;
    if m == [] {
      assert s.out + m == s.out && s.threads[i := Emitting([])] == s.threads;
    } else {
      var s' := Next(s, EmitNext(i));
      RunOutIsRun(s', i);
      assert s.out + [m[0]] + m[1..] == s.out + m;
      assert s'.threads[i := Emitting([])] == s.threads[i := Emitting([])];
      assert Repeat(EmitNext(i), |m|)[1..] == Repeat(EmitNext(i), |m| - 1);
    }
  }

  // ---------------------------------------------------------------- when Done and Error come last

  ghost predicate AllConserved(s: State, stream: Text) {
    forall text :: Conserved(s, stream, text)
  }

  /** Every line queued before is emitted as often, or goroutine d still carries it. */
  ghost predicate Owes(s: State, d: nat, stream: Text, before: seq<Text>) {
    && d < |s.threads| && s.threads[d].Emitting?
    && forall text ::
         Occurs(before, text)
           <= Occurs(LinesOf(s.out, stream), text) + Occurs(LinesOf(s.threads[d].messages, stream), text)
  }

  /** If goroutine d has nothing but its notice left, every line queued before is out. */
  ghost predicate NothingOwed(s: State, d: nat, stream: Text, before: seq<Text>, notice: Message) {
    && d < |s.threads| && s.threads[d].Emitting?
    && (s.threads[d].messages in [[notice], []] ==>
          forall text :: Occurs(before, text) <= Occurs(LinesOf(s.out, stream), text))
  }

  /** In no run from here does the notice of goroutine d overtake a line queued before. */
  ghost predicate NoticeIsLast(s: State, d: nat, stream: Text, before: seq<Text>, notice: Message) {
    forall steps: seq<Step> | Feasible(s, steps) :: NothingOwed(Exec(s, steps), d, stream, before, notice)
  }

  lemma EmitNextKeepsOwing(s: State, i: nat, d: nat, stream: Text, before: seq<Text>)
    requires Enabled(s, EmitNext(i)) && Owes(s, d, stream, before)
    ensures Owes(Next(s, EmitNext(i)), d, stream, before)
  {
    var m := s.threads[i].messages;
    LinesOfTail(m, stream);
    LinesOfSnoc(s.out, m[0], stream);
    forall text ensures Occurs(LinesOf(s.out + [m[0]], stream), text)
                     == Occurs(LinesOf(s.out, stream), text) + Occurs(LinesIn(m[0], stream), text)
      && Occurs(LinesOf(m, stream), text) == Occurs(LinesIn(m[0], stream), text) + Occurs(LinesOf(m[1..], stream), text)
    {
      OccursConcat(LinesOf(s.out, stream), LinesIn(m[0], stream), text);
      OccursConcat(LinesIn(m[0], stream), LinesOf(m[1..], stream), text);
    }
  }

  lemma NextKeepsOwing(s: State, step: Step, d: nat, stream: Text, before: seq<Text>)
    requires Enabled(s, step) && Owes(s, d, stream, before)
    ensures Owes(Next(s, step), d, stream, before)
  {
    if step.EmitNext? {
      EmitNextKeepsOwing(s, step.thread, d, stream, before);
    } else {
      assert Next(s, step).out == s.out && Next(s, step).threads[d] == s.threads[d];
    }
  }

  lemma {:induction false} RunKeepsOwing(s: State, steps: seq<Step>, d: nat, stream: Text, before: seq<Text>)
    requires Feasible(s, steps) && Owes(s, d, stream, before)
    ensures Owes(Exec(s, steps), d, stream, before)
    decreases |steps|
  {
    if steps != [] {
      NextKeepsOwing(s, steps[0], d, stream, before);
      RunKeepsOwing(Next(s, steps[0]), steps[1..], d, stream, before);
    }
  }

  lemma {:induction false} SumOfZeros(ws: seq<nat>)
    requires forall i | 0 <= i < |ws| :: ws[i] == 0
    ensures Sum(ws) == 0
  {
    if ws != [] { SumOfZeros(ws[..|ws| - 1]); }
  }

  lemma {:induction false} SumIsAtLeast(ws: seq<nat>, i: nat)
    requires i < |ws|
    ensures Sum(ws) >= ws[i]
  {
    if i < |ws| - 1 { SumIsAtLeast(ws[..|ws| - 1], i); }
  }

  lemma NothingCarried(s: State, stream: Text, text: Text)
    requires NobodyCarries(s, stream)
    ensures Carried(s.threads, stream, text) == 0
  {
    forall i | 0 <= i < |s.threads| ensures Weights(s.threads, stream, text)[i] == 0 {
      assert Loads(s.threads, stream)[i] == [];
    }
    SumOfZeros(Weights(s.threads, stream, text));
  }

  lemma {:induction false} FirstOccurs(lines: seq<Text>)
    requires lines != []
    ensures Occurs(lines, lines[0]) >= 1
  {
    if |lines| > 1 { FirstOccurs(lines[..|lines| - 1]); }
  }

  /** The goroutine has all lines of the stream before its notice. */
  ghost predicate HasTaken(s: State, s1: State, d: nat, stream: Text) {
    && s1.out == s.out && d < |s1.threads| && s1.threads[d].Emitting?
    && LinesOf(s1.threads[d].messages, stream) == Lines(s, stream)
  }

  lemma EmitDoneTakes(s: State, stream: Text)
    ensures HasTaken(s, Next(s, EmitDone(stream)), |s.threads|, stream)
  {
    var t := Emitting(Pack(stream, Lines(s, stream)) + [Done(stream)]);
    DoneLines(stream, Lines(s, stream), stream);
    assert Next(s, EmitDone(stream)).threads == s.threads + [t] && (s.threads + [t])[|s.threads|] == t;
  }

  lemma FlushTakes(s: State, i: nat, stream: Text, error: Text)
    requires i < |s.threads| && s.threads[i] == Stopping(stream, ErrorMessages(stream, Some(error)))
    ensures HasTaken(s, Next(s, Take(i)), i, stream)
  {
    var lines, rest := Lines(s, stream), s.threads[i].rest;
    RestHasNoLines(stream, Some(error), stream);
    TakenLines(stream, lines, rest, stream);
    assert lines + [] == lines && Next(s, Take(i)).threads[i] == Emitting(Pack(stream, lines) + rest);
  }

  /** Goroutine d has just taken all lines of the stream, and nobody carried any. */
  lemma TakingOwes(s: State, s1: State, d: nat, stream: Text)
    requires AllConserved(s, stream) && NobodyCarries(s, stream) && HasTaken(s, s1, d, stream)
    ensures Owes(s1, d, stream, Queued(s, stream))
  {
    forall text
      ensures Occurs(Queued(s, stream), text) <= Occurs(LinesOf(s1.out, stream), text) + Occurs(Lines(s, stream), text)
    {
      assert Conserved(s, stream, text);
      NothingCarried(s, stream, text);
    }
  }

  lemma SomethingCarried(s: State, stream: Text) returns (text: Text)
    requires !NobodyCarries(s, stream)
    ensures Carried(s.threads, stream, text) >= 1
  {
    var k := CarrierExists(s, stream);
    text := ThreadLines(s.threads[k], stream)[0];
    FirstOccurs(ThreadLines(s.threads[k], stream));
    SumIsAtLeast(Weights(s.threads, stream, text), k);
  }

  /** If somebody carries a line, emitting all that d has taken at once leaves it behind. */
  lemma CarriedLineIsOvertaken(s: State, s1: State, d: nat, stream: Text, notice: Message)
    requires AllConserved(s, stream) && !NobodyCarries(s, stream) && HasTaken(s, s1, d, stream)
    ensures !NoticeIsLast(s1, d, stream, Queued(s, stream), notice)
  {
    var text := SomethingCarried(s, stream);
    var ms := s1.threads[d].messages;
    RunOutIsRun(s1, d);
    var steps := Repeat(EmitNext(d), |ms|);
    var s2 := Exec(s1, steps);
    LinesOfConcat(s.out, ms, stream);
    OccursConcat(LinesOf(s.out, stream), Lines(s, stream), text);
    assert Conserved(s, stream, text);
    assert Occurs(Queued(s, stream), text) > Occurs(LinesOf(s2.out, stream), text);
    assert !NothingOwed(s2, d, stream, Queued(s, stream), notice);
  }

  lemma NoticeIsLastIff(s: State, s1: State, d: nat, stream: Text, notice: Message)
    requires AllConserved(s, stream) && HasTaken(s, s1, d, stream) && LinesIn(notice, stream) == []
    ensures NoticeIsLast(s1, d, stream, Queued(s, stream), notice) <==> NobodyCarries(s, stream)
  {
    if NobodyCarries(s, stream) {
      TakingOwes(s, s1, d, stream);
      forall steps: seq<Step> | Feasible(s1, steps)
        ensures NothingOwed(Exec(s1, steps), d, stream, Queued(s, stream), notice)
      {
        RunKeepsOwing(s1, steps, d, stream, Queued(s, stream));
        OwesNothingMore(Exec(s1, steps), d, stream, Queued(s, stream), notice);
      }
    } else {
      CarriedLineIsOvertaken(s, s1, d, stream, notice);
    }
  }

  /** Main result for Done: in every later run it comes after every line queued before
      it, if and only if no goroutine carries lines of the stream when EmitDone runs. */
  lemma DoneIsLastIff(s: State, stream: Text)
    requires AllConserved(s, stream)
    ensures NoticeIsLast(Next(s, EmitDone(stream)), |s.threads|, stream, Queued(s, stream), Done(stream))
      <==> NobodyCarries(s, stream)
  {
    EmitDoneTakes(s, stream);
    NoticeIsLastIff(s, Next(s, EmitDone(stream)), |s.threads|, stream, Done(stream));
  }

  /** Main result for EmitError: the same for the error it emits, if and only if no
      goroutine carries lines of the stream when its flush takes them. */
  lemma ErrorIsLastIff(s: State, i: nat, stream: Text, error: Text)
    requires AllConserved(s, stream) && i < |s.threads|
    requires s.threads[i] == Stopping(stream, ErrorMessages(stream, Some(error)))
    ensures NoticeIsLast(Next(s, Take(i)), i, stream, Queued(s, stream), Error(stream, error))
      <==> NobodyCarries(s, stream)
  {
    FlushTakes(s, i, stream, error);
    NoticeIsLastIff(s, Next(s, Take(i)), i, stream, Error(stream, error));
  }

  lemma OwesNothingMore(s: State, d: nat, stream: Text, before: seq<Text>, notice: Message)
    requires Owes(s, d, stream, before) && LinesIn(notice, stream) == []
    ensures NothingOwed(s, d, stream, before, notice)
  {
    LinesOfSnoc([], notice, stream);
    assert [] + [notice] == [notice];
  }

  /** Both exact conditions apply wherever a new coalescer can come to without Cleanup. */
  lemma EveryRunFromTheStart(steps: seq<Step>, stream: Text)
    requires Feasible(Init(), steps) && forall step | step in steps :: !step.Cleanup?
    ensures var s := Exec(Init(), steps);
      && PlainRests(s) && AllConserved(s, stream) && WakeUp(s, stream)
      && (NoOverlaps(Init(), steps, stream) ==> Ordered(s, stream))
  {
    forall text ensures Conserved(Exec(Init(), steps), stream, text) {
      InitConserved(stream, text);
      EveryRunConservesLines(Init(), steps, stream, text);
    }
    InitOrdered(stream);
    RunKeepsPlainRests(Init(), steps);
    InitWakesUp(stream);
    EveryRunWakesUp(Init(), steps, stream);
    if NoOverlaps(Init(), steps, stream) { SerialFlushesKeepOrder(Init(), steps, stream); }
  }

  lemma {:induction false} RunKeepsPlainRests(s: State, steps: seq<Step>)
    requires PlainRests(s) && Feasible(s, steps)
    ensures PlainRests(Exec(s, steps))
    decreases |steps|
  {
    if steps != [] {
      NextKeepsPlainRests(s, steps[0]);
      RunKeepsPlainRests(Next(s, steps[0]), steps[1..]);
    }
  }

  /** The condition is needed.  A timer flush takes the line, EmitDone finds the
      buffer empty and says Done, and only then does the flush emit the line. */
  lemma OverlapEmitsAfterDone(stream: Text, line: Text)
    ensures var rest := [EmitDone(stream)] + ([EmitNext(1)] + ([EmitNext(0)] + []));
      var steps := [EmitLine(stream, line)] + ([Expire(0)] + ([Fire(0)] + rest));
      Feasible(Init(), steps) && Exec(Init(), steps).out == [Done(stream), Line(stream, line)]
  {
    var s1 := Next(Init(), EmitLine(stream, line));
    var s2 := Next(s1, Expire(0));
    var s3 := Next(s2, Fire(0));
    assert Lines(s2, stream) == [line];
    assert Pack(stream, [line]) == [Line(stream, line)];
    assert s3.threads == [Emitting([Line(stream, line)])];
    assert Lines(s3, stream) == [];
    LateDone(s3, stream, line);
    var rest := [EmitDone(stream)] + ([EmitNext(1)] + ([EmitNext(0)] + []));
    FirstStep(s2, Fire(0), rest);
    FirstStep(s1, Expire(0), [Fire(0)] + rest);
    FirstStep(Init(), EmitLine(stream, line), [Expire(0)] + ([Fire(0)] + rest));
  }

  lemma LateDone(s: State, stream: Text, line: Text)
    requires s.threads == [Emitting([Line(stream, line)])] && s.out == [] && Lines(s, stream) == []
    ensures var steps := [EmitDone(stream)] + ([EmitNext(1)] + ([EmitNext(0)] + []));
      Feasible(s, steps) && Exec(s, steps).out == [Done(stream), Line(stream, line)]
  {
    assert Pack(stream, []) + [Done(stream)] == [Done(stream)];
    var s4 := Next(s, EmitDone(stream));
    assert s4.threads[0] == Emitting([Line(stream, line)]) && s4.threads[1] == Emitting([Done(stream)]);
    var s5 := Next(s4, EmitNext(1));
    assert s5.threads[0] == Emitting([Line(stream, line)]) && s5.out == [Done(stream)];
    FirstStep(s5, EmitNext(0), []);
    FirstStep(s4, EmitNext(1), [EmitNext(0)] + []);
    FirstStep(s, EmitDone(stream), [EmitNext(1)] + ([EmitNext(0)] + []));
  }

  // ---------------------------------------------------------------- calls in one piece

  /** A call of the coalescer, or a timer's callback, with nobody in between. */
  datatype Call =
    | LineCall(stream: Text, line: Text)
    | ExpireCall(timer: nat)
    | TimerCall(timer: nat)
    | FlushCall(stream: Text, error: Option<Text>)
    | DoneCall(stream: Text)

  predicate Callable(s: State, call: Call) {
    match call
    case ExpireCall(t) => t in s.timers.armed
    case TimerCall(t) => t in s.timers.due
    case _ => true
  }

  function Whole(s: State, call: Call): State
    requires Callable(s, call)
  {
    match call
    case LineCall(stream, line) => Next(s, EmitLine(stream, line))
    case ExpireCall(t) => Next(s, Expire(t))
    case TimerCall(t) => RunOut(Next(s, Fire(t)), |s.threads|)
    case FlushCall(stream, error) => RunOut(Next(Next(s, StartFlush(stream, error)), Take(|s.threads|)), |s.threads|)
    case DoneCall(stream) => RunOut(Next(s, EmitDone(stream)), |s.threads|)
  }

  ghost predicate CallsFit(s: State, calls: seq<Call>)
    decreases |calls|
  {
    calls == [] || (Callable(s, calls[0]) && CallsFit(Whole(s, calls[0]), calls[1..]))
  }

  ghost function AfterCalls(s: State, calls: seq<Call>): State
    requires CallsFit(s, calls)
    decreases |calls|
  {
    if calls == [] then s else AfterCalls(Whole(s, calls[0]), calls[1..])
  }

  /** Nobody carries lines, and emitted and buffered lines are the queued ones in order. */
  ghost predicate Settled(s: State, stream: Text) {
    NobodyCarries(s, stream) && LinesOf(s.out, stream) + Lines(s, stream) == Queued(s, stream)
  }

  /** A goroutine came, took some lines or none, and emitted them all. */
  lemma CameAndWent(s: State, s': State, ms: seq<Message>, stream: Text)
    requires Settled(s, stream) && s'.queued == s.queued
    requires s'.out == s.out + ms && s'.threads == s.threads + [Emitting([])]
    requires LinesOf(ms, stream) + Lines(s', stream) == Lines(s, stream)
    ensures Settled(s', stream)
  {
    LoadsChanged(s.threads, |s.threads|, Emitting([]), stream);
    LinesOfConcat(s.out, ms, stream);
    ConcatAssoc(LinesOf(s.out, stream), LinesOf(ms, stream), Lines(s', stream));
  }

  lemma TimerCallKeepsSettled(s: State, t: nat, stream: Text)
    requires Settled(s, stream) && t in s.timers.due
    ensures Settled(Whole(s, TimerCall(t)), stream)
  {
    var id := s.timers.due[t];
    var ms := Pack(id, Lines(s, id));
    PackedLines(id, Lines(s, id), stream);
    CameAndWent(s, Whole(s, TimerCall(t)), ms, stream);
  }

  lemma WholeFlush(s: State, id: Text, error: Option<Text>)
    ensures var s', ms := Whole(s, FlushCall(id, error)), Pack(id, Lines(s, id)) + ErrorMessages(id, error);
      && s'.threads == s.threads + [Emitting([])] && s'.out == s.out + ms && s'.queued == s.queued
      && forall stream :: Lines(s', stream) == if stream == id then [] else Lines(s, stream)
  {
    var s1, t := Next(s, StartFlush(id, error)), Stopping(id, ErrorMessages(id, error));
    assert s1.threads == s.threads + [t] && s1.threads[|s.threads|] == t && Lines(s1, id) == Lines(s, id);
    var s2 := Next(s1, Take(|s.threads|));
    assert s2.threads == s.threads + [Emitting(Pack(id, Lines(s, id)) + ErrorMessages(id, error))];
  }

  lemma WholeFlushIs(s: State, id: Text, error: Option<Text>)
    ensures Whole(s, FlushCall(id, error)) == TakeLines(s, id).(
      timers := s.timers.Stop(TimerOf(s, id)), threads := s.threads + [Emitting([])],
      out := s.out + (Pack(id, Lines(s, id)) + ErrorMessages(id, error)))
  {
    var s1, t := Next(s, StartFlush(id, error)), Stopping(id, ErrorMessages(id, error));
    assert s1.threads == s.threads + [t] && s1.threads[|s.threads|] == t && Lines(s1, id) == Lines(s, id);
    var ms := Pack(id, Lines(s, id)) + ErrorMessages(id, error);
    var s2 := Next(s1, Take(|s.threads|));
    assert s2.threads == s.threads + [Emitting(ms)];
    assert s2.threads[|s.threads| := Emitting([])] == s.threads + [Emitting([])];
  }

  lemma FlushCallKeepsSettled(s: State, id: Text, error: Option<Text>, stream: Text)
    requires Settled(s, stream)
    ensures Settled(Whole(s, FlushCall(id, error)), stream)
  {
    var ms := Pack(id, Lines(s, id)) + ErrorMessages(id, error);
    RestHasNoLines(id, error, stream);
    TakenLines(id, Lines(s, id), ErrorMessages(id, error), stream);
    WholeFlush(s, id, error);
    CameAndWent(s, Whole(s, FlushCall(id, error)), ms, stream);
  }

  lemma DoneCallKeepsSettled(s: State, id: Text, stream: Text)
    requires Settled(s, stream)
    ensures Settled(Whole(s, DoneCall(id)), stream)
  {
    var ms := Pack(id, Lines(s, id)) + [Done(id)];
    DoneLines(id, Lines(s, id), stream);
    CameAndWent(s, Whole(s, DoneCall(id)), ms, stream);
  }

  lemma WholeKeepsSettled(s: State, call: Call, stream: Text)
    requires Settled(s, stream) && Callable(s, call)
    ensures Settled(Whole(s, call), stream)
  {
    match call
    case LineCall(id, line) => ConcatAssoc(LinesOf(s.out, stream), Lines(s, stream), [line]);
    case ExpireCall(_) =>
    case TimerCall(t) => TimerCallKeepsSettled(s, t, stream);
    case FlushCall(id, error) => FlushCallKeepsSettled(s, id, error, stream);
    case DoneCall(id) => DoneCallKeepsSettled(s, id, stream);
  }

  /** Main result for calls in one piece: emitted and buffered lines together are
      always exactly the queued ones, in order. */
  lemma {:induction false} WholeCallsKeepOrder(s: State, calls: seq<Call>, stream: Text)
    requires Settled(s, stream) && CallsFit(s, calls)
    ensures Settled(AfterCalls(s, calls), stream)
    decreases |calls|
  {
    if calls != [] {
      WholeKeepsSettled(s, calls[0], stream);
      WholeCallsKeepOrder(Whole(s, calls[0]), calls[1..], stream);
    }
  }

  /** From the start of a coalescer. */
  lemma WholeCallsFromTheStart(calls: seq<Call>, stream: Text)
    requires CallsFit(Init(), calls)
    ensures Settled(AfterCalls(Init(), calls), stream)
  {
    assert Settled(Init(), stream);
    WholeCallsKeepOrder(Init(), calls, stream);
  }

  // ---------------------------------------------------------------- every notice is said once

  predicate IsNotice(m: Message) {
    m.Done? || m.Error?
  }

  function CountOf(ms: seq<Message>, m: Message): nat {
    if ms == [] then 0 else CountOf(ms[..|ms| - 1], m) + if ms[|ms| - 1] == m then 1 else 0
  }

  function ToSay(t: Thread): seq<Message> {
    if t.Stopping? then t.rest else t.messages
  }

  function CountEach(threads: seq<Thread>, m: Message): seq<nat> {
    seq(|threads|, i requires 0 <= i < |threads| => CountOf(ToSay(threads[i]), m))
  }

  /** How often the message has been emitted or is still to be. */
  function Said(s: State, m: Message): nat {
    CountOf(s.out, m) + Sum(CountEach(s.threads, m))
  }

  /** How often the step asks for the notice. */
  function Asks(step: Step, m: Message): nat {
    match step
    case EmitDone(stream) => if m == Done(stream) then 1 else 0
    case StartFlush(stream, error) => if error.Some? && m == Error(stream, error.value) then 1 else 0
    case _ => 0
  }

  function Asked(steps: seq<Step>, m: Message): nat
    decreases |steps|
  {
    if steps == [] then 0 else Asks(steps[0], m) + Asked(steps[1..], m)
  }

  lemma {:induction false} CountConcat(a: seq<Message>, b: seq<Message>, m: Message)
    ensures CountOf(a + b, m) == CountOf(a, m) + CountOf(b, m)
    decreases |b|
  {
    if b == [] {
      assert a + b == a;
    } else {
      var init, last := b[..|b| - 1], b[|b| - 1];
      CountConcat(a, init, m);
      assert (a + b)[..|a + b| - 1] == a + init && (a + b)[|a + b| - 1] == last;
    }
  }

  lemma CountOne(x: Message, m: Message)
    ensures CountOf([x], m) == if x == m then 1 else 0
  {
    assert [x][..0] == [];
  }

  lemma NoNoticeInPack(id: Text, lines: seq<Text>, m: Message)
    requires IsNotice(m)
    ensures CountOf(Pack(id, lines), m) == 0
  {
    if lines != [] {
      assert Pack(id, lines) == [Pack(id, lines)[0]];
      CountOne(Pack(id, lines)[0], m);
    }
  }

  lemma ThreadAppended(s: State, s': State, t: Thread, m: Message)
    requires s'.out == s.out && s'.threads == s.threads + [t]
    ensures Said(s', m) == Said(s, m) + CountOf(ToSay(t), m)
  {
    assert CountEach(s'.threads, m) == CountEach(s.threads, m) + [CountOf(ToSay(t), m)];
    SumAppended(CountEach(s.threads, m), CountOf(ToSay(t), m));
  }

  lemma ThreadReplaced(s: State, s': State, i: nat, t: Thread, m: Message)
    requires i < |s.threads| && s'.threads == s.threads[i := t]
    requires CountOf(s'.out, m) + CountOf(ToSay(t), m) == CountOf(s.out, m) + CountOf(ToSay(s.threads[i]), m)
    ensures Said(s', m) == Said(s, m)
  {
    assert CountEach(s'.threads, m) == CountEach(s.threads, m)[i := CountOf(ToSay(t), m)];
    SumReplaced(CountEach(s.threads, m), i, CountOf(ToSay(t), m));
  }

  lemma EmitNextSaysTheSame(s: State, i: nat, m: Message)
    requires Enabled(s, EmitNext(i))
    ensures Said(Next(s, EmitNext(i)), m) == Said(s, m)
  {
    var ms := s.threads[i].messages;
    CountConcat([ms[0]], ms[1..], m);
    assert [ms[0]] + ms[1..] == ms;
    CountConcat(s.out, [ms[0]], m);
    ThreadReplaced(s, Next(s, EmitNext(i)), i, Emitting(ms[1..]), m);
  }

  lemma TakeSaysTheSame(s: State, i: nat, m: Message)
    requires Enabled(s, Take(i)) && IsNotice(m)
    ensures Said(Next(s, Take(i)), m) == Said(s, m)
  {
    var stream, rest := s.threads[i].stream, s.threads[i].rest;
    NoNoticeInPack(stream, Lines(s, stream), m);
    CountConcat(Pack(stream, Lines(s, stream)), rest, m);
    ThreadReplaced(s, Next(s, Take(i)), i, Emitting(Pack(stream, Lines(s, stream)) + rest), m);
  }

  lemma EmitDoneSaysDone(s: State, stream: Text, m: Message)
    requires IsNotice(m)
    ensures Said(Next(s, EmitDone(stream)), m) == Said(s, m) + Asks(EmitDone(stream), m)
  {
    NoNoticeInPack(stream, Lines(s, stream), m);
    CountOne(Done(stream), m);
    CountConcat(Pack(stream, Lines(s, stream)), [Done(stream)], m);
    ThreadAppended(s, Next(s, EmitDone(stream)), Emitting(Pack(stream, Lines(s, stream)) + [Done(stream)]), m);
  }

  lemma NextSaysWhatIsAsked(s: State, step: Step, m: Message)
    requires Enabled(s, step) && IsNotice(m)
    ensures Said(Next(s, step), m) == Said(s, m) + Asks(step, m)
  {
    match step
    case EmitNext(i) => EmitNextSaysTheSame(s, i, m);
    case Take(i) => TakeSaysTheSame(s, i, m);
    case EmitDone(stream) => EmitDoneSaysDone(s, stream, m);
    case Fire(t) =>
      var stream := s.timers.due[t];
      NoNoticeInPack(stream, Lines(s, stream), m);
      ThreadAppended(s, Next(s, step), Emitting(Pack(stream, Lines(s, stream))), m);
    case StartFlush(stream, error) =>
      if error.Some? { CountOne(Error(stream, error.value), m); }
      ThreadAppended(s, Next(s, step), Stopping(stream, ErrorMessages(stream, error)), m);
    case _ => assert Next(s, step).out == s.out && Next(s, step).threads == s.threads;
  }

  /** Main result for notices: in every run each Done and each error has been emitted, or
      is still to be by a goroutine, as often as it was asked for. */
  lemma {:induction false} EveryNoticeIsSaid(s: State, steps: seq<Step>, m: Message)
    requires Feasible(s, steps) && IsNotice(m)
    ensures Said(Exec(s, steps), m) == Said(s, m) + Asked(steps, m)
    decreases |steps|
  {
    if steps != [] {
      NextSaysWhatIsAsked(s, steps[0], m);
      EveryNoticeIsSaid(Next(s, steps[0]), steps[1..], m);
    }
  }

  /** One line goes out as a line, several as one batch in order, none as nothing. */
  lemma PackShape(stream: Text, lines: seq<Text>)
    ensures lines == [] ==> Pack(stream, lines) == []
    ensures |lines| == 1 ==> Pack(stream, lines) == [Line(stream, lines[0])]
    ensures |lines| > 1 ==> Pack(stream, lines) == [Batch(stream, lines)]
  {
  }

  /** EmitDone and Cleanup forget the stream and stop the timer it remembers. */
  lemma TheStreamIsForgotten(s: State, stream: Text, step: Step)
    requires step == EmitDone(stream) || step == Cleanup(stream)
    ensures var s' := Next(s, step);
      && stream !in s'.streams && s'.out == s.out && s'.timers.due == s.timers.due
      && (forall other | other != stream :: Lines(s', other) == Lines(s, other))
      && (stream in s.streams && s.streams[stream].timer.Some? ==>
            s.streams[stream].timer.value !in s'.timers.armed)
  {
  }

  // ---------------------------------------------------------------- no line is stranded

  ghost predicate Handles(s: State) {
    && s.timers.Valid()
    && forall id | id in s.streams && s.streams[id].timer.Some? ::
         var t := s.streams[id].timer.value; t < s.timers.next && (t in s.timers.armed ==> s.timers.armed[t] == id)
  }

  ghost predicate TimerFor(s: State, stream: Text) {
    (exists t :: t in s.timers.armed && s.timers.armed[t] == stream)
      || (exists t :: t in s.timers.due && s.timers.due[t] == stream)
  }

  ghost predicate FlushFor(s: State, stream: Text) {
    exists i :: 0 <= i < |s.threads| && s.threads[i].Stopping? && s.threads[i].stream == stream
  }

  /** A non-empty buffer is marked pending, and a pending stream has a live timer or
      a flush that has stopped the timer and is about to take the lines. */
  ghost predicate WakeUp(s: State, stream: Text) {
    stream in s.streams ==>
      && (s.streams[stream].lines != [] ==> s.streams[stream].pending)
      && (s.streams[stream].pending ==> TimerFor(s, stream) || FlushFor(s, stream))
  }

  lemma NextKeepsHandles(s: State, step: Step)
    requires Handles(s) && Enabled(s, step)
    ensures Handles(Next(s, step))
  {
  }

  lemma TimersKept(s: State, s': State, stream: Text)
    requires s.timers.Valid() && TimerFor(s, stream)
    requires forall t | t in s.timers.armed && s.timers.armed[t] == stream ::
      || (t in s'.timers.armed && s'.timers.armed[t] == stream) || (t in s'.timers.due && s'.timers.due[t] == stream)
    requires forall t | t in s.timers.due && s.timers.due[t] == stream ::
      t in s'.timers.due && s'.timers.due[t] == stream
    ensures TimerFor(s', stream)
  {
  }

  lemma FlushesKept(s: State, s': State, stream: Text)
    requires FlushFor(s, stream) && |s.threads| <= |s'.threads|
    requires forall i | 0 <= i < |s.threads| && s.threads[i].Stopping? && s.threads[i].stream == stream ::
      s'.threads[i] == s.threads[i]
    ensures FlushFor(s', stream)
  {
    var i :| 0 <= i < |s.threads| && s.threads[i].Stopping? && s.threads[i].stream == stream;
    assert s'.threads[i].Stopping?;
  }

  lemma NextKeepsWakeUp(s: State, step: Step, stream: Text)
    requires Handles(s) && WakeUp(s, stream) && Enabled(s, step)
    ensures WakeUp(Next(s, step), stream)
  {
    var s' := Next(s, step);
    if stream in s'.streams && s'.streams[stream].pending {
      if step.EmitLine? && step.stream == stream && !(stream in s.streams && s.streams[stream].pending) {
        assert s'.timers.armed[s.timers.next] == stream;
      } else if step.StartFlush? && step.stream == stream {
        assert s'.threads[|s.threads|].Stopping?;
      } else {
        if TimerFor(s, stream) { TimersKept(s, s', stream); }
        if FlushFor(s, stream) { FlushesKept(s, s', stream); }
      }
    }
  }

  /** Main result: in every run, Cleanup included, no buffered line is stranded. */
  lemma {:induction false} EveryRunWakesUp(s: State, steps: seq<Step>, stream: Text)
    requires Handles(s) && WakeUp(s, stream) && Feasible(s, steps)
    ensures Handles(Exec(s, steps)) && WakeUp(Exec(s, steps), stream)
    decreases |steps|
  {
    if steps != [] {
      NextKeepsHandles(s, steps[0]);
      NextKeepsWakeUp(s, steps[0], stream);
      EveryRunWakesUp(Next(s, steps[0]), steps[1..], stream);
    }
  }

  lemma InitWakesUp(stream: Text)
    ensures Handles(Init()) && WakeUp(Init(), stream)
  {
  }

  // ---------------------------------------------------------------- the code

  class Coalescer {
    var streams: map<Text, Buffer>
    var timers: Timers<Text>
    var out: seq<Message>
    ghost var threads: seq<Thread>
    ghost var queued: map<Text, seq<Text>>

    ghost function View(): State
      reads this
    {
      State(streams, timers, threads, out, queued)
    }

    constructor ()
      ensures View() == Init()
    {
      streams, timers, out, threads, queued := map[], NoTimers(), [], [], map[];
    }

    method EmitLine(stream: Text, line: Text)
      modifies this
      ensures View() == Next(old(View()), Step.EmitLine(stream, line))
    {
      queued := queued[stream := Queued(View(), stream) + [line]];
      var buf := if stream in streams then streams[stream] else Buffer([], None, false);
      buf := buf.(lines := buf.lines + [line]);
      if !buf.pending {
        buf := buf.(pending := true, timer := Some(timers.next));
        timers := timers.AfterFunc(stream);
      }
      streams := streams[stream := buf];
    }

    method EmitBatch(stream: Text, lines: seq<Text>)
      modifies this`out
      ensures out == old(out) + Pack(stream, lines)
    {
      if |lines| == 0 { return; }
      if |lines| == 1 {
        out := out + [Line(stream, lines[0])];
      } else {
        out := out + [Batch(stream, lines)];
      }
    }

    /** The locked part of flushStream. */
    method TakeStream(stream: Text) returns (lines: seq<Text>)
      modifies this`streams
      ensures View() == TakeLines(old(View()), stream) && lines == Lines(old(View()), stream)
    {
      if stream !in streams || |streams[stream].lines| == 0 {
        if stream in streams {
          streams := streams[stream := streams[stream].(pending := false)];
        }
        return [];
      }
      lines := streams[stream].lines;
      streams := streams[stream := streams[stream].(lines := [], pending := false)];
    }

    /** The callback of timer t, run to its end. */
    method OnTimer(t: nat)
      requires t in timers.due
      modifies this
      ensures View() == Whole(old(View()), TimerCall(t))
    {
      var stream := timers.due[t];
      timers := timers.Begin(t);
      var lines := TakeStream(stream);
      threads := threads + [Emitting([])];
      EmitBatch(stream, lines);
    }

    method StopTimer(stream: Text)
      modifies this`timers
      ensures timers == old(timers).Stop(TimerOf(old(View()), stream))
    {
      if stream in streams {
        if streams[stream].timer.Some? {
          timers := timers.Stop(streams[stream].timer);
        }
      }
    }

    /** FlushStream, and with an error message EmitError, run to its end. */
    method FlushStream(stream: Text, error: Option<Text>)
      modifies this
      ensures View() == Whole(old(View()), FlushCall(stream, error))
    {
      WholeFlushIs(View(), stream, error);
      ghost var before := out;
      StopTimer(stream);
      var lines := TakeStream(stream);
      threads := threads + [Emitting([])];
      EmitBatch(stream, lines);
      ghost var flushed := out;
      if error.Some? {
        out := out + [Error(stream, error.value)];
      }
      assert out == flushed + ErrorMessages(stream, error);
      ConcatAssoc(before, Pack(stream, lines), ErrorMessages(stream, error));
    }

    method EmitDone(stream: Text)
      modifies this
      ensures View() == Whole(old(View()), DoneCall(stream))
    {
      threads := threads + [Emitting([])];
      if stream in streams {
        StopTimer(stream);
        var lines := streams[stream].lines;
        streams := streams - {stream};
        if |lines| > 0 {
          EmitBatch(stream, lines);
        }
      }
      out := out + [Done(stream)];
    }

    method Cleanup(stream: Text)
      modifies this
      ensures View() == Next(old(View()), Step.Cleanup(stream))
    {
      if stream in streams {
        StopTimer(stream);
        streams := streams - {stream};
      }
    }
  }
}
