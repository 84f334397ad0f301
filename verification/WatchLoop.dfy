/** Model of watchResourceLoop and watchCRDLoop in app_watchers.go, which are the
    same loop: watch streams that are reopened from the last version seen, with
    backoff.  Everything from outside is scripted: how each opening goes, what is
    delivered, how the stream ends, and where the loop is cancelled. */
module WatchLoop {
  import opened Common

  // ---------------------------------------------------------------- data model

  /** The type of an event; an ERROR may say that the version is expired or gone. */
  datatype Kind = Added | Modified | Deleted | Bookmark | Error(stale: bool) | Unknown

  /** `version` is "" when the object carries none. */
  datatype WatchEvent = WatchEvent(kind: Kind, convertible: bool, version: string, object: nat)

  datatype Delivery = Delivery(event: WatchEvent, cancelledAtGuard: bool)

  /** A channel closed within five seconds of opening is closed quickly. */
  datatype Ending = Closed(quick: bool, cancelledInWait: bool) | CancelledInStream

  datatype Opening =
    | Refused(stale: bool, cancelledInWait: bool)
    | Accepted(deliveries: seq<Delivery>, ending: Ending)

  datatype Attempt = Attempt(cancelledBefore: bool, opening: Opening)

  /** What an observer of the loop sees, in order. */
  datatype Obs =
    | Sent(version: string)
    | OpenFailed(stale: bool)
    | Got(event: WatchEvent)
    | Emitted(event: WatchEvent)
    | ClosedEarly
    | ClosedLate
    | Waited(seconds: nat)
    | Stopped

  /** `tracked` says whether the loop found its watcher entry; the version lives there. */
  datatype Loop = Loop(
    tracked: bool,
    version: string,
    failures: nat,
    streaming: bool,
    receivedAny: bool,
    stopped: bool,
    trace: seq<Obs>)

  const MAX_DELAY: nat := 120

  function Delay(failures: nat): nat {
    Min(Pow2(Min(failures, 7)), MAX_DELAY)
  }

  predicate Emittable(e: WatchEvent) {
    e.convertible && (e.kind.Added? || e.kind.Modified? || e.kind.Deleted?)
  }

  // ---------------------------------------------------------------- what the loop does

  function Note(l: Loop, o: Obs): Loop {
    l.(trace := l.trace + [o])
  }

  function SetVersion(l: Loop, version: string): Loop {
    if l.tracked && version != "" then l.(version := version) else l
  }

  function ClearVersion(l: Loop): Loop {
    if l.tracked then l.(version := "") else l
  }

  function Stop(l: Loop): Loop {
    Note(l, Stopped).(stopped := true, streaming := false)
  }

  function Deliver(l: Loop, d: Delivery): Loop {
    var e := d.event;
    var l1 := Note(l, Got(e)).(receivedAny := true, failures := 0);
    if e.kind.Error? then (if e.kind.stale then ClearVersion(l1) else l1).(streaming := false, failures := 1)
    else if !e.convertible then l1
    else
      var l2 := SetVersion(l1, e.version);
      if !Emittable(e) then l2
      else if d.cancelledAtGuard then Stop(l2)
      else Note(l2, Emitted(e))
  }

  function DeliverAll(l: Loop, ds: seq<Delivery>): Loop
    decreases |ds|
  {
    if ds == [] || !l.streaming then l else DeliverAll(Deliver(l, ds[0]), ds[1..])
  }

  function WaitFor(l: Loop, seconds: nat, cancelled: bool): Loop {
    if cancelled then Stop(l) else Note(l, Waited(seconds))
  }

  function QuicklyClosed(l: Loop): Loop {
    Note(l.(streaming := false), ClosedEarly).(failures := l.failures + 1)
  }

  function LaterClosed(l: Loop): Loop {
    Note(l.(streaming := false), ClosedLate).(failures := 0)
  }

  function End(l: Loop, ending: Ending): Loop {
    match ending
    case CancelledInStream => Stop(l)
    case Closed(quick, cancelled) =>
      var early := !l.receivedAny && quick;
      if early then WaitFor(QuicklyClosed(l), Delay(l.failures + 1), cancelled)
      else WaitFor(LaterClosed(l), 1, cancelled)
  }

  function NoteRefusal(l: Loop, stale: bool): Loop {
    var l1 := Note(l, OpenFailed(stale)).(failures := l.failures + 1);
    if l.version != "" && stale then ClearVersion(l1) else l1
  }

  function Refuse(l: Loop, stale: bool, cancelled: bool): Loop {
    var l1 := NoteRefusal(l, stale);
    WaitFor(l1, Delay(l1.failures), cancelled)
  }

  function Stream(l: Loop, ds: seq<Delivery>, ending: Ending): Loop {
    var l1 := DeliverAll(l.(streaming := true, receivedAny := false), ds);
    if l1.streaming then End(l1, ending) else l1
  }

  function TryOnce(l: Loop, a: Attempt): Loop {
    if a.cancelledBefore then Stop(l)
    else
      match a.opening
      case Refused(stale, cancelled) => Refuse(Note(l, Sent(l.version)), stale, cancelled)
      case Accepted(ds, ending) => Stream(Note(l, Sent(l.version)), ds, ending)
  }

  function Run(l: Loop, attempts: seq<Attempt>): Loop
    decreases |attempts|
  {
    if attempts == [] || l.stopped then l else Run(TryOnce(l, attempts[0]), attempts[1..])
  }

  // ---------------------------------------------------------------- what an observer can tell

  predicate Versioned(o: Obs) {
    o.Got? && !o.event.kind.Error? && o.event.convertible && o.event.version != ""
  }

  /** An expired or gone ERROR, or a refusal for a version that is too old. */
  predicate Resets(o: Obs) {
    (o.Got? && o.event.kind.Error? && o.event.kind.stale) || (o.OpenFailed? && o.stale)
  }

  /** What an observer concludes from the trace so far: the last version seen since
      the last reset, the failures in a row, an event that is due to be emitted, the
      last observation, and whether everything so far was in order. */
  datatype Reading = Reading(seen: string, failures: nat, due: seq<WatchEvent>, last: seq<Obs>, right: bool)

  function SeenAfter(seen: string, o: Obs): string {
    if Versioned(o) then o.event.version else if Resets(o) then "" else seen
  }

  /** Refused openings and early closes count up, an ERROR starts again at one, any
      other event and a late close start again at zero. */
  function FailuresAfter(failures: nat, o: Obs): nat {
    match o
    case Got(e) => if e.kind.Error? then 1 else 0
    case OpenFailed(_) => failures + 1
    case ClosedEarly => failures + 1
    case ClosedLate => 0
    case _ => failures
  }

  /** An emittable event is due until it is emitted; stopping leaves it due. */
  function DueAfter(due: seq<WatchEvent>, o: Obs): seq<WatchEvent> {
    match o
    case Got(e) => if Emittable(e) then [e] else []
    case Stopped => due
    case _ => []
  }

  /** A refused opening or a closed stream, after which the loop has to wait. */
  predicate MustWait(last: seq<Obs>) {
    last != [] && (last[0].OpenFailed? || last[0].ClosedEarly? || last[0].ClosedLate?)
  }

  /** What may be seen next. */
  predicate Right(r: Reading, o: Obs, tracked: bool) {
    && r.last != [Stopped]
    && (MustWait(r.last) ==> o.Waited? || o == Stopped)
    && (r.due != [] ==> o == Emitted(r.due[0]) || o == Stopped)
    && match o
       case Sent(version) => version == if tracked then r.seen else ""
       case Emitted(e) => r.due == [e]
       case Waited(seconds) => r.last != [] && seconds == (match r.last[0]
         case OpenFailed(_) => Delay(r.failures)
         case ClosedEarly => Delay(r.failures)
         case ClosedLate => 1
         case _ => seconds + 1)
       case _ => true
  }

  function Observe(r: Reading, o: Obs, tracked: bool): Reading {
    Reading(SeenAfter(r.seen, o), FailuresAfter(r.failures, o), DueAfter(r.due, o), [o],
      r.right && Right(r, o, tracked))
  }

  function Read(trace: seq<Obs>, tracked: bool, initial: string): Reading
    decreases |trace|
  {
    if trace == [] then Reading(initial, 0, [], [], true)
    else Observe(Read(trace[..|trace| - 1], tracked, initial), trace[|trace| - 1], tracked)
  }

  lemma ReadMore(trace: seq<Obs>, o: Obs, tracked: bool, initial: string)
    ensures Read(trace + [o], tracked, initial) == Observe(Read(trace, tracked, initial), o, tracked)
  {
    assert (trace + [o])[..|trace|] == trace;
  }

  /** The version read off is that of the last versioned event, if no reset follows it. */
  lemma {:induction false} SeenIsTheLastVersion(trace: seq<Obs>, k: nat, tracked: bool, initial: string)
    requires k < |trace| && (Versioned(trace[k]) || Resets(trace[k]))
    requires forall j | k < j < |trace| :: !Versioned(trace[j]) && !Resets(trace[j])
    ensures Read(trace, tracked, initial).seen == if Versioned(trace[k]) then trace[k].event.version else ""
    decreases |trace|
  {
    if k < |trace| - 1 {
      SeenIsTheLastVersion(trace[..|trace| - 1], k, tracked, initial);
    }
  }

  lemma {:induction false} SeenIsInitial(trace: seq<Obs>, tracked: bool, initial: string)
    requires forall j | 0 <= j < |trace| :: !Versioned(trace[j]) && !Resets(trace[j])
    ensures Read(trace, tracked, initial).seen == initial
    decreases |trace|
  {
    if trace != [] {
      SeenIsInitial(trace[..|trace| - 1], tracked, initial);
    }
  }

  // ---------------------------------------------------------------- the loop keeps to it

  ghost predicate Fits(l: Loop, r: Reading) {
    && r.right && l.version == (if l.tracked then r.seen else "") && l.failures == r.failures
    && (!l.stopped ==> r.due == [] && r.last != [Stopped])
    && (l.streaming ==> !l.stopped)
  }

  ghost predicate Good(l: Loop, initial: string) {
    var r := Read(l.trace, l.tracked, initial);
    Fits(l, r) && !MustWait(r.last)
  }

  /** Noting one observation keeps the loop good if the new reading fits it. */
  lemma Noted(l: Loop, o: Obs, l': Loop, initial: string)
    requires l'.trace == l.trace + [o] && l'.tracked == l.tracked
    requires Fits(l', Observe(Read(l.trace, l.tracked, initial), o, l.tracked)) && !MustWait([o])
    ensures Good(l', initial)
  {
    ReadMore(l.trace, o, l.tracked, initial);
  }

  lemma StopKeepsGood(l: Loop, initial: string)
    requires Fits(l, Read(l.trace, l.tracked, initial)) && !l.stopped
    ensures Good(Stop(l), initial)
  {
    Noted(l, Stopped, Stop(l), initial);
  }

  lemma WaitKeepsGood(l: Loop, seconds: nat, cancelled: bool, initial: string)
    requires Fits(l, Read(l.trace, l.tracked, initial)) && !l.stopped
    requires Right(Read(l.trace, l.tracked, initial), Waited(seconds), l.tracked)
    ensures Good(WaitFor(l, seconds, cancelled), initial)
  {
    if cancelled {
      StopKeepsGood(l, initial);
    } else {
      Noted(l, Waited(seconds), Note(l, Waited(seconds)), initial);
    }
  }

  lemma GuardKeepsGood(l: Loop, e: WatchEvent, cancelled: bool, initial: string)
    requires !l.stopped && l.trace != []
    requires var r := Read(l.trace, l.tracked, initial); Fits(l, r.(due := [])) && r.due == [e] && !MustWait(r.last)
    requires Emittable(e)
    ensures Good(if cancelled then Stop(l) else Note(l, Emitted(e)), initial)
  {
    if cancelled {
      Noted(l, Stopped, Stop(l), initial);
    } else {
      Noted(l, Emitted(e), Note(l, Emitted(e)), initial);
    }
  }

  lemma QuietKeepsGood(l: Loop, d: Delivery, initial: string)
    requires Good(l, initial) && l.streaming && !Emittable(d.event)
    ensures Good(Deliver(l, d), initial)
  {
    Noted(l, Got(d.event), Deliver(l, d), initial);
  }

  /** The loop once it has noted the event and its version. */
  function Took(l: Loop, e: WatchEvent): Loop {
    SetVersion(Note(l, Got(e)).(receivedAny := true, failures := 0), e.version)
  }

  lemma TookFits(l: Loop, e: WatchEvent, r: Reading)
    requires Fits(l, r) && !MustWait(r.last) && l.streaming && Emittable(e)
    ensures var r2 := Observe(r, Got(e), l.tracked);
      Fits(Took(l, e), r2.(due := [])) && r2.due == [e] && !MustWait(r2.last)
  {
  }

  lemma EmittableKeepsGood(l: Loop, d: Delivery, initial: string)
    requires Good(l, initial) && l.streaming && Emittable(d.event)
    ensures Good(Deliver(l, d), initial)
  {
    var e := d.event;
    var l2 := Took(l, e);
    ReadMore(l.trace, Got(e), l.tracked, initial);
    assert l2.trace == l.trace + [Got(e)] && l2.tracked == l.tracked && !l2.stopped;
    TookFits(l, e, Read(l.trace, l.tracked, initial));
    GuardKeepsGood(l2, e, d.cancelledAtGuard, initial);
    assert Deliver(l, d) == if d.cancelledAtGuard then Stop(l2) else Note(l2, Emitted(e));
  }

  lemma DeliverKeepsGood(l: Loop, d: Delivery, initial: string)
    requires Good(l, initial) && l.streaming
    ensures Good(Deliver(l, d), initial)
  {
    if Emittable(d.event) {
      EmittableKeepsGood(l, d, initial);
    } else {
      QuietKeepsGood(l, d, initial);
    }
  }

  lemma {:induction false} DeliverAllKeepsGood(l: Loop, ds: seq<Delivery>, initial: string)
    requires Good(l, initial)
    ensures Good(DeliverAll(l, ds), initial)
    decreases |ds|
  {
    if ds != [] && l.streaming {
      DeliverKeepsGood(l, ds[0], initial);
      DeliverAllKeepsGood(Deliver(l, ds[0]), ds[1..], initial);
    }
  }

  lemma EarlyCloseFits(l: Loop, r: Reading)
    requires Fits(l, r) && !MustWait(r.last) && l.streaming
    ensures var r1 := Observe(r, ClosedEarly, l.tracked);
      Fits(QuicklyClosed(l), r1) && Right(r1, Waited(Delay(l.failures + 1)), l.tracked)
  {
  }

  lemma EarlyCloseKeepsGood(l: Loop, cancelled: bool, initial: string)
    requires Good(l, initial) && l.streaming
    ensures Good(WaitFor(QuicklyClosed(l), Delay(l.failures + 1), cancelled), initial)
  {
    ReadMore(l.trace, ClosedEarly, l.tracked, initial);
    EarlyCloseFits(l, Read(l.trace, l.tracked, initial));
    WaitKeepsGood(QuicklyClosed(l), Delay(l.failures + 1), cancelled, initial);
  }

  lemma LateCloseFits(l: Loop, r: Reading)
    requires Fits(l, r) && !MustWait(r.last) && l.streaming
    ensures var r1 := Observe(r, ClosedLate, l.tracked);
      Fits(LaterClosed(l), r1) && Right(r1, Waited(1), l.tracked)
  {
  }

  lemma LateCloseKeepsGood(l: Loop, cancelled: bool, initial: string)
    requires Good(l, initial) && l.streaming
    ensures Good(WaitFor(LaterClosed(l), 1, cancelled), initial)
  {
    ReadMore(l.trace, ClosedLate, l.tracked, initial);
    LateCloseFits(l, Read(l.trace, l.tracked, initial));
    WaitKeepsGood(LaterClosed(l), 1, cancelled, initial);
  }

  lemma EndKeepsGood(l: Loop, ending: Ending, initial: string)
    requires Good(l, initial) && l.streaming
    ensures Good(End(l, ending), initial)
  {
    match ending
    case CancelledInStream => StopKeepsGood(l, initial);
    case Closed(quick, cancelled) =>
      if !l.receivedAny && quick {
        EarlyCloseKeepsGood(l, cancelled, initial);
      } else {
        LateCloseKeepsGood(l, cancelled, initial);
      }
  }

  lemma RefusalReads(l: Loop, stale: bool, r: Reading)
    requires Fits(l, r) && !MustWait(r.last) && !l.stopped
    ensures var r1 := Observe(r, OpenFailed(stale), l.tracked);
      Fits(NoteRefusal(l, stale), r1) && r1.last == [OpenFailed(stale)] && r1.due == []
  {
  }

  lemma RefusalFits(l: Loop, stale: bool, initial: string)
    requires Good(l, initial) && !l.stopped
    ensures var l1 := NoteRefusal(l, stale); var r := Read(l1.trace, l1.tracked, initial);
      !l1.stopped && Fits(l1, r) && r.last == [OpenFailed(stale)] && r.due == []
  {
    var l1 := NoteRefusal(l, stale);
    assert l1.trace == l.trace + [OpenFailed(stale)] && l1.tracked == l.tracked && !l1.stopped;
    ReadMore(l.trace, OpenFailed(stale), l.tracked, initial);
    RefusalReads(l, stale, Read(l.trace, l.tracked, initial));
  }

  lemma RefusedKeepsGood(l: Loop, stale: bool, cancelled: bool, initial: string)
    requires Good(l, initial) && !l.stopped
    ensures Good(Refuse(l, stale, cancelled), initial)
  {
    var l1 := NoteRefusal(l, stale);
    RefusalFits(l, stale, initial);
    WaitKeepsGood(l1, Delay(l1.failures), cancelled, initial);
  }

  lemma SentKeepsGood(l: Loop, initial: string)
    requires Good(l, initial) && !l.stopped
    ensures Good(Note(l, Sent(l.version)), initial)
  {
    Noted(l, Sent(l.version), Note(l, Sent(l.version)), initial);
  }

  lemma StreamKeepsGood(l: Loop, ds: seq<Delivery>, ending: Ending, initial: string)
    requires Good(l, initial) && !l.stopped
    ensures Good(Stream(l, ds, ending), initial)
  {
    var l1 := l.(streaming := true, receivedAny := false);
    DeliverAllKeepsGood(l1, ds, initial);
    if DeliverAll(l1, ds).streaming { EndKeepsGood(DeliverAll(l1, ds), ending, initial); }
  }

  lemma TryKeepsGood(l: Loop, a: Attempt, initial: string)
    requires Good(l, initial) && !l.stopped
    ensures Good(TryOnce(l, a), initial)
  {
    if a.cancelledBefore {
      StopKeepsGood(l, initial);
    } else {
      SentKeepsGood(l, initial);
      match a.opening
      case Refused(stale, cancelled) => RefusedKeepsGood(Note(l, Sent(l.version)), stale, cancelled, initial);
      case Accepted(ds, ending) => StreamKeepsGood(Note(l, Sent(l.version)), ds, ending, initial);
    }
  }

  /** Main result: along every run each opening asks for the last version seen since
      the last reset, each wait is the delay for the failures so far, and nothing is
      emitted but the emittable event just received. */
  lemma {:induction false} EveryRunIsGood(l: Loop, attempts: seq<Attempt>, initial: string)
    requires Good(l, initial)
    ensures Good(Run(l, attempts), initial)
    decreases |attempts|
  {
    if attempts != [] && !l.stopped {
      TryKeepsGood(l, attempts[0], initial);
      EveryRunIsGood(TryOnce(l, attempts[0]), attempts[1..], initial);
    }
  }

  // ---------------------------------------------------------------- what the script makes of it

  /** The delivery ends the stream: an ERROR, or a cancellation seen by the guard. */
  predicate EndsStream(d: Delivery) {
    d.event.kind.Error? || (Emittable(d.event) && d.cancelledAtGuard)
  }

  /** What handling one delivery shows: that it was received, and then that it was passed
      on or that the loop has stopped. */
  function NotesOf(d: Delivery): seq<Obs> {
    [Got(d.event)] +
    match d.event.kind
    case Added | Modified | Deleted =>
      if !d.event.convertible then [] else if d.cancelledAtGuard then [Stopped] else [Emitted(d.event)]
    case _ => []
  }

  /** The deliveries up to the first that ends the stream. */
  function NotesOfAll(ds: seq<Delivery>): seq<Obs>
    decreases |ds|
  {
    if ds == [] then [] else NotesOf(ds[0]) + if EndsStream(ds[0]) then [] else NotesOfAll(ds[1..])
  }

  predicate Through(ds: seq<Delivery>) {
    forall i | 0 <= i < |ds| :: !EndsStream(ds[i])
  }

  /** How the end of a stream shows: a close is early exactly if it was quick and nothing
      was delivered. */
  function NotesOfEnding(ds: seq<Delivery>, ending: Ending, failures: nat): seq<Obs> {
    match ending
    case CancelledInStream => [Stopped]
    case Closed(quick, cancelled) =>
      var early := quick && ds == [];
      [if early then ClosedEarly else ClosedLate,
       if cancelled then Stopped else Waited(if early then Delay(failures + 1) else 1)]
  }

  function NotesOfAttempt(a: Attempt, version: string, failures: nat): seq<Obs> {
    if a.cancelledBefore then [Stopped]
    else
      match a.opening
      case Refused(stale, cancelled) =>
        [Sent(version), OpenFailed(stale), if cancelled then Stopped else Waited(Delay(failures + 1))]
      case Accepted(ds, ending) =>
        [Sent(version)] + (NotesOfAll(ds) + if Through(ds) then NotesOfEnding(ds, ending, failures) else [])
  }

  /** Handling one delivery: what it shows, whether the stream goes on, the failures and
      the version it leaves. */
  lemma DeliveryIsHandled(l: Loop, d: Delivery)
    requires l.streaming && !l.stopped
    ensures var l', e := Deliver(l, d), d.event;
      && l'.trace == l.trace + NotesOf(d)
      && l'.streaming == !EndsStream(d) && l'.stopped == (EndsStream(d) && !e.kind.Error?)
      && l'.receivedAny && l'.failures == (if e.kind.Error? then 1 else 0) && l'.tracked == l.tracked
      && (l.tracked && e.kind.Error? ==> l'.version == if e.kind.stale then "" else l.version)
      && (l.tracked && !e.kind.Error? ==>
            l'.version == if e.convertible && e.version != "" then e.version else l.version)
  {
    if Emittable(d.event) {
      assert l.trace + [Got(d.event)] + NotesOf(d)[1..] == l.trace + NotesOf(d);
    } else {
      assert NotesOf(d) == [Got(d.event)];
    }
  }

  lemma {:induction false} DeliveriesAreHandled(l: Loop, ds: seq<Delivery>)
    requires l.streaming && !l.stopped
    ensures var l' := DeliverAll(l, ds);
      && l'.trace == l.trace + NotesOfAll(ds) && (l'.streaming <==> Through(ds))
      && (ds == [] ==> l' == l) && (ds != [] ==> l'.receivedAny)
    decreases |ds|
  {
    if ds == [] {
      assert l.trace + [] == l.trace;
    } else {
      DeliveryIsHandled(l, ds[0]);
      var l1 := Deliver(l, ds[0]);
      if EndsStream(ds[0]) {
        assert DeliverAll(l1, ds[1..]) == l1 && NotesOf(ds[0]) + [] == NotesOf(ds[0]);
      } else {
        DeliveriesAreHandled(l1, ds[1..]);
        ConcatAssoc(l.trace, NotesOf(ds[0]), NotesOfAll(ds[1..]));
        assert Through(ds) <==> Through(ds[1..]) by {
          assert forall i | 0 < i < |ds| :: ds[i] == ds[1..][i - 1];
        }
      }
    }
  }

  lemma EndingIsNoted(l: Loop, ds: seq<Delivery>, ending: Ending, failures: nat)
    requires l.streaming && !l.stopped && (ds == [] ==> !l.receivedAny && l.failures == failures)
    requires ds != [] ==> l.receivedAny
    ensures End(l, ending).trace == l.trace + NotesOfEnding(ds, ending, failures)
  {
    match ending
    case CancelledInStream =>
    case Closed(quick, cancelled) =>
      var notes := NotesOfEnding(ds, ending, failures);
      assert l.trace + [notes[0]] + [notes[1]] == l.trace + notes;
  }

  /** Main result for one attempt: the trace is what the script makes of it, all
      deliveries up to the end of the stream included. */
  lemma AttemptIsNoted(l: Loop, a: Attempt)
    requires !l.stopped
    ensures TryOnce(l, a).trace == l.trace + NotesOfAttempt(a, l.version, l.failures)
  {
    if !a.cancelledBefore {
      match a.opening
      case Refused(stale, cancelled) =>
        var notes := NotesOfAttempt(a, l.version, l.failures);
        assert l.trace + [notes[0]] + [notes[1]] + [notes[2]] == l.trace + notes;
      case Accepted(ds, ending) => StreamIsNoted(Note(l, Sent(l.version)), ds, ending);
        var rest := NotesOfAll(ds) + if Through(ds) then NotesOfEnding(ds, ending, l.failures) else [];
        ConcatAssoc(l.trace, [Sent(l.version)], rest);
    }
  }

  lemma StreamIsNoted(l: Loop, ds: seq<Delivery>, ending: Ending)
    requires !l.stopped
    ensures Stream(l, ds, ending).trace
      == l.trace + (NotesOfAll(ds) + if Through(ds) then NotesOfEnding(ds, ending, l.failures) else [])
  {
    var l0 := l.(streaming := true, receivedAny := false);
    var l1 := DeliverAll(l0, ds);
    DeliveriesAreHandled(l0, ds);
    if Through(ds) {
      ThroughIsNotStopped(l0, ds);
      EndingIsNoted(l1, ds, ending, l.failures);
      ConcatAssoc(l.trace, NotesOfAll(ds), NotesOfEnding(ds, ending, l.failures));
    } else {
      assert NotesOfAll(ds) + [] == NotesOfAll(ds);
    }
  }

  lemma {:induction false} ThroughIsNotStopped(l: Loop, ds: seq<Delivery>)
    requires l.streaming && !l.stopped && Through(ds)
    ensures !DeliverAll(l, ds).stopped
    decreases |ds|
  {
    if ds != [] {
      DeliveryIsHandled(l, ds[0]);
      assert forall i | 0 < i < |ds| :: ds[i] == ds[1..][i - 1];
      ThroughIsNotStopped(Deliver(l, ds[0]), ds[1..]);
    }
  }

  // ---------------------------------------------------------------- exactly once, in order

  /** The emittable events received, in order. */
  function Received(trace: seq<Obs>): seq<WatchEvent> {
    if trace == [] then []
    else
      var o := trace[|trace| - 1];
      Received(trace[..|trace| - 1]) + if o.Got? && Emittable(o.event) then [o.event] else []
  }

  function EmittedEvents(trace: seq<Obs>): seq<WatchEvent> {
    if trace == [] then []
    else
      var o := trace[|trace| - 1];
      EmittedEvents(trace[..|trace| - 1]) + EmittedOf(o)
  }

  /** Every emittable event received is emitted once, in order; one may still be due. */
  lemma {:induction false} EmittedOnceInOrder(trace: seq<Obs>, tracked: bool, initial: string)
    requires Read(trace, tracked, initial).right
    ensures Received(trace) == EmittedEvents(trace) + Read(trace, tracked, initial).due
    decreases |trace|
  {
    if trace != [] {
      var before, o := trace[..|trace| - 1], trace[|trace| - 1];
      EmittedOnceInOrder(before, tracked, initial);
      var due := Read(before, tracked, initial).due;
      if o.Emitted? { assert due == [o.event]; }
    }
  }

  function EmittedOf(o: Obs): seq<WatchEvent> {
    if o.Emitted? then [o.event] else []
  }

  lemma {:induction false} EmittedConcat(a: seq<Obs>, b: seq<Obs>)
    ensures EmittedEvents(a + b) == EmittedEvents(a) + EmittedEvents(b)
    decreases |b|
  {
    if b == [] {
      assert a + b == a;
    } else {
      var init, last := b[..|b| - 1], b[|b| - 1];
      EmittedConcat(a, init);
      assert (a + b)[..|a + b| - 1] == a + init && (a + b)[|a + b| - 1] == last;
      ConcatAssoc(EmittedEvents(a), EmittedEvents(init), EmittedOf(last));
    }
  }

  lemma {:induction false} NoneEmitted(notes: seq<Obs>)
    requires forall i | 0 <= i < |notes| :: !notes[i].Emitted?
    ensures EmittedEvents(notes) == []
  {
    if notes != [] { NoneEmitted(notes[..|notes| - 1]); }
  }

  /** What a stream has to pass on: every convertible ADDED, MODIFIED or DELETED before
      the delivery that ends it. */
  function ToEmit(ds: seq<Delivery>): seq<WatchEvent>
    decreases |ds|
  {
    if ds == [] || EndsStream(ds[0]) then []
    else (if Emittable(ds[0].event) then [ds[0].event] else []) + ToEmit(ds[1..])
  }

  /** The loop is cancelled while it handles one of these. */
  predicate StopsWithin(ds: seq<Delivery>)
    decreases |ds|
  {
    ds != [] && if EndsStream(ds[0]) then !ds[0].event.kind.Error? else StopsWithin(ds[1..])
  }

  predicate StopsAfter(a: Attempt) {
    a.cancelledBefore ||
    match a.opening
    case Refused(_, cancelled) => cancelled
    case Accepted(ds, ending) =>
      StopsWithin(ds) || (Through(ds) && (ending.CancelledInStream? || ending.cancelledInWait))
  }

  function AttemptEmits(a: Attempt): seq<WatchEvent> {
    if a.cancelledBefore || a.opening.Refused? then [] else ToEmit(a.opening.deliveries)
  }

  /** ... over all attempts up to the one in which the loop is cancelled. */
  function RunEmits(attempts: seq<Attempt>): seq<WatchEvent>
    decreases |attempts|
  {
    if attempts == [] then []
    else AttemptEmits(attempts[0]) + if StopsAfter(attempts[0]) then [] else RunEmits(attempts[1..])
  }

  lemma NotesOfOneEmit(d: Delivery)
    ensures EmittedEvents(NotesOf(d)) == if Emittable(d.event) && !d.cancelledAtGuard then [d.event] else []
  {
    EmittedConcat([Got(d.event)], NotesOf(d)[1..]);
    NoneEmitted([Got(d.event)]);
    if Emittable(d.event) {
      assert NotesOf(d) == [Got(d.event)] + NotesOf(d)[1..] && |NotesOf(d)[1..]| == 1;
      assert NotesOf(d)[1..][..0] == [];
    } else {
      assert NotesOf(d) == [Got(d.event)];
    }
  }

  lemma {:induction false} NotesEmit(ds: seq<Delivery>)
    ensures EmittedEvents(NotesOfAll(ds)) == ToEmit(ds)
    decreases |ds|
  {
    if ds != [] {
      NotesOfOneEmit(ds[0]);
      if EndsStream(ds[0]) {
        assert NotesOfAll(ds) == NotesOf(ds[0]);
      } else {
        NotesEmit(ds[1..]);
        EmittedConcat(NotesOf(ds[0]), NotesOfAll(ds[1..]));
      }
    }
  }

  lemma AttemptNotesEmit(a: Attempt, version: string, failures: nat)
    ensures EmittedEvents(NotesOfAttempt(a, version, failures)) == AttemptEmits(a)
  {
    if a.cancelledBefore || a.opening.Refused? {
      NoneEmitted(NotesOfAttempt(a, version, failures));
    } else {
      var ds := a.opening.deliveries;
      var ending := if Through(ds) then NotesOfEnding(ds, a.opening.ending, failures) else [];
      NoneEmitted([Sent(version)]);
      NoneEmitted(ending);
      NotesEmit(ds);
      EmittedConcat(NotesOfAll(ds), ending);
      EmittedConcat([Sent(version)], NotesOfAll(ds) + ending);
      assert ToEmit(ds) + [] == ToEmit(ds);
    }
  }

  lemma {:induction false} DeliveriesStop(l: Loop, ds: seq<Delivery>)
    requires l.streaming && !l.stopped
    ensures DeliverAll(l, ds).stopped <==> StopsWithin(ds)
    ensures StopsWithin(ds) ==> !Through(ds)
    decreases |ds|
  {
    if ds != [] {
      DeliveryIsHandled(l, ds[0]);
      if !EndsStream(ds[0]) {
        DeliveriesStop(Deliver(l, ds[0]), ds[1..]);
        assert forall i | 0 < i < |ds| :: ds[i] == ds[1..][i - 1];
      }
    }
  }

  lemma AttemptStops(l: Loop, a: Attempt)
    requires !l.stopped
    ensures TryOnce(l, a).stopped <==> StopsAfter(a)
  {
    if !a.cancelledBefore && a.opening.Accepted? {
      var l0 := Note(l, Sent(l.version)).(streaming := true, receivedAny := false);
      DeliveriesAreHandled(l0, a.opening.deliveries);
      DeliveriesStop(l0, a.opening.deliveries);
    }
  }

  lemma {:induction false} RunEmitsThose(l: Loop, attempts: seq<Attempt>)
    requires !l.stopped
    ensures EmittedEvents(Run(l, attempts).trace) == EmittedEvents(l.trace) + RunEmits(attempts)
    decreases |attempts|
  {
    if attempts == [] {
      assert EmittedEvents(l.trace) + [] == EmittedEvents(l.trace);
    } else {
      var a, l1 := attempts[0], TryOnce(l, attempts[0]);
      AttemptIsNoted(l, a);
      AttemptNotesEmit(a, l.version, l.failures);
      EmittedConcat(l.trace, NotesOfAttempt(a, l.version, l.failures));
      AttemptStops(l, a);
      if StopsAfter(a) {
        assert Run(l1, attempts[1..]) == l1 && RunEmits(attempts) == AttemptEmits(a);
      } else {
        RunEmitsThose(l1, attempts[1..]);
        ConcatAssoc(EmittedEvents(l.trace), AttemptEmits(a), RunEmits(attempts[1..]));
      }
    }
  }

  /** Main result for events: a run emits every convertible ADDED, MODIFIED or DELETED
      that is delivered to it before it is cancelled, once and in order, and nothing
      else; the last one received may be left over when it is cancelled. */
  lemma EveryRunEmitsOnce(l: Loop, attempts: seq<Attempt>, initial: string)
    requires Good(l, initial)
    ensures var l' := Run(l, attempts);
      && (!l.stopped ==> EmittedEvents(l'.trace) == EmittedEvents(l.trace) + RunEmits(attempts))
      && Received(l'.trace) == EmittedEvents(l'.trace) + Read(l'.trace, l'.tracked, initial).due
      && (!l'.stopped ==> Received(l'.trace) == EmittedEvents(l'.trace))
  {
    EveryRunIsGood(l, attempts, initial);
    var l' := Run(l, attempts);
    if !l.stopped { RunEmitsThose(l, attempts); }
    EmittedOnceInOrder(l'.trace, l'.tracked, initial);
    assert EmittedEvents(l'.trace) + [] == EmittedEvents(l'.trace);
  }

  /** A loop that has just been started, from the version in its watcher entry. */
  function NewLoop(tracked: bool, version: string): Loop {
    Loop(tracked, if tracked then version else "", 0, false, false, false, [])
  }

  lemma NewLoopIsGood(tracked: bool, version: string)
    ensures Good(NewLoop(tracked, version), version)
  {
  }

  /** Both main results from the start of a loop. */
  lemma EveryRunFromTheStart(tracked: bool, version: string, attempts: seq<Attempt>)
    ensures var l := Run(NewLoop(tracked, version), attempts);
      && Good(l, version) && EmittedEvents(l.trace) == RunEmits(attempts)
      && Received(l.trace) == EmittedEvents(l.trace) + Read(l.trace, l.tracked, version).due
      && (!l.stopped ==> Received(l.trace) == EmittedEvents(l.trace))
  {
    assert [] + RunEmits(attempts) == RunEmits(attempts);
    NewLoopIsGood(tracked, version);
    EveryRunIsGood(NewLoop(tracked, version), attempts, version);
    EveryRunEmitsOnce(NewLoop(tracked, version), attempts, version);
  }

  /** The delays: two seconds after the first failure, doubling, two minutes at most. */
  lemma DelayDoubles(failures: nat)
    ensures failures >= 1 ==> 2 <= Delay(failures) <= 120
    ensures failures <= 6 ==> Delay(failures) == Pow2(failures)
    ensures failures >= 7 ==> Delay(failures) == 120
    ensures failures <= 5 ==> Delay(failures + 1) == 2 * Delay(failures)
  {
    assert Pow2(1) == 2 && Pow2(2) == 4 && Pow2(3) == 8;
    assert Pow2(4) == 16 && Pow2(5) == 32 && Pow2(6) == 64 && Pow2(7) == 128;
  }

  // ---------------------------------------------------------------- the mutable loop

  /** The manager's entry for a watcher, as far as the loop uses it. */
  class ResourceWatcher {
    var resourceVersion: string

    constructor (version: string)
      ensures resourceVersion == version
    {
      resourceVersion := version;
    }
  }

  class Watching {
    const rw: ResourceWatcher?
    var consecutiveFailures: nat
    var watcherDone: bool
    var receivedAny: bool
    var stopped: bool
    var trace: seq<Obs>

    constructor (rw: ResourceWatcher?)
      ensures this.rw == rw
      ensures View() == NewLoop(rw != null, if rw != null then rw.resourceVersion else "")
    {
      this.rw := rw;
      consecutiveFailures, watcherDone, receivedAny, stopped, trace := 0, true, false, false, [];
    }

    ghost function View(): Loop
      reads this, rw
    {
      Loop(rw != null, if rw != null then rw.resourceVersion else "",
           consecutiveFailures, !watcherDone, receivedAny, stopped, trace)
    }

    method SetResourceVersion(version: string)
      modifies rw
      ensures View() == SetVersion(old(View()), version)
    {
      if rw != null && version != "" {
        rw.resourceVersion := version;
      }
    }

    method ClearResourceVersion()
      modifies rw
      ensures View() == ClearVersion(old(View()))
    {
      if rw != null {
        rw.resourceVersion := "";
      }
    }

    method Return()
      modifies this
      ensures View() == Stop(old(View()))
    {
      trace, stopped, watcherDone := trace + [Stopped], true, true;
    }

    method Wait(seconds: nat, cancelled: bool)
      modifies this
      ensures View() == WaitFor(old(View()), seconds, cancelled)
    {
      if cancelled {
        Return();
      } else {
        trace := trace + [Waited(seconds)];
      }
    }

    method BackOff(failures: nat) returns (delay: nat)
      ensures delay == Delay(failures)
    {
      delay := Pow2(if failures < 7 then failures else 7);
      if delay > MAX_DELAY {
        delay := MAX_DELAY;
      }
    }

    method Receive(d: Delivery)
      requires !watcherDone
      modifies this, rw
      ensures View() == Deliver(old(View()), d)
      ensures !old(stopped) ==> trace == old(trace) + NotesOf(d)
    {
      if !stopped { DeliveryIsHandled(View(), d); }
      var event := d.event;
      trace := trace + [Got(event)];
      receivedAny := true;
      consecutiveFailures := 0;
      if event.kind.Error? {
        if event.kind.stale {
          ClearResourceVersion();
        }
        watcherDone := true;
        consecutiveFailures := consecutiveFailures + 1;
        return;
      }
      if !event.convertible {
        return;
      }
      SetResourceVersion(event.version);
      if event.kind.Bookmark? {
        return;
      }
      if event.kind.Added? || event.kind.Modified? || event.kind.Deleted? {
        if d.cancelledAtGuard {
          Return();
          return;
        }
        trace := trace + [Emitted(event)];
      }
    }

    method ChannelClosed(quick: bool, cancelledInWait: bool)
      requires !watcherDone
      modifies this
      ensures View() == End(old(View()), Closed(quick, cancelledInWait))
    {
      watcherDone := true;
      var immediateClosure := !receivedAny && quick;
      if immediateClosure {
        consecutiveFailures := consecutiveFailures + 1;
        trace := trace + [ClosedEarly];
      } else {
        consecutiveFailures := 0;
        trace := trace + [ClosedLate];
      }
      var delay := 1;
      if immediateClosure {
        delay := BackOff(consecutiveFailures);
      }
      Wait(delay, cancelledInWait);
    }

    method ProcessStream(ds: seq<Delivery>, ending: Ending)
      requires !stopped
      modifies this, rw
      ensures View() == Stream(old(View()), ds, ending)
      ensures trace == old(trace) + (NotesOfAll(ds)
        + if Through(ds) then NotesOfEnding(ds, ending, old(consecutiveFailures)) else [])
    {
      StreamIsNoted(View(), ds, ending);
      watcherDone, receivedAny := false, false;
      ghost var l0 := View();
      var i := 0;
      while i < |ds| && !watcherDone
        invariant 0 <= i <= |ds| && DeliverAll(View(), ds[i..]) == DeliverAll(l0, ds)
        decreases |ds| - i
      {
        assert ds[i..][1..] == ds[i + 1..];
        Receive(ds[i]);
        i := i + 1;
      }
      if !watcherDone {
        match ending {
          case CancelledInStream => Return();
          case Closed(quick, cancelledInWait) => ChannelClosed(quick, cancelledInWait);
        }
      }
    }

    method OpenRefused(version: string, stale: bool, cancelledInWait: bool)
      requires version == View().version
      modifies this, rw
      ensures View() == Refuse(old(View()), stale, cancelledInWait)
    {
      consecutiveFailures := consecutiveFailures + 1;
      trace := trace + [OpenFailed(stale)];
      if version != "" && stale {
        ClearResourceVersion();
      }
      var delay := BackOff(consecutiveFailures);
      Wait(delay, cancelledInWait);
    }

    method Try(a: Attempt)
      requires !stopped
      modifies this, rw
      ensures View() == TryOnce(old(View()), a)
    {
      if a.cancelledBefore {
        Return();
        return;
      }
      var version := if rw != null then rw.resourceVersion else "";
      trace := trace + [Sent(version)];
      match a.opening {
        case Refused(stale, cancelledInWait) => OpenRefused(version, stale, cancelledInWait);
        case Accepted(ds, ending) => ProcessStream(ds, ending);
      }
    }

    /** The outer loop over a finite part of what the outside does. */
    method WatchResourceLoop(attempts: seq<Attempt>)
      requires !stopped
      modifies this, rw
      ensures View() == Run(old(View()), attempts)
      ensures EmittedEvents(trace) == EmittedEvents(old(trace)) + RunEmits(attempts)
    {
      RunEmitsThose(View(), attempts);
      ghost var l0 := View();
      var i := 0;
      while i < |attempts| && !stopped
        invariant 0 <= i <= |attempts| && Run(View(), attempts[i..]) == Run(l0, attempts)
        decreases |attempts| - i
      {
        assert attempts[i..][1..] == attempts[i + 1..];
        Try(attempts[i]);
        i := i + 1;
      }
    }
  }
}
