/** Model of listrequests.go and metricsrequests.go: cancellable requests tracked
    by id, with sequence numbers that keep late completions apart. */
module RequestManagers {

  // ---------------------------------------------------------------- data model

  /** A request and its context are both named by the request's sequence number.
      `open` maps the pending sequence numbers to their ids, `done` and `dropped`
      are the sequence numbers that were counted as completed and as cancelled,
      and `cancelled` are the contexts whose cancel function was called. */
  datatype State = State(
    requests: map<string, nat>,
    sequence: nat,
    cancellationEnabled: bool,
    total: int,
    pending: int,
    completed: int,
    canceled: int,
    cancelled: set<nat>,
    open: map<nat, string>,
    done: set<nat>,
    dropped: set<nat>)

  datatype Step =
    | Start(id: string)
    | Complete(id: string, sequence: int)
    | Cancel(id: string)
    | SetCancellation(enabled: bool)

  function Init(): State {
    State(map[], 0, true, 0, 0, 0, 0, {}, map[], {}, {})
  }

  // ---------------------------------------------------------------- atomic steps

  /** Request n is logically cancelled; its context only if cancellation is on. */
  function CancelEntry(s: State, n: nat): State {
    s.(cancelled := if s.cancellationEnabled then s.cancelled + {n} else s.cancelled,
       canceled := s.canceled + 1,
       pending := s.pending - 1,
       open := s.open - {n},
       dropped := s.dropped + {n})
  }

  function StartStep(s: State, id: string): State {
    var s' := if id in s.requests then CancelEntry(s, s.requests[id]) else s;
    s'.(requests := s.requests[id := s.sequence + 1],
        sequence := s.sequence + 1,
        total := s.total + 1,
        pending := s'.pending + 1,
        open := s'.open[s.sequence + 1 := id])
  }

  function CompleteStep(s: State, id: string, n: int): State {
    if id in s.requests && s.requests[id] == n then
      s.(requests := s.requests - {id}, completed := s.completed + 1, pending := s.pending - 1,
         open := s.open - {n}, done := s.done + {n})
    else s
  }

  function CancelStep(s: State, id: string): State {
    if id in s.requests then CancelEntry(s, s.requests[id]).(requests := s.requests - {id}) else s
  }

  function Next(s: State, step: Step): State {
    match step
    case Start(id) => StartStep(s, id)
    case Complete(id, n) => CompleteStep(s, id, n)
    case Cancel(id) => CancelStep(s, id)
    case SetCancellation(enabled) => s.(cancellationEnabled := enabled)
  }

  function Exec(s: State, steps: seq<Step>): State
    decreases |steps|
  {
    if steps == [] then s else Exec(Next(s, steps[0]), steps[1..])
  }

  // ---------------------------------------------------------------- accounting

  /** Pending sequence numbers and tracked requests correspond one to one. */
  ghost predicate Tracks(s: State) {
    && (forall id | id in s.requests :: s.requests[id] in s.open && s.open[s.requests[id]] == id)
    && (forall n | n in s.open :: s.open[n] in s.requests && s.requests[s.open[n]] == n)
  }

  ghost predicate Bucketed(s: State, n: nat) {
    n in s.open || n in s.done || n in s.dropped
  }

  /** Every sequence number handed out is in exactly one bucket. */
  ghost predicate Partitioned(s: State) {
    && (forall n: nat | 0 < n <= s.sequence :: Bucketed(s, n))
    && (forall n | n in s.open :: 0 < n <= s.sequence && n !in s.done && n !in s.dropped)
    && (forall n | n in s.done :: 0 < n <= s.sequence && n !in s.dropped)
    && (forall n | n in s.dropped :: 0 < n <= s.sequence)
  }

  ghost predicate Accounted(s: State) {
    && s.total == s.completed + s.canceled + s.pending
    && s.total == s.sequence
    && s.pending == |s.requests|
    && s.completed == |s.done|
    && s.canceled == |s.dropped|
  }

  ghost predicate Invariant(s: State) {
    Tracks(s) && Partitioned(s) && Accounted(s)
  }

  lemma CancelEntryKeepsTracks(s: State, id: string)
    requires Tracks(s) && Partitioned(s) && id in s.requests
    ensures Tracks(CancelStep(s, id)) && Partitioned(CancelStep(s, id))
  {
    assert forall n: nat | Bucketed(s, n) :: Bucketed(CancelStep(s, id), n);
  }

  lemma StartKeepsTracks(s: State, id: string)
    requires Tracks(s) && Partitioned(s)
    ensures Tracks(StartStep(s, id)) && Partitioned(StartStep(s, id))
  {
    if id in s.requests { CancelEntryKeepsTracks(s, id); }
    var s' := StartStep(s, id);
    assert forall n: nat | Bucketed(CancelStep(s, id), n) :: Bucketed(s', n);
  }

  lemma CompleteKeepsTracks(s: State, id: string, n: int)
    requires Tracks(s) && Partitioned(s)
    ensures Tracks(CompleteStep(s, id, n)) && Partitioned(CompleteStep(s, id, n))
  {
    assert forall k: nat | Bucketed(s, k) :: Bucketed(CompleteStep(s, id, n), k);
  }

  lemma DropKey(m: map<string, nat>, id: string)
    requires id in m
    ensures |m - {id}| == |m| - 1
  {
    assert (m - {id}).Keys == m.Keys - {id};
  }

  lemma SetKey(m: map<string, nat>, id: string, n: nat)
    ensures |m[id := n]| == |m| + (if id in m then 0 else 1)
  {
    assert m[id := n].Keys == m.Keys + {id};
  }

  lemma CancelKeepsAccounted(s: State, id: string)
    requires Invariant(s) && id in s.requests
    ensures Accounted(CancelStep(s, id))
  {
    DropKey(s.requests, id);
  }

  lemma StartKeepsAccounted(s: State, id: string)
    requires Invariant(s)
    ensures Accounted(StartStep(s, id))
  {
    SetKey(s.requests, id, s.sequence + 1);
  }

  lemma CompleteKeepsAccounted(s: State, id: string, n: int)
    requires Invariant(s)
    ensures Accounted(CompleteStep(s, id, n))
  {
    if id in s.requests { DropKey(s.requests, id); }
  }

  lemma NextKeepsInvariant(s: State, step: Step)
    requires Invariant(s)
    ensures Invariant(Next(s, step))
  {
    match step
    case Start(id) => StartKeepsTracks(s, id); StartKeepsAccounted(s, id);
    case Complete(id, n) => CompleteKeepsTracks(s, id, n); CompleteKeepsAccounted(s, id, n);
    case Cancel(id) => if id in s.requests { CancelEntryKeepsTracks(s, id); CancelKeepsAccounted(s, id); }
    case SetCancellation(_) => assert forall n: nat | Bucketed(s, n) :: Bucketed(Next(s, step), n);
  }

  ghost predicate Extends(s: State, s': State) {
    s.sequence <= s'.sequence && s.done <= s'.done && s.dropped <= s'.dropped
  }

  lemma NextExtends(s: State, step: Step)
    ensures Extends(s, Next(s, step))
  {
  }

  /** Main result: in every run the counters add up, `pending` is the number of
      tracked requests, sequence numbers only grow, every sequence number is in
      exactly one bucket, and one that was counted as completed or as cancelled
      stays counted so. */
  lemma {:induction false} EveryRunIsAccounted(s: State, steps: seq<Step>)
    requires Invariant(s)
    ensures Invariant(Exec(s, steps)) && Extends(s, Exec(s, steps))
    decreases |steps|
  {
    if steps != [] {
      NextKeepsInvariant(s, steps[0]);
      NextExtends(s, steps[0]);
      EveryRunIsAccounted(Next(s, steps[0]), steps[1..]);
    }
  }

  lemma InitAccounted()
    ensures Invariant(Init())
  {
  }

  /** So it holds in every state a new manager can come to. */
  lemma EveryRunFromTheStart(steps: seq<Step>)
    ensures Invariant(Exec(Init(), steps))
  {
    InitAccounted();
    EveryRunIsAccounted(Init(), steps);
  }

  /** A late completion never touches a newer request with the same id: once an id
      has been started again, completing any sequence number it had before changes
      nothing, whatever happened before the restart and whatever happens after it. */
  lemma LateCompletionIsIgnored(s: State, id: string, n: nat, after: seq<Step>)
    requires Invariant(s) && 0 < n <= s.sequence && (n in s.open ==> s.open[n] == id)
    ensures var later := Exec(StartStep(s, id), after);
      CompleteStep(later, id, n) == later
  {
    var restarted := StartStep(s, id);
    NextKeepsInvariant(s, Start(id));
    assert Bucketed(s, n);
    assert n in restarted.done || n in restarted.dropped;
    EveryRunIsAccounted(restarted, after);
  }

  /** The two starts of an id with anything between them and after them: completing
      the first one changes nothing. */
  lemma FirstOfTwoStartsIsIgnored(s: State, id: string, between: seq<Step>, after: seq<Step>)
    requires Invariant(s)
    ensures var first := StartStep(s, id);
      var later := Exec(StartStep(Exec(first, between), id), after);
      CompleteStep(later, id, first.sequence) == later
  {
    var first := StartStep(s, id);
    NextKeepsInvariant(s, Start(id));
    EveryRunIsAccounted(first, between);
    KeepsItsId(first, first.sequence, id, between);
    LateCompletionIsIgnored(Exec(first, between), id, first.sequence, after);
  }

  /** Sequence number n was handed out, and for `id` if it is still pending. */
  ghost predicate HandedOut(s: State, n: nat, id: string) {
    n <= s.sequence && (n in s.open ==> s.open[n] == id)
  }

  lemma NextKeepsHandedOut(s: State, step: Step, n: nat, id: string)
    requires HandedOut(s, n, id)
    ensures HandedOut(Next(s, step), n, id)
  {
  }

  lemma {:induction false} KeepsItsId(s: State, n: nat, id: string, steps: seq<Step>)
    requires HandedOut(s, n, id)
    ensures HandedOut(Exec(s, steps), n, id)
    decreases |steps|
  {
    if steps != [] {
      NextKeepsHandedOut(s, steps[0], n, id);
      KeepsItsId(Next(s, steps[0]), n, id, steps[1..]);
    }
  }

  // ---------------------------------------------------------------- cancellation on or off

  /** Everything but the switch and the contexts it has cancelled. */
  function Erase(s: State): State {
    s.(cancellationEnabled := false, cancelled := {})
  }

  function WithoutSwitch(steps: seq<Step>): seq<Step>
    decreases |steps|
  {
    if steps == [] then []
    else (if steps[0].SetCancellation? then [] else [steps[0]]) + WithoutSwitch(steps[1..])
  }

  lemma NextErased(s: State, step: Step)
    ensures Erase(Next(s, step)) == if step.SetCancellation? then Erase(s) else Next(Erase(s), step)
    ensures !step.SetCancellation? ==> Next(Erase(s), step) == Erase(Next(Erase(s), step))
  {
  }

  lemma {:induction false} ExecErased(s: State, steps: seq<Step>)
    ensures Erase(Exec(s, steps)) == Exec(Erase(s), WithoutSwitch(steps))
    decreases |steps|
  {
    if steps != [] {
      var rest := WithoutSwitch(steps[1..]);
      NextErased(s, steps[0]);
      ExecErased(Next(s, steps[0]), steps[1..]);
      if steps[0].SetCancellation? {
        assert WithoutSwitch(steps) == rest;
      } else {
        assert WithoutSwitch(steps)[0] == steps[0] && WithoutSwitch(steps)[1..] == rest;
      }
    }
  }

  /** Main result: turning cancellation on or off, at any moments, changes nothing
      but which contexts are cancelled: not a result, not a counter. */
  lemma SwitchIsInvisible(s: State, s': State, steps: seq<Step>, steps': seq<Step>)
    requires Erase(s) == Erase(s') && WithoutSwitch(steps) == WithoutSwitch(steps')
    ensures Erase(Exec(s, steps)) == Erase(Exec(s', steps'))
  {
    ExecErased(s, steps);
    ExecErased(s', steps');
  }

  // ---------------------------------------------------------------- what each call does

  /** The requests of other ids are untouched. */
  ghost predicate OthersStay(s: State, s': State, id: string) {
    forall other | other != id ::
      (other in s'.requests <==> other in s.requests)
        && (other in s.requests ==> s'.requests[other] == s.requests[other])
  }

  /** Nothing but request n may have its context cancelled by the step; it has, if the
      switch is on. */
  ghost predicate OnlyCancels(s: State, s': State, n: nat) {
    && s.cancelled <= s'.cancelled <= s.cancelled + {n}
    && (s.cancellationEnabled ==> n in s'.cancelled)
    && (!s.cancellationEnabled ==> s'.cancelled == s.cancelled)
  }

  /** A cancel ends the request for good: it is no longer tracked, counts as canceled and
      no longer as pending, and completing it later changes nothing. */
  lemma CancelEndsTheRequest(s: State, id: string, after: seq<Step>)
    requires Invariant(s) && id in s.requests
    ensures var n, s' := s.requests[id], Next(s, Cancel(id));
      && id !in s'.requests && OthersStay(s, s', id)
      && s'.canceled == s.canceled + 1 && s'.pending == s.pending - 1
      && s'.completed == s.completed && s'.total == s.total && s'.sequence == s.sequence
      && n in s'.dropped && OnlyCancels(s, s', n)
      && CompleteStep(Exec(s', after), id, n) == Exec(s', after)
  {
    var n, s' := s.requests[id], Next(s, Cancel(id));
    NextKeepsInvariant(s, Cancel(id));
    assert n in s.open;
    EveryRunIsAccounted(s', after);
  }

  /** A completion with the current number does the same, but counts as completed and
      cancels nothing. */
  lemma CompleteEndsTheRequest(s: State, id: string, after: seq<Step>)
    requires Invariant(s) && id in s.requests
    ensures var n, s' := s.requests[id], Next(s, Complete(id, s.requests[id]));
      && id !in s'.requests && OthersStay(s, s', id)
      && s'.completed == s.completed + 1 && s'.pending == s.pending - 1
      && s'.canceled == s.canceled && s'.total == s.total && s'.sequence == s.sequence
      && n in s'.done && s'.cancelled == s.cancelled
      && CompleteStep(Exec(s', after), id, n) == Exec(s', after)
  {
    var n, s' := s.requests[id], Next(s, Complete(id, s.requests[id]));
    NextKeepsInvariant(s, Complete(id, n));
    assert n in s.open;
    EveryRunIsAccounted(s', after);
  }

  /** A start tracks the next number under the id; the request it replaces is cancelled. */
  lemma StartReplacesTheRequest(s: State, id: string)
    requires Invariant(s)
    ensures var s' := Next(s, Start(id));
      && id in s'.requests && s'.requests[id] == s'.sequence == s.sequence + 1 && OthersStay(s, s', id)
      && s'.total == s.total + 1 && s'.completed == s.completed
      && (id !in s.requests ==> s'.pending == s.pending + 1 && s'.canceled == s.canceled && s'.cancelled == s.cancelled)
      && (id in s.requests ==> s'.pending == s.pending && s'.canceled == s.canceled + 1)
      && (id in s.requests ==> s.requests[id] in s'.dropped && OnlyCancels(s, s', s.requests[id]))
  {
  }

  /** Any other cancel or completion changes nothing. */
  lemma UnknownChangesNothing(s: State, id: string, n: int)
    ensures id !in s.requests ==> Next(s, Cancel(id)) == s
    ensures id !in s.requests || s.requests[id] != n ==> Next(s, Complete(id, n)) == s
  {
  }

  /** With cancellation left on, the cancelled contexts are exactly those of the
      requests counted as cancelled; completed ones are never cancelled. */
  lemma {:induction false} CancellationOnCancelsExactly(s: State, steps: seq<Step>)
    requires s.cancelled == s.dropped && s.cancellationEnabled
    requires forall step | step in steps && step.SetCancellation? :: step.enabled
    ensures Exec(s, steps).cancelled == Exec(s, steps).dropped
    decreases |steps|
  {
    if steps != [] {
      assert steps[0] in steps;
      CancellationOnCancelsExactly(Next(s, steps[0]), steps[1..]);
    }
  }

  // ---------------------------------------------------------------- the code

  class ListRequestManager {
    var requests: map<string, nat>
    var sequence: nat
    var cancellationEnabled: bool
    var total: int
    var pending: int
    var completed: int
    var canceled: int
    var cancelled: set<nat>
    ghost var open: map<nat, string>
    ghost var done: set<nat>
    ghost var dropped: set<nat>

    ghost function View(): State
      reads this
    {
      State(requests, sequence, cancellationEnabled, total, pending, completed, canceled, cancelled, open, done,
        dropped)
    }

    constructor ()
      ensures View() == Init()
    {
      requests, sequence, cancellationEnabled := map[], 0, true;
      total, pending, completed, canceled := 0, 0, 0, 0;
      cancelled, open, done, dropped := {}, map[], {}, {};
    }

    method SetCancellationEnabled(enabled: bool)
      modifies this
      ensures View() == Next(old(View()), SetCancellation(enabled))
    {
      cancellationEnabled := enabled;
    }

    /** The cancelling part that StartRequest and CancelRequest share. */
    method Drop(n: nat)
      modifies this`cancelled, this`open, this`dropped, this`canceled, this`pending
      ensures View() == CancelEntry(old(View()), n)
    {
      if cancellationEnabled {
        cancelled := cancelled + {n};
      }
      open, dropped := open - {n}, dropped + {n};
      canceled := canceled + 1;
      pending := pending - 1;
    }

    method StartRequest(id: string) returns (seqNo: nat)
      modifies this
      ensures View() == Next(old(View()), Start(id)) && seqNo == sequence == old(sequence) + 1
    {
      if id in requests {
        Drop(requests[id]);
      }
      sequence := sequence + 1;
      seqNo := sequence;
      requests := requests[id := seqNo];
      open := open[seqNo := id];
      total := total + 1;
      pending := pending + 1;
    }

    method CompleteRequest(id: string, seqNo: int)
      modifies this
      ensures View() == Next(old(View()), Complete(id, seqNo))
    {
      if id in requests && requests[id] == seqNo {
        open, done := open - {requests[id]}, done + {requests[id]};
        requests := requests - {id};
        completed := completed + 1;
        pending := pending - 1;
      }
    }

    method CancelRequest(id: string) returns (found: bool)
      modifies this
      ensures View() == Next(old(View()), Cancel(id)) && found == (id in old(requests))
    {
      if id in requests {
        Drop(requests[id]);
        requests := requests - {id};
        return true;
      }
      return false;
    }
  }

  /** The metrics requests: the same machine without the switch. */
  class MetricsRequestManager {
    var requests: map<string, nat>
    var sequence: nat
    var total: int
    var pending: int
    var completed: int
    var canceled: int
    var cancelled: set<nat>
    ghost var open: map<nat, string>
    ghost var done: set<nat>
    ghost var dropped: set<nat>

    ghost function View(): State
      reads this
    {
      State(requests, sequence, true, total, pending, completed, canceled, cancelled, open, done, dropped)
    }

    constructor ()
      ensures View() == Init()
    {
      requests, sequence := map[], 0;
      total, pending, completed, canceled := 0, 0, 0, 0;
      cancelled, open, done, dropped := {}, map[], {}, {};
    }

    /** The cancelling part that StartRequest and CancelRequest share. */
    method Drop(n: nat)
      modifies this`cancelled, this`open, this`dropped, this`canceled, this`pending
      ensures View() == CancelEntry(old(View()), n)
    {
      cancelled := cancelled + {n};
      open, dropped := open - {n}, dropped + {n};
      canceled := canceled + 1;
      pending := pending - 1;
    }

    method StartRequest(id: string) returns (seqNo: nat)
      modifies this
      ensures View() == Next(old(View()), Start(id)) && seqNo == sequence == old(sequence) + 1
    {
      if id in requests {
        Drop(requests[id]);
      }
      sequence := sequence + 1;
      seqNo := sequence;
      requests := requests[id := seqNo];
      open := open[seqNo := id];
      total := total + 1;
      pending := pending + 1;
    }

    method CompleteRequest(id: string, seqNo: int)
      modifies this
      ensures View() == Next(old(View()), Complete(id, seqNo))
    {
      if id in requests && requests[id] == seqNo {
        open, done := open - {requests[id]}, done + {requests[id]};
        requests := requests - {id};
        completed := completed + 1;
        pending := pending - 1;
      }
    }

    method CancelRequest(id: string) returns (found: bool)
      modifies this
      ensures View() == Next(old(View()), Cancel(id)) && found == (id in old(requests))
    {
      if id in requests {
        Drop(requests[id]);
        requests := requests - {id};
        return true;
      }
      return false;
    }
  }
}
