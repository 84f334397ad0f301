/** The part of Go's timer runtime that the coalescers and the watcher manager rely on. */
module GoTimers {
  import opened Common

  /** The runtime's view of `time.AfterFunc`.  A timer is `armed` until its delay
      has passed and `due` from then until its callback gets the owner's lock.
      `Stop` only reaches armed timers: a due callback still runs, however late. */
  datatype Timers<P> = Timers(armed: map<nat, P>, due: map<nat, P>, next: nat) {

    ghost predicate Valid() {
      && armed.Keys !! due.Keys
      && (forall id | id in armed :: id < next)
      && (forall id | id in due :: id < next)
    }

    function Live(): set<nat> {
      armed.Keys + due.Keys
    }

    function AfterFunc(payload: P): Timers<P> {
      this.(armed := armed[next := payload], next := next + 1)
    }

    function Stop(handle: Option<nat>): Timers<P> {
      if handle.Some? then this.(armed := armed - {handle.value}) else this
    }

    /** The delay of timer `id` passes: its callback is started. */
    function Expire(id: nat): Timers<P>
      requires id in armed
    {
      this.(armed := armed - {id}, due := due[id := armed[id]])
    }

    /** The callback of timer `id` gets the lock: it is no longer outstanding. */
    function Begin(id: nat): Timers<P> {
      this.(due := due - {id})
    }
  }

  function NoTimers<P>(): Timers<P> {
    Timers(map[], map[], 0)
  }
}
