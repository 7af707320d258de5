/**
 The callback lease of an outbound registration (guarded by callbackMux): callbacks
 take it, a replacement blocks it and waits until the running ones have drained.
 Any number of callbacks and of waiting threads interleave.
 */
module CallbackLease {
  import opened Basics

  /** `drained` is the channel the waiters share; a channel is closed when it is in `closed`. */
  datatype Lease = Lease(blocked: bool, active: nat, drained: Option<nat>, closed: set<nat>, nextChannel: nat)

  const IDLE := Lease(false, 0, None, {}, 0)

  /** `beginCallback`. */
  function Begin(l: Lease): Lease {
    if l.blocked then l else l.(active := l.active + 1)
  }

  /** `endCallback`, by a callback that holds the lease. */
  function End(l: Lease): Lease {
    if l.active == 0 then l
    else if l.active == 1 && l.drained.Some?
    then l.(active := 0, drained := None, closed := l.closed + {l.drained.value})
    else l.(active := l.active - 1)
  }

  /** `blockCallbacksAndWait` up to the wait. */
  function Block(l: Lease): Lease {
    if l.active == 0 then l.(blocked := true)
    else if l.drained.Some? then l.(blocked := true)
    else l.(blocked := true, drained := Some(l.nextChannel), nextChannel := l.nextChannel + 1)
  }

  /** The channel `blockCallbacksAndWait` waits on, if it has to wait. */
  function WaitsOn(l: Lease): Option<nat> {
    if l.active == 0 then None else Block(l).drained
  }

  /** Nobody holds the lease and nobody can ever take it again. */
  predicate Over(l: Lease) {
    l.blocked && l.active == 0
  }

  ghost predicate Sound(l: Lease) {
    && (l.drained.Some? ==> l.blocked && l.active > 0 && l.drained.value !in l.closed && l.drained.value < l.nextChannel)
    && (l.closed != {} ==> Over(l))
    && (forall c | c in l.closed :: c < l.nextChannel)
  }

  // ------------------------------------------------------ threads and runs

  datatype Event = Start | Finish | BlockBy(waiter: nat) | WakeUp(sleeper: nat)

  /** `waiting` maps a blocked thread to its channel; `returned` holds the threads
      whose call has returned. */
  datatype World = World(lease: Lease, waiting: map<nat, nat>, returned: set<nat>)

  function Step(w: World, e: Event): World {
    match e
    case Start => w.(lease := Begin(w.lease))
    case Finish => w.(lease := End(w.lease))
    case BlockBy(waiter) =>
      if waiter in w.waiting then w
      else if WaitsOn(w.lease).None? then World(Block(w.lease), w.waiting, w.returned + {waiter})
      else World(Block(w.lease), w.waiting[waiter := WaitsOn(w.lease).value], w.returned)
    case WakeUp(sleeper) =>
      if sleeper in w.waiting && w.waiting[sleeper] in w.lease.closed
      then World(w.lease, w.waiting - {sleeper}, w.returned + {sleeper})
      else w
  }

  function Run(events: seq<Event>): World {
    if events == [] then World(IDLE, map[], {}) else Step(Run(events[..|events| - 1]), events[|events| - 1])
  }

  ghost predicate Inv(w: World) {
    && Sound(w.lease)
    && (forall t | t in w.waiting :: Some(w.waiting[t]) == w.lease.drained || w.waiting[t] in w.lease.closed)
    && (w.returned != {} ==> Over(w.lease))
  }

  lemma {:induction false} Reachable(events: seq<Event>)
    ensures Inv(Run(events))
  {
    if events != [] {
      Reachable(events[..|events| - 1]);
    }
  }

  function Continue(w: World, events: seq<Event>): World {
    if events == [] then w else Step(Continue(w, events[..|events| - 1]), events[|events| - 1])
  }

  lemma {:induction false} OverForever(w: World, events: seq<Event>)
    requires Over(w.lease)
    ensures Over(Continue(w, events).lease)
  {
    if events != [] {
      OverForever(w, events[..|events| - 1]);
    }
  }

  /** Once any blocking call has returned, no callback is running and none can start,
      in any continuation of the run. */
  lemma NoCallbackAfterReturn(before: seq<Event>, after: seq<Event>)
    requires Run(before).returned != {}
    ensures var w := Continue(Run(before), after);
            w.lease.active == 0 && Begin(w.lease).active == 0
  {
    Reachable(before);
    OverForever(Run(before), after);
  }

  /** No wake-up is lost: when the last callback has ended, every waiting thread can
      proceed; and as long as one waits in vain, a callback is still running. */
  lemma NoLostWakeUp(events: seq<Event>, t: nat)
    requires t in Run(events).waiting
    ensures Run(events).lease.active == 0 <==> t in Step(Run(events), WakeUp(t)).returned && t !in Step(Run(events), WakeUp(t)).waiting
  {
    Reachable(events);
  }

  // --------------------------------------------------------- the live lease

  class CallbackGuard {
    var callbackBlocked: bool
    var callbackActive: nat
    var callbackDrained: Option<nat>
    var closedChannels: set<nat>
    var nextChannel: nat

    ghost function View(): Lease
      reads this
    {
      Lease(callbackBlocked, callbackActive, callbackDrained, closedChannels, nextChannel)
    }

    constructor ()
      ensures View() == IDLE
    {
      callbackBlocked, callbackActive, callbackDrained, closedChannels, nextChannel := false, 0, None, {}, 0;
    }

    method BeginCallback() returns (started: bool)
      modifies this
      ensures View() == Begin(old(View())) && started == !old(callbackBlocked)
    {
      if callbackBlocked { return false; }
      callbackActive := callbackActive + 1;
      return true;
    }

    method EndCallback()
      requires callbackActive > 0
      modifies this
      ensures View() == End(old(View()))
    {
      callbackActive := callbackActive - 1;
      if callbackActive == 0 && callbackDrained.Some? {
        closedChannels := closedChannels + {callbackDrained.value};
        callbackDrained := None;
      }
    }

    /** The critical section of `blockCallbacksAndWait`; the caller waits on the result. */
    method BlockCallbacks() returns (channel: Option<nat>)
      modifies this
      ensures View() == Block(old(View())) && channel == WaitsOn(old(View()))
    {
      callbackBlocked := true;
      if callbackActive == 0 { return None; }
      if callbackDrained.None? {
        callbackDrained := Some(nextChannel);
        nextChannel := nextChannel + 1;
      }
      return callbackDrained;
    }
  }
}
