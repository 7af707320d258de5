/**
 The handshake timer (guarded by handshakeTimerMux). Arming starts a new generation,
 a goroutine of its own; stopping revokes the current one. Any threads, timeout
 handlers among them, may arm and stop at any time, and arming is not atomic: it
 stops first and installs later.
 */
module TimerGenerations {
  import opened Basics

  /** Sleeping: waits for its duration or its stop channel; Claimed: runs the timeout
      handler; Finished: off the active count; Exited: its done channel is closed. */
  datatype Phase = Sleeping | Claimed | Finished | Exited

  /** `stopped`: the stop channel is closed. */
  datatype Gen = Gen(stopped: bool, phase: Phase)

  /** `stop` and `done` name the generation whose channels the fields hold. */
  datatype Timer = Timer(running: bool, stop: Option<nat>, done: Option<nat>, active: nat, gens: seq<Gen>, shutdown: bool)

  const IDLE := Timer(false, None, None, 0, [], false)

  function SetGen(t: Timer, g: nat, gen: Gen): Timer
    requires g < |t.gens|
  {
    t.(gens := t.gens[g := gen])
  }

  /** The critical section of `stopHandshakeTimer`. */
  function Stop(t: Timer): Timer {
    var t' := t.(running := false, stop := None);
    if t.stop.Some? && t.stop.value < |t.gens| then SetGen(t', t.stop.value, t.gens[t.stop.value].(stopped := true)) else t'
  }

  /** The generation whose exit the caller of `stopHandshakeTimer` waits for. */
  function WaitsFor(t: Timer): Option<nat> {
    if t.running then t.done else None
  }

  /** The second critical section of `setHandshakeTimer`. */
  function Install(t: Timer): Timer {
    if t.shutdown then t
    else Timer(true, Some(|t.gens|), Some(|t.gens|), t.active + 1, t.gens + [Gen(false, Sleeping)], false)
  }

  predicate MayClaim(t: Timer, g: nat) {
    g < |t.gens| && t.gens[g].phase == Sleeping && t.stop == Some(g) && t.running
  }

  /** The duration of a sleeping generation is over: it claims the timeout or gives up. */
  function Fire(t: Timer, g: nat): Timer
    requires g < |t.gens|
  {
    if MayClaim(t, g) then SetGen(t.(running := false), g, t.gens[g].(phase := Claimed))
    else Finish(t, g)
  }

  /** `finishHandshakeTimer`. */
  function Finish(t: Timer, g: nat): Timer
    requires g < |t.gens|
  {
    SetGen(t.(active := if t.active > 0 then t.active - 1 else 0), g, t.gens[g].(phase := Finished))
  }

  // ------------------------------------------------------------------- runs

  datatype Event =
    | StopTimer
    | InstallTimer
    | Expire(g: nat)
    | SeeStop(g: nat)
    | HandlerReturns(g: nat)
    | CloseDone(g: nat)
    | RequestShutdown

  /** `waits`: the generations some caller of stop waits for; `claims`: who claimed, in order. */
  datatype World = World(t: Timer, waits: set<nat>, claims: seq<nat>)

  predicate InPhase(t: Timer, g: nat, p: Phase) {
    g < |t.gens| && t.gens[g].phase == p
  }

  function Step(w: World, e: Event): World {
    match e
    case StopTimer => World(Stop(w.t), if WaitsFor(w.t).Some? then w.waits + {WaitsFor(w.t).value} else w.waits, w.claims)
    case InstallTimer => w.(t := Install(w.t))
    case Expire(g) =>
      if !InPhase(w.t, g, Sleeping) then w
      else World(Fire(w.t, g), w.waits, if MayClaim(w.t, g) then w.claims + [g] else w.claims)
    case SeeStop(g) => if InPhase(w.t, g, Sleeping) && w.t.gens[g].stopped then w.(t := Finish(w.t, g)) else w
    case HandlerReturns(g) => if InPhase(w.t, g, Claimed) then w.(t := Finish(w.t, g)) else w
    case CloseDone(g) =>
      if InPhase(w.t, g, Finished) then World(SetGen(w.t, g, w.t.gens[g].(phase := Exited)), w.waits - {g}, w.claims) else w
    case RequestShutdown => w.(t := w.t.(shutdown := true))
  }

  function Run(events: seq<Event>): World {
    if events == [] then World(IDLE, {}, []) else Step(Run(events[..|events| - 1]), events[|events| - 1])
  }

  // ------------------------------------------------------------- invariants

  function Alive(gens: seq<Gen>): nat {
    if gens == [] then 0
    else Alive(gens[..|gens| - 1]) + if gens[|gens| - 1].phase in {Sleeping, Claimed} then 1 else 0
  }

  lemma {:induction false} AliveUpdate(gens: seq<Gen>, g: nat, gen: Gen)
    requires g < |gens|
    ensures Alive(gens[g := gen]) + (if gens[g].phase in {Sleeping, Claimed} then 1 else 0)
         == Alive(gens) + (if gen.phase in {Sleeping, Claimed} then 1 else 0)
  {
    var n := |gens| - 1;
    if g == n {
      assert gens[g := gen][..n] == gens[..n];
    } else {
      AliveUpdate(gens[..n], g, gen);
      assert gens[g := gen][..n] == gens[..n][g := gen];
    }
  }

  ghost predicate Current(t: Timer) {
    && (t.stop.Some? ==> t.stop.value + 1 == |t.gens| && !t.gens[t.stop.value].stopped && t.done == t.stop)
    && (t.running ==> t.stop.Some?)
    && (t.running ==> t.gens[t.stop.value].phase == Sleeping)
    && t.active == Alive(t.gens)
  }

  /** A generation somebody waits for has been stopped before it could claim. */
  ghost predicate WaitsSound(w: World) {
    forall g | g in w.waits :: g < |w.t.gens| && w.t.gens[g].stopped && w.t.gens[g].phase != Claimed && w.t.gens[g].phase != Exited
  }

  /** Claims come in generation order, from generations that are past sleeping. */
  ghost predicate ClaimsSound(w: World) {
    && (forall i | 0 <= i < |w.claims| :: w.claims[i] < |w.t.gens| && w.t.gens[w.claims[i]].phase != Sleeping)
    && (forall i, j | 0 <= i < j < |w.claims| :: w.claims[i] < w.claims[j])
  }

  ghost predicate Inv(w: World) {
    Current(w.t) && WaitsSound(w) && ClaimsSound(w)
  }

  lemma StopKeeps(w: World)
    requires Inv(w)
    ensures Inv(Step(w, StopTimer))
  {
    if w.t.stop.Some? {
      AliveUpdate(w.t.gens, w.t.stop.value, w.t.gens[w.t.stop.value].(stopped := true));
    }
  }

  lemma InstallKeeps(w: World)
    requires Inv(w)
    ensures Inv(Step(w, InstallTimer))
  {
    assert (w.t.gens + [Gen(false, Sleeping)])[..|w.t.gens|] == w.t.gens;
  }

  lemma FinishKeeps(w: World, g: nat)
    requires Inv(w) && g < |w.t.gens| && w.t.gens[g].phase in {Sleeping, Claimed}
    requires w.t.gens[g].phase == Sleeping ==> !(w.t.running && w.t.stop == Some(g))
    ensures Inv(w.(t := Finish(w.t, g)))
  {
    AliveUpdate(w.t.gens, g, w.t.gens[g].(phase := Finished));
  }

  lemma ExpireKeeps(w: World, g: nat)
    requires Inv(w) && InPhase(w.t, g, Sleeping)
    ensures Inv(Step(w, Expire(g)))
  {
    if MayClaim(w.t, g) {
      AliveUpdate(w.t.gens, g, w.t.gens[g].(phase := Claimed));
    } else {
      FinishKeeps(w, g);
    }
  }

  lemma CloseDoneKeeps(w: World, g: nat)
    requires Inv(w) && InPhase(w.t, g, Finished)
    ensures Inv(Step(w, CloseDone(g)))
  {
    AliveUpdate(w.t.gens, g, w.t.gens[g].(phase := Exited));
  }

  lemma StepKeeps(w: World, e: Event)
    requires Inv(w)
    ensures Inv(Step(w, e))
  {
    match e
    case StopTimer => StopKeeps(w);
    case InstallTimer => InstallKeeps(w);
    case Expire(g) => if InPhase(w.t, g, Sleeping) { ExpireKeeps(w, g); }
    case SeeStop(g) => if InPhase(w.t, g, Sleeping) && w.t.gens[g].stopped { FinishKeeps(w, g); }
    case HandlerReturns(g) => if InPhase(w.t, g, Claimed) { FinishKeeps(w, g); }
    case CloseDone(g) => if InPhase(w.t, g, Finished) { CloseDoneKeeps(w, g); }
    case RequestShutdown =>
  }

  lemma {:induction false} Reachable(events: seq<Event>)
    ensures Inv(Run(events))
  {
    if events != [] {
      Reachable(events[..|events| - 1]);
      StepKeeps(Run(events[..|events| - 1]), events[|events| - 1]);
    }
  }

  // ----------------------------------------------------------- main theorems

  /** Only the newest generation can claim a timeout, and only while nobody stopped it. */
  lemma OnlyNewestClaims(events: seq<Event>, g: nat)
    requires MayClaim(Run(events).t, g)
    ensures g + 1 == |Run(events).t.gens| && !Run(events).t.gens[g].stopped && g !in Run(events).claims
  {
    Reachable(events);
  }

  /** Each generation claims at most once; claims come in generation order. */
  lemma ClaimsAreUnique(events: seq<Event>)
    ensures var claims := Run(events).claims;
            forall i, j | 0 <= i < j < |claims| :: claims[i] < claims[j]
  {
    Reachable(events);
  }

  /** Stopping never waits for a generation that has claimed, so a timeout handler can
      stop or re-arm its own timer; and whoever is waited for can leave at once,
      without taking part in anything else. */
  lemma StopNeverWaitsForAHandler(events: seq<Event>, g: nat)
    requires g in Run(events).waits || WaitsFor(Run(events).t) == Some(g)
    ensures var w := Run(events);
            && g < |w.t.gens| && g !in w.claims && w.t.gens[g].phase != Claimed
            && (g in w.waits ==> g !in Step(Step(w, SeeStop(g)), CloseDone(g)).waits)
  {
    Reachable(events);
    if g in Run(events).waits {
      WaitersNeverClaimed(events, g);
    }
  }

  lemma {:induction false} WaitersNeverClaimed(events: seq<Event>, g: nat)
    requires g in Run(events).waits
    ensures g !in Run(events).claims
  {
    Reachable(events);
    if events != [] {
      var front := events[..|events| - 1];
      Reachable(front);
      if g in Run(front).waits {
        WaitersNeverClaimed(front, g);
      }
    }
  }

  predicate Over(gen: Gen) {
    gen.phase == Finished || gen.phase == Exited
  }

  lemma {:induction false} NoneAlive(gens: seq<Gen>)
    requires Alive(gens) == 0
    ensures forall g | 0 <= g < |gens| :: Over(gens[g])
  {
    if gens != [] {
      var n := |gens| - 1;
      NoneAlive(gens[..n]);
      forall g | 0 <= g < |gens| ensures Over(gens[g]) {
        if g < n {
          assert Over(gens[..n][g]);
        }
      }
    }
  }

  ghost predicate Quiet(t: Timer) {
    t.shutdown && t.active == 0 && forall g | 0 <= g < |t.gens| :: Over(t.gens[g])
  }

  lemma StaysQuiet(w: World, e: Event)
    requires Quiet(w.t)
    ensures Quiet(Step(w, e).t) && |Step(w, e).t.gens| == |w.t.gens|
  {
  }

  lemma QuietNow(events: seq<Event>)
    requires Run(events).t.shutdown && Run(events).t.active == 0
    ensures Quiet(Run(events).t)
  {
    Reachable(events);
    NoneAlive(Run(events).t.gens);
  }

  lemma Extend(events: seq<Event>, e: Event)
    ensures Run(events + [e]) == Step(Run(events), e)
  {
    assert (events + [e])[..|events|] == events;
  }

  lemma {:induction false} QuietOnwards(before: seq<Event>, after: seq<Event>)
    requires Quiet(Run(before).t)
    ensures Quiet(Run(before + after).t) && |Run(before + after).t.gens| == |Run(before).t.gens|
  {
    if after == [] {
      assert before + after == before;
    } else {
      var front, e := after[..|after| - 1], after[|after| - 1];
      QuietOnwards(before, front);
      StaysQuiet(Run(before + front), e);
      Extend(before + front, e);
      assert before + after == (before + front) + [e];
    }
  }

  /** Once a shutdown was requested no generation is added; when the active count is
      then seen at zero, every generation has finished and stays so. */
  lemma {:induction false} QuietAfterShutdown(before: seq<Event>, after: seq<Event>)
    requires Run(before).t.shutdown && Run(before).t.active == 0
    ensures Quiet(Run(before + after).t) && |Run(before + after).t.gens| == |Run(before).t.gens|
  {
    QuietNow(before);
    QuietOnwards(before, after);
  }

  // -------------------------------------------------------- the live timer

  class HandshakeTimer {
    var running: bool
    var stopChan: Option<nat>
    var doneChan: Option<nat>
    var active: nat
    var gens: seq<Gen>
    var shutdown: bool

    ghost function View(): Timer
      reads this
    {
      Timer(running, stopChan, doneChan, active, gens, shutdown)
    }

    constructor ()
      ensures View() == IDLE
    {
      running, stopChan, doneChan, active, gens, shutdown := false, None, None, 0, [], false;
    }

    /** The caller waits for the generation named by the result, if any. */
    method StopHandshakeTimer() returns (wait: Option<nat>)
      requires stopChan.Some? ==> stopChan.value < |gens|
      modifies this
      ensures View() == Stop(old(View())) && wait == WaitsFor(old(View()))
    {
      wait := if running then doneChan else None;
      if stopChan.Some? {
        gens := gens[stopChan.value := gens[stopChan.value].(stopped := true)];
        stopChan := None;
      }
      running := false;
    }

    method InstallGeneration() returns (g: Option<nat>)
      modifies this
      ensures View() == Install(old(View()))
      ensures g == if old(shutdown) then None else Some(|old(gens)|)
    {
      if shutdown { return None; }
      g := Some(|gens|);
      running, stopChan, doneChan, active, gens := true, g, g, active + 1, gens + [Gen(false, Sleeping)];
    }

    /** What a generation does when its duration is over. */
    method ClaimTimeout(g: nat) returns (claimed: bool)
      requires g < |gens| && gens[g].phase == Sleeping
      modifies this
      ensures claimed == MayClaim(old(View()), g) && View() == Fire(old(View()), g)
    {
      if stopChan != Some(g) || !running {
        active := if active > 0 then active - 1 else 0;
        gens := gens[g := gens[g].(phase := Finished)];
        return false;
      }
      running := false;
      gens := gens[g := gens[g].(phase := Claimed)];
      return true;
    }
  }
}
