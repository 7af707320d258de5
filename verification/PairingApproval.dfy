/**
 The pairing-approval latch of one SHIP connection and the serial effect queue that
 runs its external callbacks. Commit threads (access methods), approval calls, state
 changes and close claims interleave freely; effects are run by a single drainer.
 */
module PairingApproval {
  import opened Basics
  import Q = SerialQueue

  /** A queued effect; `t` is the thread that waits for it. */
  datatype Effect = StateReport(approved: bool) | ReportId(t: nat) | Publish(t: nat) | Setup(t: nat) | Terminate

  /** The effect a drainer is running: `entered` once its body has begun, `worked` if
      it found the connection open and made its call. */
  datatype Running = Running(effect: Effect, entered: bool, worked: bool)

  function Queued(e: Effect): Running {
    Running(e, false, false)
  }

  /** Where a thread stands. Commit threads go from Checked to Approving; approval
      calls start at Approving or Looking. `again`: a second approveHandshake call follows. */
  datatype Pc =
    | Checked(report: bool) | Begun(report: bool) | WaitingId | Identified | WaitingPublish | Published
    | Approving(again: bool) | WaitingSetup(again: bool) | Looking | Done

  /** What has happened outside, in order. */
  datatype Mark = Requested | IdReturned | ApprovedReturned | SetupStarted | TerminalStarted

  datatype Flags = Flags(
    required: bool, requested: bool, released: bool, commitStarted: bool, callbackDone: bool,
    closing: bool, terminal: bool, setupStarted: bool)

  datatype World = World(
    f: Flags, approved: bool, q: Q.Queue<Running>,
    threads: seq<Pc>, log: seq<Mark>)

  function Fresh(required: bool): World {
    World(Flags(required, false, false, false, false, false, false, false), false, Q.Empty(), [], [])
  }

  predicate Shut(f: Flags) {
    f.closing || f.terminal
  }

  function Enqueue(w: World, e: Effect): World {
    w.(q := Q.Enqueue(w.q, [Queued(e)]))
  }

  function Move(w: World, t: nat, pc: Pc): World
    requires t < |w.threads|
  {
    w.(threads := w.threads[t := pc])
  }

  // --------------------------------------------------------------- the latch

  /** `requestPairingApproval`: the caller approves now, is done, or has to look at the
      handshake state in a second step. */
  function Request(w: World): World {
    var asked := w.(f := w.f.(requested := true), log := w.log + [Requested]);
    if w.f.commitStarted && !w.f.callbackDone && !Shut(w.f) then asked
    else if !w.f.required then w.(threads := w.threads + [Looking])
    else if Shut(w.f) || w.f.released then w
    else if w.f.commitStarted && w.f.callbackDone then asked.(threads := w.threads + [Approving(false)])
    else asked
  }

  /** `beginPairingCommit`. */
  function BeginCommit(w: World, t: nat): World
    requires t < |w.threads| && w.threads[t].Checked?
  {
    if Shut(w.f) then Move(w, t, Done)
    else Move(w.(f := w.f.(commitStarted := true, callbackDone := false)), t, Begun(w.threads[t].report))
  }

  /** `completePairingCommitCallback` and the one or two approvals that follow it. */
  function CompleteCallback(w: World, t: nat): World
    requires t < |w.threads|
  {
    if Shut(w.f) then Move(w, t, Approving(false))
    else Move(w.(f := w.f.(callbackDone := true)), t, Approving(w.f.requested))
  }

  predicate MayApprove(f: Flags) {
    && !Shut(f) && !f.setupStarted
    && (f.required ==> f.commitStarted && f.requested && !f.released)
  }

  /** `approveHandshake` up to the wait for the setup effect. */
  function Approve(w: World, t: nat): World
    requires t < |w.threads| && w.threads[t].Approving?
  {
    var again := w.threads[t].again;
    if !MayApprove(w.f) then Move(w, t, if again then Approving(false) else Done)
    else
      Move(Enqueue(w.(f := w.f.(setupStarted := true, released := w.f.released || w.f.required)), Setup(t)),
           t, WaitingSetup(again))
  }

  // --------------------------------------------------------- the effect queue

  /** One round of `drainPairingEffects` up to the effect. */
  function Take(w: World): World {
    w.(q := Q.Take(w.q))
  }

  /** The body of the effect begins; the guarded ones look at the flags first. */
  function Enter(w: World): World {
    if w.q.current.None? || w.q.current.value.entered then w
    else
      var e := w.q.current.value.effect;
      match e
      case Terminate =>
        w.(f := w.f.(closing := true, terminal := true), q := w.q.(current := Some(Running(e, true, true))), log := w.log + [TerminalStarted])
      case Setup(_) =>
        w.(q := w.q.(current := Some(Running(e, true, !Shut(w.f)))), log := if Shut(w.f) then w.log else w.log + [SetupStarted])
      case _ => w.(q := w.q.(current := Some(Running(e, true, !Shut(w.f)))))
  }

  predicate Waits(w: World, t: nat, pc: Pc) {
    t < |w.threads| && w.threads[t] == pc
  }

  /** The effect returns and its waiting thread goes on. */
  function Leave(w: World): World {
    if w.q.current.None? || !w.q.current.value.entered then w
    else
      var r, w0 := w.q.current.value, w.(q := Q.Finish(w.q));
      match r.effect
      case StateReport(approved) => if approved then w0.(log := w.log + [ApprovedReturned]) else w0
      case ReportId(t) =>
        var w1 := if r.worked then w0.(log := w.log + [IdReturned]) else w0;
        if Waits(w, t, WaitingId) then Move(w1, t, if r.worked then Identified else Done) else w1
      case Publish(t) =>
        var w1 := if r.worked && !Shut(w.f) && !w.approved then Enqueue(w0, StateReport(true)).(approved := true) else w0;
        if Waits(w, t, WaitingPublish) then Move(w1, t, if r.worked then Published else Done) else w1
      case Setup(t) =>
        if Waits(w, t, WaitingSetup(true)) then Move(w0, t, Approving(false))
        else if Waits(w, t, WaitingSetup(false)) then Move(w0, t, Done)
        else w0
      case Terminate => w0
  }

  // ------------------------------------------------------------------ events

  datatype Event =
    | AskApproval
    | LookAtState(t: nat)
    | CheckShipId(unknown: bool)
    | Begin(t: nat)
    | SendId(t: nat)
    | SendPublish(t: nat)
    | CallbackDone(t: nat)
    | TryApprove(t: nat)
    | ChangeState
    | PublishDetail
    | MarkClosing
    | QueueClose
    | SpineTooEarly
    | TakeEffect
    | EnterEffect
    | LeaveEffect

  function Step(w: World, e: Event): World {
    match e
    case AskApproval => Request(w)
    case LookAtState(t) => if Waits(w, t, Looking) then Move(w, t, if w.approved then Approving(false) else Done) else w
    case CheckShipId(unknown) => w.(threads := w.threads + [Checked(unknown || (w.f.required && !w.f.released))])
    case Begin(t) => if t < |w.threads| && w.threads[t].Checked? then BeginCommit(w, t) else w
    case SendId(t) =>
      if Waits(w, t, Begun(true)) then Move(Enqueue(w, ReportId(t)), t, WaitingId)
      else if Waits(w, t, Begun(false)) then Move(w, t, Identified)
      else w
    case SendPublish(t) => if Waits(w, t, Identified) then Move(Enqueue(w, Publish(t)), t, WaitingPublish) else w
    case CallbackDone(t) => if Waits(w, t, Published) then CompleteCallback(w, t) else w
    case TryApprove(t) => if t < |w.threads| && w.threads[t].Approving? then Approve(w, t) else w
    case ChangeState => if Shut(w.f) then w else Enqueue(w, StateReport(false)).(approved := false)
    case PublishDetail => Enqueue(w, StateReport(false))
    case MarkClosing => w.(f := w.f.(closing := true))
    case QueueClose => if w.f.closing then Enqueue(w, Terminate) else w
    case SpineTooEarly => w.(f := w.f.(terminal := true))
    case TakeEffect => Take(w)
    case EnterEffect => Enter(w)
    case LeaveEffect => Leave(w)
  }

  function Run(required: bool, events: seq<Event>): World {
    if events == [] then Fresh(required) else Step(Run(required, events[..|events| - 1]), events[|events| - 1])
  }

  // -------------------------------------------------------------- invariants

  function Setups(queue: seq<Running>): nat {
    if queue == [] then 0 else (if queue[0].effect.Setup? then 1 else 0) + Setups(queue[1..])
  }

  function Started(log: seq<Mark>): nat {
    if log == [] then 0 else Started(log[..|log| - 1]) + if log[|log| - 1] == SetupStarted then 1 else 0
  }

  function Ahead(current: Option<Running>): nat {
    if current.Some? && current.value.effect.Setup? && !current.value.entered then 1 else 0
  }

  /** Setups done, under way and queued together: at most one, and none before the latch. */
  ghost predicate SetupLatched(w: World) {
    Setups(w.q.items) + Ahead(w.q.current) + Started(w.log) <= if w.f.setupStarted then 1 else 0
  }

  predicate IsApprovedReport(current: Option<Running>) {
    current.Some? && current.value.effect == StateReport(true)
  }

  /** The Approved report has returned or comes before position `k` of the queue. */
  ghost predicate ApprovedBefore(w: World, k: nat)
    requires k <= |w.q.items|
  {
    ApprovedReturned in w.log || IsApprovedReport(w.q.current) || Queued(StateReport(true)) in w.q.items[..k]
  }

  ghost predicate Readied(w: World) {
    IdReturned in w.log && (ApprovedBefore(w, |w.q.items|) || Shut(w.f))
  }

  ghost predicate ThreadSound(w: World, pc: Pc) {
    match pc
    case Checked(report) => report
    case Begun(report) => report
    case WaitingId => true
    case Identified => IdReturned in w.log
    case WaitingPublish => IdReturned in w.log
    case Published => Readied(w)
    case Approving(_) => Readied(w)
    case WaitingSetup(_) => false
    case Looking => false
    case Done => true
  }

  /** While an approval is required and no setup has been admitted. */
  ghost predicate LatchSound(w: World) {
    w.f.required && !w.f.setupStarted ==>
      && !w.f.released
      && (w.f.callbackDone ==> Readied(w))
      && forall t | 0 <= t < |w.threads| :: ThreadSound(w, w.threads[t])
  }

  ghost predicate FlagsSound(w: World) {
    && (w.f.requested ==> Requested in w.log)
    && (TerminalStarted in w.log ==> w.f.terminal)
    && (w.approved ==> ApprovedBefore(w, |w.q.items|))
  }

  ghost predicate SetupReady(w: World, k: nat)
    requires k <= |w.q.items|
  {
    w.f.required ==> Requested in w.log && IdReturned in w.log && ApprovedBefore(w, k)
  }

  /** A setup on its way has everything it needs ahead of it. */
  ghost predicate SetupsReady(w: World) {
    && (forall k | 0 <= k < |w.q.items| && w.q.items[k].effect.Setup? :: SetupReady(w, k))
    && (Ahead(w.q.current) == 1 && w.f.required ==> Requested in w.log && IdReturned in w.log && ApprovedReturned in w.log)
  }

  ghost predicate LogSound(required: bool, log: seq<Mark>) {
    forall j | 0 <= j < |log| && log[j] == SetupStarted ::
      && TerminalStarted !in log[..j]
      && (required ==> Requested in log[..j] && IdReturned in log[..j] && ApprovedReturned in log[..j])
  }

  ghost predicate Inv(w: World) {
    SetupLatched(w) && LatchSound(w) && FlagsSound(w) && SetupsReady(w) && LogSound(w.f.required, w.log)
  }

  // ---------------------------------------------------- every step keeps them

  lemma {:induction false} SetupsAppend(queue: seq<Running>, e: Running)
    ensures Setups(queue + [e]) == Setups(queue) + if e.effect.Setup? then 1 else 0
  {
    if queue == [] {
      assert queue + [e] == [e] && [e][1..] == [];
    } else {
      SetupsAppend(queue[1..], e);
      assert (queue + [e])[1..] == queue[1..] + [e];
    }
  }

  lemma StartedAppend(log: seq<Mark>, m: Mark)
    ensures Started(log + [m]) == Started(log) + if m == SetupStarted then 1 else 0
  {
    assert (log + [m])[..|log|] == log;
  }

  /** Nothing that was ahead falls behind when the queue or the log only grows. */
  ghost predicate Grows(w: World, w': World) {
    && w.f.required == w'.f.required && (Shut(w.f) ==> Shut(w'.f))
    && w.log <= w'.log && w.q.current == w'.q.current && w.q.items <= w'.q.items
  }

  lemma GrowthKeepsReadiness(w: World, w': World)
    requires Grows(w, w')
    ensures forall k | 0 <= k <= |w.q.items| :: ApprovedBefore(w, k) ==> ApprovedBefore(w', k)
    ensures ApprovedBefore(w, |w.q.items|) ==> ApprovedBefore(w', |w'.q.items|)
    ensures Readied(w) ==> Readied(w')
    ensures forall m | m in w.log :: m in w'.log
    ensures forall pc: Pc :: ThreadSound(w, pc) ==> ThreadSound(w', pc)
  {
    forall k | 0 <= k <= |w.q.items| ensures w.q.items[..k] == w'.q.items[..k] {}
    assert forall x | x in w.q.items[..|w.q.items|] :: x in w'.q.items[..|w'.q.items|];
  }

  lemma EnqueueKeeps(w: World, e: Effect)
    requires Inv(w) && !e.Setup?
    ensures Inv(Enqueue(w, e))
  {
    var w' := Enqueue(w, e);
    SetupsAppend(w.q.items, Queued(e));
    GrowthKeepsReadiness(w, w');
    forall k | 0 <= k < |w'.q.items| && w'.q.items[k].effect.Setup? ensures SetupReady(w', k) {
      assert SetupReady(w, k);
    }
  }

  /** Closing flags only ever go up. */
  lemma ShutKeeps(w: World, closing: bool, terminal: bool)
    requires Inv(w)
    ensures Inv(w.(f := w.f.(closing := w.f.closing || closing, terminal := w.f.terminal || terminal)))
  {
    var w' := w.(f := w.f.(closing := w.f.closing || closing, terminal := w.f.terminal || terminal));
    GrowthKeepsReadiness(w, w');
    forall k | 0 <= k < |w'.q.items| && w'.q.items[k].effect.Setup? ensures SetupReady(w', k) {
      assert SetupReady(w, k);
    }
  }

  lemma MoveKeeps(w: World, t: nat, pc: Pc)
    requires Inv(w) && t < |w.threads| && (w.f.required && !w.f.setupStarted ==> ThreadSound(w, pc))
    ensures Inv(Move(w, t, pc))
  {
    var w' := Move(w, t, pc);
    GrowthKeepsReadiness(w, w');
    forall k | 0 <= k < |w'.q.items| && w'.q.items[k].effect.Setup? ensures SetupReady(w', k) {
      assert SetupReady(w, k);
    }
  }

  lemma SpawnKeeps(w: World, pc: Pc)
    requires Inv(w) && (w.f.required && !w.f.setupStarted ==> ThreadSound(w, pc))
    ensures Inv(w.(threads := w.threads + [pc]))
  {
    var w' := w.(threads := w.threads + [pc]);
    GrowthKeepsReadiness(w, w');
    forall k | 0 <= k < |w'.q.items| && w'.q.items[k].effect.Setup? ensures SetupReady(w', k) {
      assert SetupReady(w, k);
    }
  }

  lemma LogKeeps(w: World, m: Mark)
    requires Inv(w) && m != SetupStarted && (m == TerminalStarted ==> w.f.terminal)
    ensures Inv(w.(log := w.log + [m]))
  {
    var w' := w.(log := w.log + [m]);
    StartedAppend(w.log, m);
    GrowthKeepsReadiness(w, w');
    forall k | 0 <= k < |w'.q.items| && w'.q.items[k].effect.Setup? ensures SetupReady(w', k) {
      assert SetupReady(w, k);
    }
    LogExtends(w.f.required, w.log, m);
  }

  lemma LogExtends(required: bool, log: seq<Mark>, m: Mark)
    requires LogSound(required, log)
    requires m == SetupStarted ==> TerminalStarted !in log
    requires m == SetupStarted && required ==> Requested in log && IdReturned in log && ApprovedReturned in log
    ensures LogSound(required, log + [m])
  {
    forall j | 0 <= j < |log + [m]| ensures (log + [m])[..j] == if j < |log| then log[..j] else log {}
  }

  /** The latch booleans may change as long as what they promise has happened. */
  lemma LatchKeeps(w: World, requested: bool, commitStarted: bool, callbackDone: bool)
    requires Inv(w) && (requested ==> Requested in w.log)
    requires callbackDone && w.f.required && !w.f.setupStarted ==> Readied(w)
    ensures Inv(w.(f := w.f.(requested := requested, commitStarted := commitStarted, callbackDone := callbackDone)))
  {
    var w' := w.(f := w.f.(requested := requested, commitStarted := commitStarted, callbackDone := callbackDone));
    GrowthKeepsReadiness(w, w');
    forall k | 0 <= k < |w'.q.items| && w'.q.items[k].effect.Setup? ensures SetupReady(w', k) {
      assert SetupReady(w, k);
    }
  }

  lemma AskedKeeps(w: World)
    requires Inv(w)
    ensures Inv(w.(f := w.f.(requested := true), log := w.log + [Requested]))
  {
    LogKeeps(w, Requested);
    LatchKeeps(w.(log := w.log + [Requested]), true, w.f.commitStarted, w.f.callbackDone);
  }

  lemma RequestKeeps(w: World)
    requires Inv(w)
    ensures Inv(Request(w))
  {
    AskedKeeps(w);
    var asked := w.(f := w.f.(requested := true), log := w.log + [Requested]);
    if !w.f.required {
      SpawnKeeps(w, Looking);
    } else if w.f.callbackDone {
      SpawnKeeps(asked, Approving(false));
    }
  }

  lemma BeginKeeps(w: World, t: nat)
    requires Inv(w) && t < |w.threads| && w.threads[t].Checked?
    ensures Inv(BeginCommit(w, t))
  {
    var w' := w.(f := w.f.(commitStarted := true, callbackDone := false));
    LatchKeeps(w, w.f.requested, true, false);
    assert w.f.required && !w.f.setupStarted ==> ThreadSound(w, w.threads[t]);
    MoveKeeps(w', t, Begun(w.threads[t].report));
    MoveKeeps(w, t, Done);
  }

  lemma SendKeeps(w: World, t: nat, e: Effect, pc: Pc)
    requires Inv(w) && t < |w.threads| && !e.Setup? && (w.f.required && !w.f.setupStarted ==> ThreadSound(w, pc))
    ensures Inv(Move(Enqueue(w, e), t, pc))
  {
    EnqueueKeeps(w, e);
    GrowthKeepsReadiness(w, Enqueue(w, e));
    MoveKeeps(Enqueue(w, e), t, pc);
  }

  lemma CompleteKeeps(w: World, t: nat)
    requires Inv(w) && Waits(w, t, Published)
    ensures Inv(CompleteCallback(w, t))
  {
    assert w.f.required && !w.f.setupStarted ==> ThreadSound(w, w.threads[t]);
    MoveKeeps(w, t, Approving(false));
    var w' := w.(f := w.f.(callbackDone := true));
    LatchKeeps(w, w.f.requested, w.f.commitStarted, true);
    GrowthKeepsReadiness(w, w');
    MoveKeeps(w', t, Approving(w.f.requested));
  }

  lemma ApproveKeeps(w: World, t: nat)
    requires Inv(w) && t < |w.threads| && w.threads[t].Approving?
    ensures Inv(Approve(w, t))
  {
    assert w.f.required && !w.f.setupStarted ==> ThreadSound(w, w.threads[t]);
    if !MayApprove(w.f) {
      MoveKeeps(w, t, if w.threads[t].again then Approving(false) else Done);
    } else {
      var w' := Approve(w, t);
      SetupsAppend(w.q.items, Queued(Setup(t)));
      GrowthKeepsReadiness(w, w');
      assert w'.q.items[..|w.q.items|] == w.q.items[..|w.q.items|];
      forall k | 0 <= k < |w'.q.items| && w'.q.items[k].effect.Setup? ensures SetupReady(w', k) {
        assert k < |w.q.items| ==> SetupReady(w, k);
      }
    }
  }

  lemma ChangeStateKeeps(w: World)
    requires Inv(w)
    ensures Inv(Enqueue(w, StateReport(false)).(approved := false))
  {
    EnqueueKeeps(w, StateReport(false));
    var v := Enqueue(w, StateReport(false));
    var w' := v.(approved := false);
    GrowthKeepsReadiness(v, w');
    forall k | 0 <= k < |w'.q.items| && w'.q.items[k].effect.Setup? ensures SetupReady(w', k) {
      assert SetupReady(v, k);
    }
  }

  /** Taking the head out keeps everything behind it where it was. */
  lemma TakeKeepsOrder(w: World)
    requires w.q.drainers > 0 && w.q.current.None? && w.q.items != []
    ensures forall k | 1 <= k <= |w.q.items| :: ApprovedBefore(w, k) ==> ApprovedBefore(Take(w), k - 1)
  {
    forall k | 1 <= k <= |w.q.items| ensures w.q.items[..k] == [w.q.items[0]] + w.q.items[1..][..k - 1] {}
  }

  lemma TakeKeeps(w: World)
    requires Inv(w)
    ensures Inv(Take(w))
  {
    var w' := Take(w);
    if w.q.drainers > 0 && w.q.current.None? && w.q.items != [] {
      TakeKeepsOrder(w);
      assert Readied(w) ==> Readied(w');
      forall pc: Pc | ThreadSound(w, pc) ensures ThreadSound(w', pc) {}
      forall k | 0 <= k < |w'.q.items| && w'.q.items[k].effect.Setup? ensures SetupReady(w', k) {
        assert w.q.items[k + 1] == w'.q.items[k] && SetupReady(w, k + 1);
      }
      if w.q.items[0].effect.Setup? {
        assert SetupReady(w, 0);
        assert w.q.items[..0] == [];
      }
    } else {
      GrowthKeepsReadiness(w, w');
      forall k | 0 <= k < |w'.q.items| && w'.q.items[k].effect.Setup? ensures SetupReady(w', k) {
        assert SetupReady(w, k);
      }
    }
  }

  /** A change of the running effect that is no step back for anything waiting. */
  ghost predicate Proceeds(w: World, w': World) {
    && w'.f == w.f && w'.approved == w.approved && w'.q.items == w.q.items && w'.threads == w.threads && w'.log == w.log
    && (IsApprovedReport(w.q.current) ==> IsApprovedReport(w'.q.current) || ApprovedReturned in w.log)
    && Ahead(w'.q.current) <= Ahead(w.q.current)
  }

  lemma ProceedKeeps(w: World, w': World)
    requires Inv(w) && Proceeds(w, w')
    ensures Inv(w')
    ensures forall pc: Pc :: ThreadSound(w, pc) ==> ThreadSound(w', pc)
  {
    assert forall k | 0 <= k <= |w.q.items| :: ApprovedBefore(w, k) ==> ApprovedBefore(w', k);
    forall k | 0 <= k < |w'.q.items| && w'.q.items[k].effect.Setup? ensures SetupReady(w', k) {
      assert SetupReady(w, k);
    }
  }

  lemma StartSetupKeeps(w: World)
    requires Inv(w) && Ahead(w.q.current) == 0 && w.f.setupStarted && Setups(w.q.items) + Started(w.log) == 0 && !Shut(w.f)
    requires w.f.required ==> Requested in w.log && IdReturned in w.log && ApprovedReturned in w.log
    ensures Inv(w.(log := w.log + [SetupStarted]))
  {
    var w' := w.(log := w.log + [SetupStarted]);
    StartedAppend(w.log, SetupStarted);
    LogExtends(w.f.required, w.log, SetupStarted);
    GrowthKeepsReadiness(w, w');
    forall k | 0 <= k < |w'.q.items| && w'.q.items[k].effect.Setup? ensures SetupReady(w', k) {
      assert SetupReady(w, k);
    }
  }

  lemma EnterSetupKeeps(w: World)
    requires Inv(w) && Ahead(w.q.current) == 1 && !Shut(w.f)
    ensures Inv(Enter(w))
  {
    var v := w.(q := Enter(w).q);
    ProceedKeeps(w, v);
    StartSetupKeeps(v);
  }

  lemma EnterKeeps(w: World)
    requires Inv(w)
    ensures Inv(Enter(w))
  {
    if w.q.current.Some? && !w.q.current.value.entered {
      var e := w.q.current.value.effect;
      if e.Terminate? {
        ProceedKeeps(w, w.(q := w.q.(current := Some(Running(e, true, true)))));
        var v := w.(q := w.q.(current := Some(Running(e, true, true))));
        ShutKeeps(v, true, true);
        LogKeeps(v.(f := v.f.(closing := true, terminal := true)), TerminalStarted);
      } else if e.Setup? && !Shut(w.f) {
        EnterSetupKeeps(w);
      } else {
        ProceedKeeps(w, w.(q := w.q.(current := Some(Running(e, true, !Shut(w.f))))));
      }
    }
  }

  lemma LeaveReportKeeps(w: World)
    requires Inv(w) && IsApprovedReport(w.q.current)
    ensures Inv(w.(q := Q.Finish(w.q), log := w.log + [ApprovedReturned]))
  {
    LogKeeps(w, ApprovedReturned);
    var v := w.(log := w.log + [ApprovedReturned]);
    ProceedKeeps(v, v.(q := Q.Finish(v.q)));
  }

  lemma LeavePublishKeeps(w: World, t: nat)
    requires Inv(w) && w.q.current.Some? && w.q.current.value == Running(Publish(t), true, w.q.current.value.worked)
    ensures Inv(Leave(w))
  {
    var w0 := w.(q := Q.Finish(w.q));
    ProceedKeeps(w, w0);
    var r := w.q.current.value;
    var now := r.worked && !Shut(w.f) && !w.approved;
    var w1 := if now then Enqueue(w0, StateReport(true)).(approved := true) else w0;
    if now {
      EnqueueKeeps(w0, StateReport(true));
      var v := Enqueue(w0, StateReport(true));
      assert v.q.items[..|v.q.items|][|w0.q.items|] == Queued(StateReport(true));
      GrowthKeepsReadiness(v, w1);
      forall k | 0 <= k < |w1.q.items| && w1.q.items[k].effect.Setup? ensures SetupReady(w1, k) {
        assert SetupReady(v, k);
      }
    }
    if Waits(w, t, WaitingPublish) {
      if w.f.required && !w.f.setupStarted {
        assert ThreadSound(w, w.threads[t]);
      }
      MoveKeeps(w1, t, if r.worked then Published else Done);
    }
  }

  lemma LeaveIdKeeps(w: World, t: nat)
    requires Inv(w) && w.q.current.Some? && w.q.current.value == Running(ReportId(t), true, w.q.current.value.worked)
    ensures Inv(Leave(w))
  {
    var w0 := w.(q := Q.Finish(w.q));
    ProceedKeeps(w, w0);
    var r := w.q.current.value;
    if r.worked {
      LogKeeps(w0, IdReturned);
    }
    var w1 := if r.worked then w0.(log := w.log + [IdReturned]) else w0;
    if Waits(w, t, WaitingId) {
      MoveKeeps(w1, t, if r.worked then Identified else Done);
    }
  }

  lemma WaiterIsLatched(w: World, t: nat)
    requires LatchSound(w) && t < |w.threads| && w.threads[t].WaitingSetup?
    ensures w.f.setupStarted || !w.f.required
  {
  }

  lemma LeaveKeeps(w: World)
    requires Inv(w)
    ensures Inv(Leave(w))
  {
    if w.q.current.Some? && w.q.current.value.entered {
      var e := w.q.current.value.effect;
      if e == StateReport(true) {
        LeaveReportKeeps(w);
      } else if e.ReportId? {
        LeaveIdKeeps(w, e.t);
      } else if e.Publish? {
        LeavePublishKeeps(w, e.t);
      } else {
        var w0 := w.(q := Q.Finish(w.q));
        ProceedKeeps(w, w0);
        if e.Setup? && e.t < |w.threads| && w.threads[e.t].WaitingSetup? {
          WaiterIsLatched(w, e.t);
          MoveKeeps(w0, e.t, if w.threads[e.t].again then Approving(false) else Done);
        }
      }
    }
  }

  /** The steps of one thread. */
  lemma ThreadStepKeeps(w: World, e: Event)
    requires Inv(w) && (e.LookAtState? || e.Begin? || e.SendId? || e.SendPublish? || e.CallbackDone? || e.TryApprove?)
    ensures Inv(Step(w, e))
  {
    match e
    case LookAtState(t) => if Waits(w, t, Looking) { LookKeeps(w, t); }
    case Begin(t) => if t < |w.threads| && w.threads[t].Checked? { BeginKeeps(w, t); }
    case SendId(t) => SendIdKeeps(w, t);
    case SendPublish(t) => if Waits(w, t, Identified) { SendPublishKeeps(w, t); }
    case CallbackDone(t) => if Waits(w, t, Published) { CompleteKeeps(w, t); }
    case TryApprove(t) => if t < |w.threads| && w.threads[t].Approving? { ApproveKeeps(w, t); }
  }

  lemma SendPublishKeeps(w: World, t: nat)
    requires Inv(w) && Waits(w, t, Identified)
    ensures Inv(Move(Enqueue(w, Publish(t)), t, WaitingPublish))
  {
    assert w.f.required && !w.f.setupStarted ==> ThreadSound(w, w.threads[t]);
    SendKeeps(w, t, Publish(t), WaitingPublish);
  }

  lemma EffectStepKeeps(w: World, e: Event)
    requires Inv(w) && (e.TakeEffect? || e.EnterEffect? || e.LeaveEffect?)
    ensures Inv(Step(w, e))
  {
    match e
    case TakeEffect => TakeKeeps(w);
    case EnterEffect => EnterKeeps(w);
    case LeaveEffect => LeaveKeeps(w);
  }

  lemma StepKeeps(w: World, e: Event)
    requires Inv(w)
    ensures Inv(Step(w, e))
  {
    match e
    case AskApproval => RequestKeeps(w);
    case CheckShipId(unknown) => SpawnKeeps(w, Checked(unknown || (w.f.required && !w.f.released)));
    case ChangeState => ChangeStateKeeps(w);
    case PublishDetail => EnqueueKeeps(w, StateReport(false));
    case MarkClosing => ShutKeeps(w, true, false);
    case QueueClose => EnqueueKeeps(w, Terminate);
    case SpineTooEarly => ShutKeeps(w, false, true);
    case TakeEffect => EffectStepKeeps(w, e);
    case EnterEffect => EffectStepKeeps(w, e);
    case LeaveEffect => EffectStepKeeps(w, e);
    case _ => ThreadStepKeeps(w, e);
  }

  lemma LookKeeps(w: World, t: nat)
    requires Inv(w) && Waits(w, t, Looking)
    ensures Inv(Move(w, t, if w.approved then Approving(false) else Done))
  {
    LookerNeedsNoApproval(w, t);
    MoveKeeps(w, t, if w.approved then Approving(false) else Done);
  }

  lemma LookerNeedsNoApproval(w: World, t: nat)
    requires LatchSound(w) && Waits(w, t, Looking)
    ensures w.f.setupStarted || !w.f.required
  {
  }

  lemma SendIdKeeps(w: World, t: nat)
    requires Inv(w)
    ensures Inv(Step(w, SendId(t)))
  {
    if Waits(w, t, Begun(true)) {
      SendKeeps(w, t, ReportId(t), WaitingId);
    } else if Waits(w, t, Begun(false)) {
      assert w.f.required && !w.f.setupStarted ==> ThreadSound(w, w.threads[t]);
      MoveKeeps(w, t, Identified);
    }
  }

  lemma {:induction false} Reachable(required: bool, events: seq<Event>)
    ensures Inv(Run(required, events)) && Run(required, events).f.required == required
  {
    if events != [] {
      var w := Run(required, events[..|events| - 1]);
      Reachable(required, events[..|events| - 1]);
      StepKeeps(w, events[|events| - 1]);
      RequiredStays(w, events[|events| - 1]);
    }
  }

  lemma EffectsKeepRequired(w: World)
    ensures Take(w).f.required == w.f.required && Enter(w).f.required == w.f.required && Leave(w).f == w.f
  {
  }

  lemma RequiredStays(w: World, e: Event)
    ensures Step(w, e).f.required == w.f.required
  {
    if e.TakeEffect? || e.EnterEffect? || e.LeaveEffect? {
      EffectsKeepRequired(w);
    } else if e.AskApproval? {
      assert Request(w).f.required == w.f.required;
    }
  }

  // ------------------------------------------------------------ main theorem

  /** Under every interleaving the remote device is set up at most once. With a
      required approval that happens only after the approval was requested and after
      the SHIP ID and Approved callbacks have returned; and it never begins after the
      terminal close effect. */
  lemma SetupOnceAndOnlyWhenApproved(required: bool, events: seq<Event>)
    ensures var log := Run(required, events).log;
            && Started(log) <= 1
            && forall j | 0 <= j < |log| && log[j] == SetupStarted ::
                 && TerminalStarted !in log[..j]
                 && (required ==> Requested in log[..j] && IdReturned in log[..j] && ApprovedReturned in log[..j])
  {
    Reachable(required, events);
  }

  lemma {:induction false} StartedCounts(log: seq<Mark>, i: nat, j: nat)
    requires i < j < |log| && log[i] == SetupStarted && log[j] == SetupStarted
    ensures Started(log) >= 2
  {
    var n := |log| - 1;
    if j < n {
      StartedCounts(log[..n], i, j);
    } else {
      StartedAtLeastOne(log[..n], i);
    }
  }

  lemma {:induction false} StartedAtLeastOne(log: seq<Mark>, i: nat)
    requires i < |log| && log[i] == SetupStarted
    ensures Started(log) >= 1
  {
    if i < |log| - 1 {
      StartedAtLeastOne(log[..|log| - 1], i);
    }
  }

  /** The same, without counting: two positions of the log never both start a setup. */
  lemma NeverSetUpTwice(required: bool, events: seq<Event>, i: nat, j: nat)
    requires i < j < |Run(required, events).log|
    ensures !(Run(required, events).log[i] == SetupStarted && Run(required, events).log[j] == SetupStarted)
  {
    Reachable(required, events);
    var log := Run(required, events).log;
    if log[i] == SetupStarted && log[j] == SetupStarted {
      StartedCounts(log, i, j);
    }
  }

  // --------------------------------------------------------- the live latch

  /** The flags alone, seen as a connection on which nothing else is going on. */
  ghost function Bare(f: Flags, threads: seq<Pc>): World {
    World(f, false, Q.Empty(), threads, [])
  }

  /** The booleans guarded by pairingApprovalMux, and the critical sections on them. */
  class PairingLatch {
    const required: bool
    var requested: bool
    var released: bool
    var commitStarted: bool
    var callbackDone: bool
    var closing: bool
    var terminal: bool
    var setupStarted: bool

    ghost function View(): Flags
      reads this
    {
      Flags(required, requested, released, commitStarted, callbackDone, closing, terminal, setupStarted)
    }

    constructor (required: bool)
      ensures View() == Fresh(required).f
    {
      this.required := required;
      requested, released, commitStarted, callbackDone := false, false, false, false;
      closing, terminal, setupStarted := false, false, false;
    }

    /** `handled`: the approval concerns the latch; `ready`: the caller approves now. */
    method RequestPairingApproval() returns (handled: bool, ready: bool)
      modifies this`requested
      ensures View() == Request(Bare(old(View()), [])).f
      ensures handled && ready ==> Request(Bare(old(View()), [])).threads == [Approving(false)]
      ensures handled && !ready ==> Request(Bare(old(View()), [])).threads == []
      ensures !handled ==> Request(Bare(old(View()), [])).threads == [Looking]
    {
      if commitStarted && !callbackDone && !closing && !terminal {
        requested := true;
        return true, false;
      }
      if !required { return false, false; }
      if closing || terminal || released { return true, false; }
      requested := true;
      return true, commitStarted && callbackDone;
    }

    method BeginPairingCommit() returns (begun: bool)
      modifies this`commitStarted, this`callbackDone
      ensures View() == BeginCommit(Bare(old(View()), [Checked(true)]), 0).f
      ensures begun <==> BeginCommit(Bare(old(View()), [Checked(true)]), 0).threads[0] == Begun(true)
    {
      if closing || terminal { return false; }
      commitStarted, callbackDone := true, false;
      return true;
    }

    method CompletePairingCommitCallback() returns (approveNow: bool)
      modifies this`callbackDone
      ensures View() == CompleteCallback(Bare(old(View()), [Published]), 0).f
      ensures CompleteCallback(Bare(old(View()), [Published]), 0).threads[0] == Approving(approveNow)
    {
      if closing || terminal { return false; }
      callbackDone := true;
      return requested;
    }

    /** The first critical section of `approveHandshake`. */
    method AdmitSetup() returns (admitted: bool)
      modifies this`released, this`setupStarted
      ensures admitted == MayApprove(old(View()))
      ensures View() == Approve(Bare(old(View()), [Approving(false)]), 0).f
    {
      if closing || terminal || setupStarted { return false; }
      if required {
        if !commitStarted || !requested || released { return false; }
        released := true;
      }
      setupStarted := true;
      return true;
    }
  }
}
