/**
 Safety of the pairing registry over whole runs: rotated authorities stay dead,
 a dialled candidate is still on offer, every PIN provider leaves once, and a
 retry never outlives the observation it was scheduled for.
 */
module PairingSafety {
  import opened Basics
  import opened Addresses
  import Q = SerialQueue
  import opened PairingRegistry
  import opened PairingInvariants

  // ------------------------------------------------ authorities never return

  /** How any step may change the outbound state: authorities are only ever
      replaced by epochs that did not exist before. */
  ghost predicate Grew(o: Outbound, o': Outbound) {
    && o.epoch <= o'.epoch && o.gateEpoch <= o'.gateEpoch && (o.shutdown ==> o'.shutdown && o'.attempts.Keys <= o.attempts.Keys)
    && (forall ski | ski in o.authorities :: ski in o'.authorities)
    && (forall ski | ski in o'.authorities ::
          || (ski in o.authorities && o'.authorities[ski] == o.authorities[ski])
          || o.epoch < o'.authorities[ski] <= o'.epoch)
  }

  lemma GrewTransitive(o: Outbound, p: Outbound, q: Outbound)
    requires AuthoritiesIssued(o) && Grew(o, p) && Grew(p, q)
    ensures Grew(o, q)
  {
  }

  /** A SKI whose candidate or retry disappears in a step has been rotated. */
  ghost predicate LossRotates(h: Hub, h': Hub) {
    && Grew(h.out, h'.out)
    && (forall ski | ski in h.reg.active && ski !in h'.reg.active && ski !in h.reg.trusted :: Rotated(h, h', ski))
    && (forall ski | ski in h.reg.retries && ski !in h'.reg.retries :: Rotated(h, h', ski))
  }

  ghost predicate Rotated(h: Hub, h': Hub, ski: Ski) {
    ski in h'.out.authorities && h'.out.authorities[ski] > h.out.epoch
  }

  lemma {:induction false} RetireStaleRotates(h: Hub, order: seq<Ski>)
    requires Core(h)
    ensures LossRotates(h, RetireStale(h, order))
  {
    if order != [] {
      var front := order[..|order| - 1];
      RetireStaleRotates(h, front);
      RetireStaleKeeps(h, front);
      LossComposes(h, RetireStale(h, front), RetireStale(h, order));
    }
  }

  lemma {:induction false} RetireEveryRotates(h: Hub, order: seq<Ski>)
    requires Core(h)
    ensures LossRotates(h, RetireEvery(h, order))
  {
    if order != [] {
      var front := order[..|order| - 1];
      RetireEveryRotates(h, front);
      RetireEveryKeeps(h, front);
      LossComposes(h, RetireEvery(h, front), RetireEvery(h, order));
    }
  }

  lemma {:induction false} RotateRetriesRotates(h: Hub, order: seq<Ski>)
    requires Core(h)
    ensures LossRotates(h, RotateRetries(h, order))
  {
    if order != [] {
      var front := order[..|order| - 1];
      RotateRetriesRotates(h, front);
      RotateRetriesKeeps(h, front);
      LossComposes(h, RotateRetries(h, front), RotateRetries(h, order));
    }
  }

  lemma {:induction false} InvalidateRotates(h: Hub, order: seq<Ski>, current: map<Ski, TrustedObservation>)
    requires Core(h)
    ensures LossRotates(h, Invalidate(h, order, current))
  {
    if order != [] {
      var front := order[..|order| - 1];
      InvalidateRotates(h, front, current);
      InvalidateKeeps(h, front, current);
      LossComposes(h, Invalidate(h, front, current), Invalidate(h, order, current));
    }
  }

  lemma LossComposes(h: Hub, h1: Hub, h2: Hub)
    requires Core(h) && LossRotates(h, h1) && LossRotates(h1, h2) && h1.reg.trusted == h.reg.trusted
    ensures LossRotates(h, h2)
  {
    GrewTransitive(h.out, h1.out, h2.out);
    forall ski | ski in h1.out.authorities && h1.out.authorities[ski] > h.out.epoch ensures Rotated(h, h2, ski) {
    }
  }

  lemma LossFromTwin(h: Hub, twin: Hub, h': Hub)
    requires LossRotates(twin, h') && twin.out == h.out
    requires twin.reg.active == h.reg.active && twin.reg.trusted == h.reg.trusted && twin.reg.retries == h.reg.retries
    ensures LossRotates(h, h')
  {
    forall ski | Rotated(twin, h', ski) ensures Rotated(h, h', ski) {
    }
  }

  lemma ApplyRotates(h: Hub, s: Snapshot, actives: seq<Ski>, retries: seq<Ski>)
    requires Core(h)
    ensures LossRotates(h, Apply(h, s, actives, retries))
  {
    if s.revision < h.reg.latestRevision {
      var h0 := h.(reg := h.reg.(appliedAdmission := s.admission));
      InvalidateRotates(h0, retries, map[]);
      LossFromTwin(h, h0, Invalidate(h0, retries, map[]));
    } else {
      var h0 := h.(reg := Install(h.reg, s));
      InstalledRotates(h0, actives, retries);
      LossFromTwin(h, h0, Apply(h, s, actives, retries));
    }
  }

  lemma InstalledRotates(h0: Hub, actives: seq<Ski>, retries: seq<Ski>)
    requires Core(h0)
    ensures var h1 := RetireStale(h0, actives); LossRotates(h0, Invalidate(h1, retries, h1.reg.visibleTrusted))
  {
    RetireStaleRotates(h0, actives);
    RetireStaleKeeps(h0, actives);
    var h1 := RetireStale(h0, actives);
    InvalidateRotates(h1, retries, h1.reg.visibleTrusted);
    LossComposes(h0, h1, Invalidate(h1, retries, h1.reg.visibleTrusted));
  }

  lemma SetGateRotates(h: Hub, installed: bool, actives: seq<Ski>, retries: seq<Ski>)
    requires Core(h)
    ensures LossRotates(h, SetGate(h, installed, actives, retries))
    ensures SetGate(h, installed, actives, retries).out.gateEpoch > h.out.gateEpoch
  {
    var h0 := h.(out := h.out.(gate := installed, gateEpoch := h.out.gateEpoch + 1));
    RetireEveryRotates(h0, actives);
    RetireEveryKeeps(h0, actives);
    var h1 := RetireEvery(h0, actives);
    RotateRetriesRotates(h1, retries);
    var h2 := RotateRetries(h1, retries);
    LossComposes(h0, h1, h2);
    GateWrapsLoss(h, h0, h2, SetGate(h, installed, actives, retries));
  }

  lemma GateWrapsLoss(h: Hub, h0: Hub, h2: Hub, h': Hub)
    requires LossRotates(h0, h2) && h0.reg == h.reg
    requires h0.out == h.out.(gate := h0.out.gate, gateEpoch := h.out.gateEpoch + 1)
    requires h' == h2.(out := h2.out.(attempts := map[]))
    ensures LossRotates(h, h') && h'.out.gateEpoch > h.out.gateEpoch
  {
    forall ski | Rotated(h0, h2, ski) ensures Rotated(h, h', ski) {
    }
  }

  lemma OutboundOnlyFrame(h: Hub, e: Event)
    requires OutboundOnly(e)
    ensures Step(h, e).reg == h.reg && Step(h, e).feed == h.feed
    ensures Grew(h.out, Step(h, e).out)
  {
  }

  lemma PinOnlyFrame(h: Hub, e: Event)
    requires PinOnly(e)
    ensures var h' := Step(h, e); h' == h.(reg := h.reg.(pins := h'.reg.pins)) && SubMap(h'.reg.pins, h.reg.pins)
  {
  }

  lemma RetireGrew(h: Hub, ski: Ski, token: Option<nat>, authority: Option<nat>)
    ensures Grew(h.out, Retire(h, ski, token, authority).out)
    ensures Grew(h.out, RetireAndCancel(h, ski, token, authority).out)
  {
  }

  lemma CloseAttemptGrew(h: Hub, id: nat, superseded: bool)
    ensures Grew(h.out, CloseAttempt(h, id, superseded).out)
  {
  }

  lemma SimpleStepGrew(h: Hub, e: Event)
    requires AuthoritiesIssued(h.out) && (e.Select? || e.Dial? || e.GrantTrust? || e.BeginRetry? || e.EndRetry? || e.RevokeAll?)
    ensures Grew(h.out, Step(h, e).out)
  {
  }

  lemma OtherStepGrew(h: Hub, e: Event)
    requires Core(h) && !OutboundOnly(e) && !PinOnly(e)
    ensures Grew(h.out, Step(h, e).out)
  {
    match e
    case RunTask(actives, retries) =>
      if h.feed.q.current.Some? { ApplyRotates(h, h.feed.q.current.value, actives, retries); }
    case ReplaceGate(installed, actives, retries) => SetGateRotates(h, installed, actives, retries);
    case RetireCandidate(ski, token, authority) => RetireGrew(h, ski, token, authority);
    case ConnectionClosed(id, superseded) => CloseAttemptGrew(h, id, superseded);
    case Report(_, _, _) =>
    case PopTask =>
    case HandshakeUpdate(_, _, _, _) =>
    case _ => SimpleStepGrew(h, e);
  }

  lemma StepGrew(h: Hub, e: Event)
    requires Core(h)
    ensures Grew(h.out, Step(h, e).out)
  {
    if OutboundOnly(e) {
      OutboundOnlyFrame(h, e);
    } else if PinOnly(e) {
      PinOnlyFrame(h, e);
    } else {
      OtherStepGrew(h, e);
    }
  }

  lemma {:induction false} RunGrew(h: Hub, events: seq<Event>)
    requires Inv(h)
    ensures Inv(Run(h, events)) && Grew(h.out, Run(h, events).out)
  {
    if events != [] {
      var front, e := events[..|events| - 1], events[|events| - 1];
      RunGrew(h, front);
      StepKeeps(Run(h, front), e);
      StepGrew(Run(h, front), e);
      GrewTransitive(h.out, Run(h, front).out, Run(h, events).out);
    }
  }

  /** The SKI's selected candidate or its retry disappears in this step. */
  ghost predicate Loses(h: Hub, e: Event, ski: Ski) {
    || (ski in h.reg.active && ski !in Step(h, e).reg.active)
    || (ski in h.reg.retries && ski !in Step(h, e).reg.retries)
  }

  /** The critical sections that revoke a SKI's outbound authority: an explicit
      revocation, and every retirement or invalidation, whatever caused it. Trust
      ends a selection without revoking it, and a finished retry is not revoked. */
  ghost predicate Revokes(h: Hub, e: Event, ski: Ski) {
    match e
    case RevokeAll(s) => s == ski
    case RetireCandidate(_, _, _) => Loses(h, e, ski)
    case ConnectionClosed(_, _) => Loses(h, e, ski)
    case RunTask(_, _) => Loses(h, e, ski)
    case ReplaceGate(_, _, _) => Loses(h, e, ski)
    case _ => false
  }

  lemma CloseAttemptRotates(h: Hub, id: nat, superseded: bool, ski: Ski)
    requires Core(h) && Loses(h, ConnectionClosed(id, superseded), ski)
    ensures Rotated(h, CloseAttempt(h, id, superseded), ski)
  {
  }

  lemma RetireRotates(h: Hub, s: Ski, token: Option<nat>, authority: Option<nat>, ski: Ski)
    requires Core(h) && Loses(h, RetireCandidate(s, token, authority), ski)
    ensures Rotated(h, RetireAndCancel(h, s, token, authority), ski)
  {
  }

  lemma RevokesRotates(h: Hub, e: Event, ski: Ski)
    requires Inv(h) && Revokes(h, e, ski)
    ensures Rotated(h, Step(h, e), ski)
  {
    match e
    case RunTask(actives, retries) => ApplyRotates(h, h.feed.q.current.value, actives, retries);
    case ReplaceGate(installed, actives, retries) => SetGateRotates(h, installed, actives, retries);
    case ConnectionClosed(id, superseded) => CloseAttemptRotates(h, id, superseded, ski);
    case RetireCandidate(s, token, authority) => RetireRotates(h, s, token, authority, ski);
    case RevokeAll(_) =>
  }

  ghost predicate Denied(h: Hub, ski: Ski, authority: nat) {
    && (forall generation: nat :: !MayLaunch(h.out, ski, generation, authority))
    && !MayLaunchInternally(h.out, ski, authority)
    && (forall id: nat, state: ConnectionState :: InternalUpdate(h, ski, id, authority, state) == h)
  }

  /** An authority captured before a revocation, retirement or retry
      invalidation of its SKI never launches again and never updates a handshake
      state again, whatever happens afterwards. Every captured authority is at
      most the epoch reached when it was captured. */
  lemma RevokedForever(before: seq<Event>, e: Event, after: seq<Event>, ski: Ski, authority: nat)
    requires authority <= Run(INITIAL, before).out.epoch
    requires Revokes(Run(INITIAL, before), e, ski)
    ensures Denied(Run(Step(Run(INITIAL, before), e), after), ski, authority)
  {
    var h := Run(INITIAL, before);
    Reachable(before);
    StepKeeps(h, e);
    RevokesRotates(h, e, ski);
    RunGrew(Step(h, e), after);
  }

  ghost predicate ReplacesGate(h: Hub, e: Event) {
    || e.ShutdownGate?
    || (e.ReplaceGate? && Lists(e.actives, h.reg.active.Keys) && Lists(e.retries, h.reg.retries.Keys))
  }

  /** A gated attempt that began before a gate replacement or before
      shutdown never obtains a launch registration; after shutdown no authority
      at all launches or updates. */
  lemma GateReplacedForever(before: seq<Event>, e: Event, after: seq<Event>, ski: Ski, generation: nat, authority: nat)
    requires generation <= Run(INITIAL, before).out.gateEpoch
    requires ReplacesGate(Run(INITIAL, before), e)
    ensures !MayLaunch(Run(Step(Run(INITIAL, before), e), after).out, ski, generation, authority)
    ensures e.ShutdownGate? ==> Denied(Run(Step(Run(INITIAL, before), e), after), ski, authority)
  {
    var h := Run(INITIAL, before);
    Reachable(before);
    StepKeeps(h, e);
    if e.ReplaceGate? { SetGateRotates(h, e.installed, e.actives, e.retries); }
    RunGrew(Step(h, e), after);
    var h' := Run(Step(h, e), after);
    if e.ShutdownGate? {
      assert h'.out.attempts.Keys == {};
    }
  }

  /** A retry that still holds its launch authority has seen no snapshot
      applied since it was scheduled and is bound to the visible observation. */
  lemma RetryLaunchesOnlyUndisturbed(events: seq<Event>, ski: Ski)
    requires ski in Run(INITIAL, events).reg.retries
    ensures var r := Run(INITIAL, events).reg;
            && ski in r.trusted && ski in r.visibleTrusted
            && r.retries[ski].observation == r.visibleTrusted[ski]
            && r.retries[ski].scheduled == r.appliedAdmission
            && ski in Run(INITIAL, events).out.authorities
            && Run(INITIAL, events).out.authorities[ski] == r.retries[ski].authority
  {
    Reachable(events);
    assert RetryCurrent(Run(INITIAL, events).reg, ski);
  }

  /** Once any snapshot is applied while a retry is active, that retry's
      authority never launches again. */
  lemma SnapshotEndsRetry(before: seq<Event>, actives: seq<Ski>, retries: seq<Ski>, after: seq<Event>, ski: Ski)
    requires var h := Run(INITIAL, before);
             && ski in h.reg.retries && h.feed.q.current.Some?
             && Lists(actives, h.reg.active.Keys) && Lists(retries, h.reg.retries.Keys)
    ensures var h := Run(INITIAL, before);
            Denied(Run(Step(h, RunTask(actives, retries)), after), ski, h.reg.retries[ski].authority)
  {
    var h := Run(INITIAL, before);
    Reachable(before);
    ApplyKeeps(h, actives, retries);
    RevokedForever(before, RunTask(actives, retries), after, ski, h.reg.retries[ski].authority);
  }

  // ------------------------------------------------- what a retry's launch implies

  /** The retry is still the one that was scheduled, or its authority is gone. */
  lemma RetryStep(h: Hub, e: Event, ski: Ski)
    requires Inv(h) && ski in h.reg.retries && e != EndRetry(ski, h.reg.retries[ski].id)
    ensures || (ski in Step(h, e).reg.retries && Step(h, e).reg.retries[ski] == h.reg.retries[ski]
                && Step(h, e).reg.appliedAdmission == h.reg.appliedAdmission && !(e.RunTask? && Enabled(h, e)))
            || Rotated(h, Step(h, e), ski)
  {
    if e.RunTask? && Enabled(h, e) {
      ApplyKeeps(h, e.actives, e.retries);
      RevokesRotates(h, e, ski);
    } else if e.ReplaceGate? {
      GateRotatesRetry(h, e, ski);
    } else if OutboundOnly(e) {
      OutboundOnlyFrame(h, e);
    } else if PinOnly(e) {
      PinOnlyFrame(h, e);
    } else {
      OtherStepKeepsRetry(h, e, ski);
    }
  }

  lemma GateRotatesRetry(h: Hub, e: Event, ski: Ski)
    requires Inv(h) && ski in h.reg.retries && e.ReplaceGate?
    ensures Step(h, e) == h || Rotated(h, Step(h, e), ski)
  {
    if Lists(e.actives, h.reg.active.Keys) && Lists(e.retries, h.reg.retries.Keys) {
      ReplaceGateKeeps(h, e.installed, e.actives, e.retries);
      SetGateDropsRetries(h, e.installed, e.actives, e.retries);
      RevokesRotates(h, e, ski);
    }
  }

  lemma SetGateDropsRetries(h: Hub, installed: bool, actives: seq<Ski>, retries: seq<Ski>)
    requires Core(h) && Lists(retries, h.reg.retries.Keys)
    ensures SetGate(h, installed, actives, retries).reg.retries == map[]
  {
    var h0 := h.(out := h.out.(gate := installed, gateEpoch := h.out.gateEpoch + 1));
    RetireEveryKeeps(h0, actives);
    RotateRetriesKeeps(RetireEvery(h0, actives), retries);
    ListsMembers(retries, h.reg.retries.Keys);
    assert RotateRetries(RetireEvery(h0, actives), retries).reg.retries.Keys == {};
  }

  ghost predicate SameRetry(r: Registry, r': Registry, ski: Ski) {
    ski in r.retries && ski in r'.retries && r'.retries[ski] == r.retries[ski] && r'.appliedAdmission == r.appliedAdmission
  }

  /** Retries of other SKIs come and go, a second one is refused, and a revocation
      rotates the authority. */
  lemma RetryStepKeepsRetry(h: Hub, e: Event, ski: Ski)
    requires ski in h.reg.retries && e != EndRetry(ski, h.reg.retries[ski].id)
    requires RetryEvent(e)
    ensures SameRetry(h.reg, Step(h, e).reg, ski) || Rotated(h, Step(h, e), ski)
  {
  }

  lemma OtherStepKeepsRetry(h: Hub, e: Event, ski: Ski)
    requires ski in h.reg.retries && e != EndRetry(ski, h.reg.retries[ski].id)
    requires !OutboundOnly(e) && !PinOnly(e) && !e.ReplaceGate? && !(e.RunTask? && Enabled(h, e))
    ensures SameRetry(h.reg, Step(h, e).reg, ski) || Rotated(h, Step(h, e), ski)
  {
    if FeedOnly(e) {
      FeedOnlyFrame(h, e);
    } else if CandidateEvent(e) {
      CandidateEventFrame(h, e);
    } else if RetryEvent(e) {
      RetryStepKeepsRetry(h, e, ski);
    } else if e.Select? {
      SelectFrame(h, e.ref, e.ski, e.connect);
    }
  }

  ghost predicate Launches(h: Hub, ski: Ski, authority: nat) {
    MayLaunchInternally(h.out, ski, authority) || exists generation: nat :: MayLaunch(h.out, ski, generation, authority)
  }

  ghost predicate Undisturbed(h: Hub, events: seq<Event>) {
    forall i | 0 <= i < |events| && events[i].RunTask? :: !Enabled(Run(h, events[..i]), events[i])
  }

  ghost predicate StillScheduled(h: Hub, h': Hub, events: seq<Event>, ski: Ski) {
    && ski in h.reg.retries && ski in h'.reg.retries && h'.reg.retries[ski] == h.reg.retries[ski]
    && h'.reg.appliedAdmission == h.reg.appliedAdmission && Undisturbed(h, events)
  }

  ghost predicate AuthorityGone(h: Hub, ski: Ski, authority: nat) {
    ski in h.out.authorities && h.out.authorities[ski] != authority && authority <= h.out.epoch
  }

  lemma UndisturbedStep(h: Hub, front: seq<Event>, e: Event)
    requires Undisturbed(h, front) && !(e.RunTask? && Enabled(Run(h, front), e))
    ensures Undisturbed(h, front + [e])
  {
    var events := front + [e];
    forall i | 0 <= i < |events| && events[i].RunTask? ensures !Enabled(Run(h, events[..i]), events[i]) {
      assert events[..i] == if i < |front| then front[..i] else front;
    }
  }

  lemma GoneStaysGone(h: Hub, e: Event, ski: Ski, authority: nat)
    requires Core(h) && AuthorityGone(h, ski, authority)
    ensures AuthorityGone(Step(h, e), ski, authority)
  {
    StepGrew(h, e);
  }

  lemma ScheduledStep(h: Hub, front: seq<Event>, e: Event, ski: Ski)
    requires Inv(Run(h, front)) && StillScheduled(h, Run(h, front), front, ski) && e != EndRetry(ski, h.reg.retries[ski].id)
    ensures || StillScheduled(h, Step(Run(h, front), e), front + [e], ski)
            || AuthorityGone(Step(Run(h, front), e), ski, h.reg.retries[ski].authority)
  {
    var h1 := Run(h, front);
    assert h1.reg.retries[ski].authority <= h1.out.epoch;
    StepGrew(h1, e);
    RetryStep(h1, e, ski);
    if !Rotated(h1, Step(h1, e), ski) {
      UndisturbedStep(h, front, e);
    }
  }

  ghost predicate ScheduledOrGone(h: Hub, events: seq<Event>, ski: Ski)
    requires ski in h.reg.retries
  {
    || StillScheduled(h, Run(h, events), events, ski)
    || AuthorityGone(Run(h, events), ski, h.reg.retries[ski].authority)
  }

  lemma ScheduledOrGoneStep(h: Hub, front: seq<Event>, e: Event, ski: Ski)
    requires Inv(h) && ski in h.reg.retries && ScheduledOrGone(h, front, ski)
    requires e != EndRetry(ski, h.reg.retries[ski].id)
    ensures ScheduledOrGone(h, front + [e], ski)
  {
    RunGrew(h, front);
    assert (front + [e])[..|front|] == front;
    if StillScheduled(h, Run(h, front), front, ski) {
      ScheduledStep(h, front, e, ski);
    } else {
      GoneStaysGone(Run(h, front), e, ski, h.reg.retries[ski].authority);
    }
  }

  ghost predicate NeverEnds(events: seq<Event>, ski: Ski, id: nat) {
    forall i | 0 <= i < |events| :: events[i] != EndRetry(ski, id)
  }

  lemma NeverEndsBefore(events: seq<Event>, ski: Ski, id: nat)
    requires NeverEnds(events, ski, id) && events != []
    ensures NeverEnds(events[..|events| - 1], ski, id) && events[|events| - 1] != EndRetry(ski, id)
  {
  }

  lemma ScheduledAtFirst(h: Hub, ski: Ski)
    requires ski in h.reg.retries
    ensures ScheduledOrGone(h, [], ski)
  {
  }

  lemma {:induction false} RetryOverRuns(h: Hub, events: seq<Event>, ski: Ski)
    requires Inv(h) && ski in h.reg.retries && NeverEnds(events, ski, h.reg.retries[ski].id)
    ensures ScheduledOrGone(h, events, ski)
  {
    if events == [] {
      ScheduledAtFirst(h, ski);
    } else {
      var front, e := events[..|events| - 1], events[|events| - 1];
      NeverEndsBefore(events, ski, h.reg.retries[ski].id);
      RetryOverRuns(h, front, ski);
      ScheduledOrGoneStep(h, front, e, ski);
      assert events == front + [e];
    }
  }

  /** A retry that obtains a launch registration has seen no snapshot applied since it
      was scheduled, and is still bound to the observation it was scheduled for. The
      retry's own thread finishes it only after its launch. */
  lemma {:induction false} RetryLaunchSawNoSnapshot(before: seq<Event>, ski: Ski, free: bool, after: seq<Event>)
    requires MayRetry(Run(INITIAL, before), ski, free)
    requires var h := Step(Run(INITIAL, before), BeginRetry(ski, free));
             NeverEnds(after, ski, h.reg.retries[ski].id) && Launches(Run(h, after), ski, h.reg.retries[ski].authority)
    ensures var h := Step(Run(INITIAL, before), BeginRetry(ski, free));
            var h' := Run(h, after);
            && Undisturbed(h, after) && ski in h'.reg.retries && h'.reg.retries[ski] == h.reg.retries[ski]
            && h'.reg.appliedAdmission == h.reg.retries[ski].scheduled
  {
    var h := Step(Run(INITIAL, before), BeginRetry(ski, free));
    Reachable(before);
    StepKeeps(Run(INITIAL, before), BeginRetry(ski, free));
    assert RetryCurrent(h.reg, ski);
    RetryOverRuns(h, after, ski);
  }

  // ------------------------------------------------- authorities and trust over runs

  lemma {:induction false} EpochGrows(events: seq<Event>, n: nat)
    requires n <= |events|
    ensures Run(INITIAL, events[..n]).out.epoch <= Run(INITIAL, events).out.epoch
  {
    if n == |events| {
      assert events[..n] == events;
    } else {
      var front := events[..|events| - 1];
      EpochGrows(front, n);
      assert front[..n] == events[..n];
      Reachable(front);
      StepGrew(Run(INITIAL, front), events[|events| - 1]);
    }
  }

  /** A rotation gives an authority that no SKI ever held before in the run. */
  lemma RotationIsFresh(events: seq<Event>, n: nat, other: Ski, ski: Ski)
    requires n <= |events| && other in Run(INITIAL, events[..n]).out.authorities
    ensures Run(INITIAL, events[..n]).out.authorities[other] < Rotate(Run(INITIAL, events).out, ski).authorities[ski]
  {
    Reachable(events[..n]);
    EpochGrows(events, n);
  }

  lemma TrustStays(h: Hub, e: Event, ski: Ski)
    requires Inv(h) && ski in h.reg.trusted && e != RevokeAll(ski)
    ensures ski in Step(h, e).reg.trusted
  {
    if OutboundOnly(e) {
      OutboundOnlyFrame(h, e);
    } else if PinOnly(e) {
      PinOnlyFrame(h, e);
    } else if e.RunTask? {
      if Enabled(h, e) { ApplyKeepsTrust(h, h.feed.q.current.value, e.actives, e.retries); }
    } else if e.ReplaceGate? {
      SetGateKeepsTrust(h, e.installed, e.actives, e.retries);
    } else {
      OtherStepKeepsTrust(h, e, ski);
    }
  }

  lemma ApplyKeepsTrust(h: Hub, s: Snapshot, actives: seq<Ski>, retries: seq<Ski>)
    requires Core(h)
    ensures Apply(h, s, actives, retries).reg.trusted == h.reg.trusted
  {
    if s.revision < h.reg.latestRevision {
      InvalidateKeeps(h.(reg := h.reg.(appliedAdmission := s.admission)), retries, map[]);
    } else {
      var h0 := h.(reg := Install(h.reg, s));
      RetireStaleKeeps(h0, actives);
      InvalidateKeeps(RetireStale(h0, actives), retries, RetireStale(h0, actives).reg.visibleTrusted);
    }
  }

  lemma SetGateKeepsTrust(h: Hub, installed: bool, actives: seq<Ski>, retries: seq<Ski>)
    requires Core(h)
    ensures SetGate(h, installed, actives, retries).reg.trusted == h.reg.trusted
  {
    var h0 := h.(out := h.out.(gate := installed, gateEpoch := h.out.gateEpoch + 1));
    RetireEveryKeeps(h0, actives);
    RotateRetriesKeeps(RetireEvery(h0, actives), retries);
  }

  lemma OtherStepKeepsTrust(h: Hub, e: Event, ski: Ski)
    requires ski in h.reg.trusted && e != RevokeAll(ski) && !OutboundOnly(e) && !PinOnly(e) && !e.RunTask? && !e.ReplaceGate?
    ensures ski in Step(h, e).reg.trusted
  {
    if FeedOnly(e) {
      FeedOnlyFrame(h, e);
    } else if CandidateEvent(e) {
      CandidateEventFrame(h, e);
    } else if RetryEvent(e) {
      RetryEventFrame(h, e);
    } else {
      SelectFrame(h, e.ref, e.ski, e.connect);
    }
  }

  lemma {:induction false} TrustOverRuns(h: Hub, events: seq<Event>, ski: Ski)
    requires Inv(h) && ski in h.reg.trusted && forall i | 0 <= i < |events| :: events[i] != RevokeAll(ski)
    ensures Inv(Run(h, events)) && ski in Run(h, events).reg.trusted
  {
    if events != [] {
      TrustOverRuns(h, events[..|events| - 1], ski);
      StepKeeps(Run(h, events[..|events| - 1]), events[|events| - 1]);
      TrustStays(Run(h, events[..|events| - 1]), events[|events| - 1], ski);
    }
  }

  /** Trust ends a selection for good: until it is revoked, the SKI has no selected
      candidate, none can be admitted, no reservation of it connects, and nothing
      retires it. */
  lemma {:induction false} TrustEndsSelection(before: seq<Event>, ski: Ski, after: seq<Event>)
    requires forall i | 0 <= i < |after| :: after[i] != RevokeAll(ski)
    ensures var h := Run(Step(Run(INITIAL, before), GrantTrust(ski)), after);
            && ski in h.reg.trusted && ski !in h.reg.active
            && (forall ref: Ref, connect: bool :: AdmitVerdict(h, ref, ski, connect) != Accepted)
            && (forall token: nat :: !MayConnect(h, ski, token))
            && (forall token: Option<nat>, authority: Option<nat> :: !MayRetire(h.reg, ski, token, authority))
  {
    Reachable(before);
    StepKeeps(Run(INITIAL, before), GrantTrust(ski));
    TrustOverRuns(Step(Run(INITIAL, before), GrantTrust(ski)), after, ski);
  }

  // ---------------------------------------------------- what a dial implies

  /** The snapshots admitted by a run, in admission order. */
  function Admitted(events: seq<Event>): seq<Snapshot> {
    if events == [] then []
    else
      var front, e := events[..|events| - 1], events[|events| - 1];
      if !e.Report? then Admitted(front)
      else
        var feed := Enqueue(Run(INITIAL, front).feed, e.remotes, e.candidates, e.revision);
        Admitted(front) + [feed.q.items[|feed.q.items| - 1]]
  }

  predicate Enabled(h: Hub, e: Event)
    requires e.RunTask?
  {
    h.feed.q.current.Some? && Lists(e.actives, h.reg.active.Keys) && Lists(e.retries, h.reg.retries.Keys)
  }

  /** The snapshots applied by a run, in the order they were applied. */
  function AppliedSnapshots(events: seq<Event>): seq<Snapshot> {
    if events == [] then []
    else
      var front, e := events[..|events| - 1], events[|events| - 1];
      if e.RunTask? && Enabled(Run(INITIAL, front), e)
      then AppliedSnapshots(front) + [Run(INITIAL, front).feed.q.current.value]
      else AppliedSnapshots(front)
  }

  /** The index the hub's revision test settles on. */
  function Winner(s: seq<Snapshot>): (w: nat)
    requires s != []
    ensures w < |s|
    ensures forall j | 0 <= j < |s| :: s[j].revision <= s[w].revision && (j > w ==> s[j].revision < s[w].revision)
  {
    if |s| == 1 then 0
    else
      var front := s[..|s| - 1];
      var w := Winner(front);
      assert forall j | 0 <= j < |front| :: front[j] == s[j];
      if s[|s| - 1].revision >= s[w].revision then |s| - 1 else w
  }

  function Pending(f: Feed): seq<Snapshot> {
    Q.Outstanding(f.q)
  }

  ghost predicate ShowsWinner(r: Registry, applied: seq<Snapshot>) {
    if applied == [] then r.visible == map[] && r.latestRevision == 0
    else
      var s := applied[Winner(applied)];
      r.visible == VisibleOf(s.candidates, s.revision) && r.latestRevision == s.revision
  }

  ghost predicate SameView(h: Hub, h': Hub) {
    && h'.reg.visible == h.reg.visible && h'.reg.latestRevision == h.reg.latestRevision
    && h'.reg.appliedAdmission == h.reg.appliedAdmission && Pending(h'.feed) == Pending(h.feed)
  }

  lemma StepKeepsView(h: Hub, e: Event)
    requires Inv(h) && !(e.RunTask? && Enabled(h, e)) && !e.Report?
    ensures SameView(h, Step(h, e))
  {
    if OutboundOnly(e) {
      OutboundOnlyFrame(h, e);
    } else if PinOnly(e) {
      PinOnlyFrame(h, e);
    } else {
      OtherStepKeepsView(h, e);
    }
  }

  lemma SetGateKeepsView(h: Hub, installed: bool, actives: seq<Ski>, retries: seq<Ski>)
    requires Inv(h)
    ensures SameView(h, SetGate(h, installed, actives, retries))
  {
    var h0 := h.(out := h.out.(gate := installed, gateEpoch := h.out.gateEpoch + 1));
    RetireEveryKeeps(h0, actives);
    RotateRetriesKeeps(RetireEvery(h0, actives), retries);
  }

  lemma PopKeepsPending(f: Feed)
    ensures Pending(Pop(f)) == Pending(f)
  {
  }

  lemma OtherStepKeepsView(h: Hub, e: Event)
    requires Inv(h) && !(e.RunTask? && Enabled(h, e)) && !e.Report? && !OutboundOnly(e) && !PinOnly(e)
    ensures SameView(h, Step(h, e))
  {
    if e.PopTask? {
      FeedOnlyFrame(h, e);
      PopKeepsPending(h.feed);
    } else if e.ReplaceGate? {
      SetGateKeepsView(h, e.installed, e.actives, e.retries);
    } else if CandidateEvent(e) {
      CandidateEventFrame(h, e);
    } else if RetryEvent(e) {
      RetryEventFrame(h, e);
    } else if e.Select? {
      SelectFrame(h, e.ref, e.ski, e.connect);
    }
  }

  lemma ApplyShows(h: Hub, s: Snapshot, actives: seq<Ski>, retries: seq<Ski>)
    requires Core(h)
    ensures var h' := Apply(h, s, actives, retries);
            && h'.feed == h.feed
            && h'.reg.latestRevision == (if s.revision < h.reg.latestRevision then h.reg.latestRevision else s.revision)
            && h'.reg.visible == if s.revision < h.reg.latestRevision then h.reg.visible else VisibleOf(s.candidates, s.revision)
  {
    if s.revision < h.reg.latestRevision {
      InvalidateKeeps(h.(reg := h.reg.(appliedAdmission := s.admission)), retries, map[]);
    } else {
      var h0 := h.(reg := Install(h.reg, s));
      RetireStaleKeeps(h0, actives);
      InvalidateKeeps(RetireStale(h0, actives), retries, RetireStale(h0, actives).reg.visibleTrusted);
    }
  }

  ghost predicate Fifo(h: Hub, admitted: seq<Snapshot>, applied: seq<Snapshot>) {
    && admitted == applied + Pending(h.feed)
    && |applied| == h.reg.appliedAdmission
    && ShowsWinner(h.reg, applied)
  }

  lemma RunTaskKeepsFifo(h: Hub, e: Event, admitted: seq<Snapshot>, applied: seq<Snapshot>)
    requires Inv(h) && e.RunTask? && Enabled(h, e) && Fifo(h, admitted, applied)
    ensures Fifo(Step(h, e), admitted, applied + [h.feed.q.current.value])
  {
    var s := h.feed.q.current.value;
    ApplyKeeps(h, e.actives, e.retries);
    ApplyShows(h, s, e.actives, e.retries);
    WinnerOfAppend(applied, s);
    assert Pending(h.feed) == [s] + Pending(Step(h, e).feed);
  }

  lemma ReportKeepsFifo(h: Hub, e: Event, admitted: seq<Snapshot>, applied: seq<Snapshot>)
    requires Inv(h) && e.Report? && Fifo(h, admitted, applied)
    ensures var feed := Enqueue(h.feed, e.remotes, e.candidates, e.revision);
            Fifo(Step(h, e), admitted + [feed.q.items[|feed.q.items| - 1]], applied)
  {
    var feed := Enqueue(h.feed, e.remotes, e.candidates, e.revision);
    assert Pending(feed) == Pending(h.feed) + [feed.q.items[|feed.q.items| - 1]];
  }

  /** The feed is one FIFO: what has been admitted is what has been applied, then
      what is being applied, then what waits; and the hub shows the winner. */
  lemma {:induction false} FeedIsFifo(events: seq<Event>)
    ensures Fifo(Run(INITIAL, events), Admitted(events), AppliedSnapshots(events))
  {
    if events != [] {
      var front, e := events[..|events| - 1], events[|events| - 1];
      FeedIsFifo(front);
      Reachable(front);
      var h := Run(INITIAL, front);
      if e.RunTask? && Enabled(h, e) {
        RunTaskKeepsFifo(h, e, Admitted(front), AppliedSnapshots(front));
      } else if e.Report? {
        ReportKeepsFifo(h, e, Admitted(front), AppliedSnapshots(front));
      } else {
        StepKeepsView(h, e);
      }
    }
  }

  lemma WinnerOfAppend(s: seq<Snapshot>, x: Snapshot)
    ensures s == [] ==> Winner(s + [x]) == 0
    ensures s != [] ==> Winner(s + [x]) == if x.revision >= s[Winner(s)].revision then |s| else Winner(s)
  {
    assert (s + [x])[..|s|] == s;
  }

  lemma {:induction false} VisibleCameFrom(candidates: seq<Candidate>, revision: nat, ref: Ref) returns (c: Candidate)
    requires ref in VisibleOf(candidates, revision)
    ensures c in candidates && c.ref == ref && ref != 0
    ensures VisibleOf(candidates, revision)[ref] == Observation(c.ski, revision, c.path, c.port, c.addresses)
  {
    var last := candidates[|candidates| - 1];
    if last.ref == ref && ref != 0 && last.ski != "" {
      c := last;
    } else {
      c := VisibleCameFrom(candidates[..|candidates| - 1], revision, ref);
    }
  }

  /** The candidate c offers exactly the endpoint frozen in the active selection. */
  ghost predicate Offers(c: Candidate, ski: Ski, active: Active) {
    && c.ref == active.ref && c.ski == ski && c.path == active.path && c.port == active.port
    && active.host in Ordered(c.addresses)
  }

  /** When a selected candidate may be dialled, every admitted snapshot has
      been applied, and the highest-revision snapshot ever admitted (the last one
      on ties) still offers the frozen endpoint under that reference. */
  lemma DialIsStillOffered(events: seq<Event>, ski: Ski, token: nat) returns (c: Candidate)
    requires MayConnect(Run(INITIAL, events), ski, token)
    ensures AppliedSnapshots(events) == Admitted(events) && Admitted(events) != []
    ensures c in Admitted(events)[Winner(Admitted(events))].candidates
    ensures Offers(c, ski, Run(INITIAL, events).reg.active[ski])
  {
    Reachable(events);
    FeedIsFifo(events);
    c := DialOffered(Run(INITIAL, events), Admitted(events), AppliedSnapshots(events), ski, token);
  }

  lemma DialOffered(h: Hub, admitted: seq<Snapshot>, applied: seq<Snapshot>, ski: Ski, token: nat) returns (c: Candidate)
    requires Inv(h) && Fifo(h, admitted, applied) && MayConnect(h, ski, token)
    ensures applied == admitted && admitted != []
    ensures c in admitted[Winner(admitted)].candidates && Offers(c, ski, h.reg.active[ski])
  {
    assert Pending(h.feed) == [];
    assert applied == admitted;
    assert !Stale(h.reg, ski);
    assert h.reg.active[ski].ref in h.reg.visible;
    var s := admitted[Winner(admitted)];
    c := VisibleCameFrom(s.candidates, s.revision, h.reg.active[ski].ref);
  }

  // ------------------------------------------------------ one-shot providers

  /** The providers a step takes out of the hub. */
  function Leaving(h: Hub, h': Hub): set<nat> {
    set ski | ski in h.reg.pins && !(ski in h'.reg.pins && h'.reg.pins[ski] == h.reg.pins[ski]) :: h.reg.pins[ski].provider
  }

  function Held(r: Registry): set<nat> {
    set ski | ski in r.pins :: r.pins[ski].provider
  }

  predicate Consumes(e: Event) {
    e.ConsumePin? || e.ConsumePinFor?
  }

  function StoredProviders(events: seq<Event>): set<nat> {
    if events == [] then {}
    else
      var front, e := events[..|events| - 1], events[|events| - 1];
      StoredProviders(front)
      + (if e.Dial? && e.provider.Some? && MayConnect(Run(INITIAL, front), e.ski, e.token) then {e.provider.value} else {})
  }

  /** Providers handed to a consumer (true) or discarded (false) so far. */
  function LeftProviders(events: seq<Event>, consumed: bool): set<nat> {
    if events == [] then {}
    else
      var front, e := events[..|events| - 1], events[|events| - 1];
      LeftProviders(front, consumed)
      + (if Consumes(e) == consumed then Leaving(Run(INITIAL, front), Run(INITIAL, events)) else {})
  }

  /** Every call that attaches a PIN brings its own provider. */
  ghost predicate OwnProviders(events: seq<Event>) {
    forall i, j | 0 <= i < j < |events| && events[i].Dial? && events[j].Dial? && events[i].provider.Some? ::
      events[i].provider != events[j].provider
  }

  ghost predicate Injective(pins: map<Ski, Pin>) {
    forall s, t | s in pins && t in pins && pins[s].provider == pins[t].provider :: s == t
  }

  ghost predicate SubMap(m: map<Ski, Pin>, n: map<Ski, Pin>) {
    forall ski | ski in m :: ski in n && m[ski] == n[ski]
  }

  lemma {:induction false} RetireEveryPins(h: Hub, order: seq<Ski>)
    ensures SubMap(RetireEvery(h, order).reg.pins, h.reg.pins)
  {
    if order != [] { RetireEveryPins(h, order[..|order| - 1]); }
  }

  lemma {:induction false} RetireStalePins(h: Hub, order: seq<Ski>)
    ensures SubMap(RetireStale(h, order).reg.pins, h.reg.pins)
  {
    if order != [] { RetireStalePins(h, order[..|order| - 1]); }
  }

  lemma RunTaskPins(h: Hub, s: Snapshot, actives: seq<Ski>, retries: seq<Ski>)
    requires Inv(h)
    ensures SubMap(Apply(h, s, actives, retries).reg.pins, h.reg.pins)
  {
    if s.revision < h.reg.latestRevision {
      InvalidateKeeps(h.(reg := h.reg.(appliedAdmission := s.admission)), retries, map[]);
    } else {
      var h0 := h.(reg := Install(h.reg, s));
      RetireStaleKeeps(h0, actives);
      RetireStalePins(h0, actives);
      InvalidateKeeps(RetireStale(h0, actives), retries, RetireStale(h0, actives).reg.visibleTrusted);
    }
  }

  lemma ReplaceGatePins(h: Hub, installed: bool, actives: seq<Ski>, retries: seq<Ski>)
    requires Inv(h)
    ensures SubMap(SetGate(h, installed, actives, retries).reg.pins, h.reg.pins)
  {
    var h0 := h.(out := h.out.(gate := installed, gateEpoch := h.out.gateEpoch + 1));
    RetireEveryKeeps(h0, actives);
    RetireEveryPins(h0, actives);
    RotateRetriesKeeps(RetireEvery(h0, actives), retries);
  }

  lemma RetirePins(h: Hub, ski: Ski, token: Option<nat>, authority: Option<nat>)
    ensures SubMap(RetireAndCancel(h, ski, token, authority).reg.pins, h.reg.pins)
  {
  }

  lemma CloseAttemptPins(h: Hub, id: nat, superseded: bool)
    ensures SubMap(CloseAttempt(h, id, superseded).reg.pins, h.reg.pins)
  {
    if id in h.out.attempts && !superseded {
      var attempt := h.out.attempts[id];
      var h0 := h.(out := h.out.(attempts := h.out.attempts - {id}), reg := TakePinFor(h.reg, attempt.ski, attempt.authority));
      assert SubMap(h0.reg.pins, h.reg.pins);
      assert SubMap(Retire(h0, attempt.ski, None, Some(attempt.authority)).reg.pins, h0.reg.pins);
    }
  }

  /** No step but a dial stores a provider. */
  lemma OtherStepPins(h: Hub, e: Event)
    requires Inv(h) && !e.Dial?
    ensures SubMap(Step(h, e).reg.pins, h.reg.pins)
  {
    if OutboundOnly(e) {
      OutboundOnlyFrame(h, e);
    } else if PinOnly(e) {
      PinOnlyFrame(h, e);
    } else {
      match e
      case RunTask(actives, retries) => if Enabled(h, e) { RunTaskPins(h, h.feed.q.current.value, actives, retries); }
      case ReplaceGate(installed, actives, retries) => ReplaceGatePins(h, installed, actives, retries);
      case RetireCandidate(ski, token, authority) => RetirePins(h, ski, token, authority);
      case ConnectionClosed(id, superseded) => CloseAttemptPins(h, id, superseded);
      case _ =>
    }
  }

  /** A dial never stores a provider over another one. */
  lemma DialPins(h: Hub, e: Event)
    requires Inv(h) && e.Dial?
    ensures var pins := Step(h, e).reg.pins;
            if e.provider.Some? && MayConnect(h, e.ski, e.token)
            then e.ski !in h.reg.pins && e.ski in pins && pins[e.ski].provider == e.provider.value
                 && pins == h.reg.pins[e.ski := pins[e.ski]]
            else pins == h.reg.pins
  {
    DialKeeps(h, e.ski, e.token, e.provider);
  }

  lemma {:induction false} StoredAreArguments(events: seq<Event>, p: nat) returns (i: nat)
    requires p in StoredProviders(events)
    ensures i < |events| && events[i].Dial? && events[i].provider == Some(p)
  {
    var front, e := events[..|events| - 1], events[|events| - 1];
    if p in StoredProviders(front) {
      i := StoredAreArguments(front, p);
    } else {
      i := |front|;
    }
  }

  lemma NotStoredBefore(events: seq<Event>, p: nat)
    requires OwnProviders(events) && events != []
    requires var e := events[|events| - 1]; e.Dial? && e.provider == Some(p)
    ensures p !in StoredProviders(events[..|events| - 1])
  {
    var front := events[..|events| - 1];
    if p in StoredProviders(front) {
      var i := StoredAreArguments(front, p);
    }
  }

  /** No provider is ever lost, overwritten or handed out twice: each stored
      one is held, was consumed once, or was discarded once, and never two of
      these. */
  lemma {:induction false} ProvidersLeaveOnce(events: seq<Event>)
    requires OwnProviders(events)
    ensures var held, consumed, discarded :=
              Held(Run(INITIAL, events).reg), LeftProviders(events, true), LeftProviders(events, false);
            && StoredProviders(events) == held + consumed + discarded
            && held !! consumed && held !! discarded && consumed !! discarded
            && Injective(Run(INITIAL, events).reg.pins)
  {
    if events != [] {
      var front, e := events[..|events| - 1], events[|events| - 1];
      assert OwnProviders(front);
      ProvidersLeaveOnce(front);
      Reachable(front);
      var h, h' := Run(INITIAL, front), Run(INITIAL, events);
      if e.Dial? { DialPins(h, e); } else { OtherStepPins(h, e); }
      if e.Dial? && e.provider.Some? && MayConnect(h, e.ski, e.token) {
        NotStoredBefore(events, e.provider.value);
        StoreAccount(h, h', e.ski, e.provider.value);
      } else {
        LossAccount(h, h');
      }
    }
  }

  lemma StoreAccount(h: Hub, h': Hub, ski: Ski, p: nat)
    requires ski !in h.reg.pins && ski in h'.reg.pins && h'.reg.pins[ski].provider == p
    requires h'.reg.pins == h.reg.pins[ski := h'.reg.pins[ski]]
    requires p !in Held(h.reg) && Injective(h.reg.pins)
    ensures Held(h'.reg) == Held(h.reg) + {p} && Leaving(h, h') == {} && Injective(h'.reg.pins)
  {
    assert forall s | s in h.reg.pins :: h.reg.pins[s].provider in Held(h.reg);
    assert forall s | s in h.reg.pins :: h'.reg.pins[s] == h.reg.pins[s];
  }

  lemma LossAccount(h: Hub, h': Hub)
    requires SubMap(h'.reg.pins, h.reg.pins) && Injective(h.reg.pins)
    ensures Held(h.reg) == Held(h'.reg) + Leaving(h, h') && Held(h'.reg) !! Leaving(h, h') && Injective(h'.reg.pins)
  {
    forall p | p in Held(h.reg) ensures p in Held(h'.reg) + Leaving(h, h') {
      var s :| s in h.reg.pins && h.reg.pins[s].provider == p;
    }
  }
}
