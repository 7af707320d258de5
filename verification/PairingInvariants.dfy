/**
 What every critical section of the pairing registry keeps, in every
 interleaving.
 */
module PairingInvariants {
  import opened Basics
  import opened Addresses
  import opened PairingRegistry

  // ------------------------------------------------------------ single steps

  lemma RetireKeepsCore(h: Hub, ski: Ski, token: Option<nat>, authority: Option<nat>)
    requires Core(h)
    ensures Core(Retire(h, ski, token, authority))
  {
  }

  /** What a loop of retirements leaves alone. */
  ghost predicate OnlyCandidatesLeft(h: Hub, h': Hub) {
    && h'.feed == h.feed
    && h'.reg == h.reg.(detail := h'.reg.detail, active := h'.reg.active, pins := h'.reg.pins)
    && h'.reg.active.Keys <= h.reg.active.Keys
    && (forall ski | ski in h'.reg.active :: h'.reg.active[ski] == h.reg.active[ski])
  }

  lemma {:induction false} RetireStaleKeeps(h: Hub, order: seq<Ski>)
    requires Core(h)
    ensures var h' := RetireStale(h, order);
            && Core(h') && OnlyCandidatesLeft(h, h')
            && (forall ski | ski in order :: !Stale(h'.reg, ski))
  {
    if order != [] {
      var front, ski := order[..|order| - 1], order[|order| - 1];
      RetireStaleKeeps(h, front);
      var h0 := RetireStale(h, front);
      RetireKeepsCore(h0, ski, None, None);
      var h' := RetireStale(h, order);
      forall s | s in order ensures !Stale(h'.reg, s) {
        assert s in front || s == ski;
      }
    }
  }

  lemma {:induction false} RetireEveryKeeps(h: Hub, order: seq<Ski>)
    requires Core(h)
    ensures var h' := RetireEvery(h, order); Core(h') && OnlyCandidatesLeft(h, h')
    ensures forall ski | ski in order :: ski !in RetireEvery(h, order).reg.active
  {
    if order != [] {
      var front, ski := order[..|order| - 1], order[|order| - 1];
      RetireEveryKeeps(h, front);
      RetireKeepsCore(RetireEvery(h, front), ski, None, None);
      forall s | s in order ensures s !in RetireEvery(h, order).reg.active {
        assert s in front || s == ski;
      }
    }
  }

  lemma {:induction false} RotateRetriesKeeps(h: Hub, order: seq<Ski>)
    requires Core(h)
    ensures var h' := RotateRetries(h, order);
            && Core(h') && h'.feed == h.feed
            && h'.reg == h.reg.(retries := h'.reg.retries) && h'.reg.retries.Keys <= h.reg.retries.Keys
    ensures forall ski | ski in order :: ski !in RotateRetries(h, order).reg.retries
  {
    if order != [] {
      var front, ski := order[..|order| - 1], order[|order| - 1];
      RotateRetriesKeeps(h, front);
      forall s | s in order ensures s !in RotateRetries(h, order).reg.retries {
        assert s in front || s == ski;
      }
    }
  }

  ghost predicate Retained(h: Hub, ski: Ski, current: map<Ski, TrustedObservation>)
    requires ski in h.reg.retries
  {
    && ski in current && current[ski].revision == h.reg.retries[ski].observation.revision
    && current[ski].admission == h.reg.retries[ski].observation.admission
  }

  lemma {:induction false} InvalidateKeeps(h: Hub, order: seq<Ski>, current: map<Ski, TrustedObservation>)
    requires Core(h)
    ensures var h' := Invalidate(h, order, current);
            && Core(h') && h'.feed == h.feed
            && h'.reg == h.reg.(retries := h'.reg.retries)
            && h'.reg.retries.Keys <= h.reg.retries.Keys
            && (forall ski | ski in h'.reg.retries :: h'.reg.retries[ski] == h.reg.retries[ski])
    ensures forall ski | ski in order && ski in Invalidate(h, order, current).reg.retries :: Retained(h, ski, current)
  {
    if order != [] {
      var front, ski := order[..|order| - 1], order[|order| - 1];
      InvalidateKeeps(h, front, current);
      var h0 := Invalidate(h, front, current);
      var h' := Invalidate(h, order, current);
      forall s | s in order && s in h'.reg.retries ensures Retained(h, s, current) {
        assert s in front || s == ski;
      }
    }
  }

  ghost predicate Stamped(found: map<Ski, TrustedObservation>, revision: nat, admission: nat) {
    forall ski | ski in found :: found[ski].admission == admission && found[ski].revision == revision
  }

  lemma {:induction false} SurveyStamped(remotes: seq<Remote>, revision: nat, admission: nat)
    ensures Stamped(SurveyOf(remotes, revision, admission).found, revision, admission)
  {
    if remotes != [] {
      var front := remotes[..|remotes| - 1];
      SurveyStamped(front, revision, admission);
      var s, t := SurveyOf(front, revision, admission), SurveyOf(remotes, revision, admission);
      var e := remotes[|remotes| - 1];
      assert forall ski | ski in t.found && ski != e.ski :: ski in s.found && t.found[ski] == s.found[ski];
    }
  }

  lemma ListsMembers(order: seq<Ski>, keys: set<Ski>)
    requires Lists(order, keys)
    ensures forall ski :: ski in order <==> ski in keys
  {
    forall ski ensures ski in order <==> ski in keys {
      assert ski in order <==> ski in (set k | k in order);
    }
  }

  ghost predicate Applied(h: Hub, h': Hub, s: Snapshot) {
    && Core(h') && h'.reg.retries == map[] && CandidatesVisible(h'.reg) && h'.feed == h.feed
    && h'.reg.appliedAdmission == s.admission
    && (forall ski | ski in h'.reg.visibleTrusted :: h'.reg.visibleTrusted[ski].admission <= s.admission)
  }

  lemma ApplyOutdated(h: Hub, s: Snapshot, actives: seq<Ski>, retries: seq<Ski>)
    requires Inv(h) && h.reg.appliedAdmission < s.admission && s.revision < h.reg.latestRevision
    requires forall ski :: ski in retries <==> ski in h.reg.retries
    ensures Applied(h, Apply(h, s, actives, retries), s)
  {
    var h0 := h.(reg := h.reg.(appliedAdmission := s.admission));
    InvalidateKeeps(h0, retries, map[]);
    var h' := Invalidate(h0, retries, map[]);
    assert h'.reg.retries == map[];
    forall ski | ski in h'.reg.active ensures !Stale(h'.reg, ski) {
      assert !Stale(h.reg, ski);
    }
  }

  lemma ApplyNewer(h: Hub, s: Snapshot, actives: seq<Ski>, retries: seq<Ski>)
    requires Inv(h) && h.reg.appliedAdmission < s.admission && s.revision >= h.reg.latestRevision
    requires forall ski :: ski in retries <==> ski in h.reg.retries
    requires forall ski :: ski in actives <==> ski in h.reg.active
    ensures Applied(h, Apply(h, s, actives, retries), s)
  {
    var h0 := h.(reg := Install(h.reg, s));
    SurveyStamped(s.remotes, s.revision, s.admission);
    RetireStaleKeeps(h0, actives);
    var h1 := RetireStale(h0, actives);
    InvalidateKeeps(h1, retries, h1.reg.visibleTrusted);
    var h2 := Invalidate(h1, retries, h1.reg.visibleTrusted);
    forall ski | ski in h1.reg.retries ensures !Retained(h1, ski, h1.reg.visibleTrusted) {
      assert RetryCurrent(h.reg, ski);
    }
    assert h2.reg.retries == map[];
    forall ski | ski in h2.reg.active ensures !Stale(h2.reg, ski) {
      assert !Stale(h1.reg, ski);
    }
  }

  /** Applying a snapshot ends every retry, because each is bound to an earlier
      admission, and retires every undialled candidate it no longer offers. */
  lemma ApplyKeeps(h: Hub, actives: seq<Ski>, retries: seq<Ski>)
    requires Inv(h) && h.feed.q.current.Some?
    requires Lists(actives, h.reg.active.Keys) && Lists(retries, h.reg.retries.Keys)
    ensures Applied(h, Apply(h, h.feed.q.current.value, actives, retries), h.feed.q.current.value)
  {
    ListsMembers(actives, h.reg.active.Keys);
    ListsMembers(retries, h.reg.retries.Keys);
    if h.feed.q.current.value.revision < h.reg.latestRevision {
      ApplyOutdated(h, h.feed.q.current.value, actives, retries);
    } else {
      ApplyNewer(h, h.feed.q.current.value, actives, retries);
    }
  }

  lemma RunTaskKeeps(h: Hub, actives: seq<Ski>, retries: seq<Ski>)
    requires Inv(h)
    ensures Inv(Step(h, RunTask(actives, retries)))
  {
    if h.feed.q.current.Some? && Lists(actives, h.reg.active.Keys) && Lists(retries, h.reg.retries.Keys) {
      ApplyKeeps(h, actives, retries);
    }
  }

  /** A gate change ends every selection and every retry. */
  lemma GateClears(h: Hub, installed: bool, actives: seq<Ski>, retries: seq<Ski>)
    requires Core(h) && Lists(actives, h.reg.active.Keys) && Lists(retries, h.reg.retries.Keys)
    ensures var h' := SetGate(h, installed, actives, retries);
            && Core(h') && h'.feed == h.feed && h'.reg.active == map[] && h'.reg.retries == map[]
            && h'.reg == h.reg.(detail := h'.reg.detail, active := map[], pins := h'.reg.pins, retries := map[])
  {
    var h0 := h.(out := h.out.(gate := installed, gateEpoch := h.out.gateEpoch + 1));
    RetireEveryKeeps(h0, actives);
    RotateRetriesKeeps(RetireEvery(h0, actives), retries);
    var h1 := RotateRetries(RetireEvery(h0, actives), retries);
    ListsMembers(retries, h.reg.retries.Keys);
    assert h1.reg.retries == map[];
    ListsMembers(actives, h.reg.active.Keys);
    assert h1.reg.active == map[];
  }

  lemma ReplaceGateKeeps(h: Hub, installed: bool, actives: seq<Ski>, retries: seq<Ski>)
    requires Inv(h)
    ensures Inv(Step(h, ReplaceGate(installed, actives, retries)))
  {
    if Lists(actives, h.reg.active.Keys) && Lists(retries, h.reg.retries.Keys) {
      GateClears(h, installed, actives, retries);
    }
  }

  lemma SelectKeeps(h: Hub, ref: Ref, ski: Ski, connect: bool)
    requires Inv(h)
    ensures Inv(Admit(h, ref, ski, connect))
  {
    if AdmitVerdict(h, ref, ski, connect).Accepted? {
      var h' := Admit(h, ref, ski, connect);
      assert Ordered(h.reg.visible[ref].addresses)[0] in Ordered(h.reg.visible[ref].addresses);
      assert !Stale(h'.reg, ski);
      forall s | s in h'.reg.active ensures !Stale(h'.reg, s) {
        if s != ski { assert !Stale(h.reg, s); }
      }
    }
  }

  lemma DialKeeps(h: Hub, ski: Ski, token: nat, provider: Option<nat>)
    requires Inv(h)
    ensures Inv(Connect(h, ski, token, provider))
    ensures MayConnect(h, ski, token) ==> ski !in h.reg.pins
  {
    var h' := Connect(h, ski, token, provider);
    forall s | s in h'.reg.active ensures !Stale(h'.reg, s) {
      assert !Stale(h.reg, s);
    }
  }

  lemma CandidateLoss(h: Hub, h': Hub)
    requires Inv(h) && Core(h') && h'.feed == h.feed
    requires h'.reg.visible == h.reg.visible && h'.reg.visibleTrusted == h.reg.visibleTrusted
    requires h'.reg.appliedAdmission == h.reg.appliedAdmission
    requires forall ski | ski in h'.reg.active :: ski in h.reg.active && h'.reg.active[ski] == h.reg.active[ski]
    requires forall ski | ski in h'.reg.retries :: ski in h.reg.retries && h'.reg.retries[ski] == h.reg.retries[ski]
    ensures Inv(h')
  {
    forall s | s in h'.reg.active ensures !Stale(h'.reg, s) {
      assert !Stale(h.reg, s);
    }
    forall s | s in h'.reg.retries ensures RetryCurrent(h'.reg, s) {
      assert RetryCurrent(h.reg, s);
    }
  }

  lemma CloseAttemptKeepsCore(h: Hub, id: nat, superseded: bool)
    requires Core(h)
    ensures Core(CloseAttempt(h, id, superseded))
  {
    if id in h.out.attempts && !superseded {
      var attempt := h.out.attempts[id];
      var h' := CloseAttempt(h, id, superseded);
      var r := h.reg;
      if attempt.ski in r.active && r.active[attempt.ski].authority == attempt.authority {
        assert MayRetire(TakePinFor(r, attempt.ski, attempt.authority), attempt.ski, None, Some(attempt.authority));
      }
      assert forall s | s in h'.reg.pins :: s in r.pins && Backed(r, s);
    }
  }

  lemma CloseAttemptFrame(h: Hub, id: nat, superseded: bool)
    ensures OnlyCandidatesLeft(h, CloseAttempt(h, id, superseded))
  {
  }

  lemma PinLossKeeps(h: Hub, pins: map<Ski, Pin>)
    requires Inv(h) && pins.Keys <= h.reg.pins.Keys && forall ski | ski in pins :: pins[ski] == h.reg.pins[ski]
    ensures Inv(h.(reg := h.reg.(pins := pins)))
  {
    var h' := h.(reg := h.reg.(pins := pins));
    forall ski | ski in pins ensures Backed(h'.reg, ski) { assert Backed(h.reg, ski); }
    CandidateLoss(h, h');
  }

  lemma RetryKeeps(h: Hub, ski: Ski, free: bool)
    requires Inv(h)
    ensures Inv(StartRetry(h, ski, free))
  {
    var h' := StartRetry(h, ski, free);
    forall s | s in h'.reg.active ensures !Stale(h'.reg, s) {
      assert !Stale(h.reg, s);
    }
    forall s | s in h'.reg.retries ensures RetryCurrent(h'.reg, s) {
      if s in h.reg.retries { assert RetryCurrent(h.reg, s); }
    }
  }

  lemma ReportKeeps(h: Hub, remotes: seq<Remote>, candidates: seq<Candidate>, revision: nat)
    requires Inv(h)
    ensures Inv(h.(feed := Enqueue(h.feed, remotes, candidates, revision)))
  {
    assert FeedSound(h.reg, Enqueue(h.feed, remotes, candidates, revision));
  }

  lemma PopKeeps(h: Hub)
    requires Inv(h)
    ensures Inv(h.(feed := Pop(h.feed)))
  {
    assert FeedSound(h.reg, Pop(h.feed));
  }

  lemma OutboundKeeps(h: Hub, out: Outbound)
    requires Inv(h) && AuthoritiesIssued(out)
    requires forall ski | ski in h.out.authorities :: ski in out.authorities && out.authorities[ski] == h.out.authorities[ski]
    ensures Inv(h.(out := out))
  {
  }

  lemma RetireCandidateKeeps(h: Hub, ski: Ski, token: Option<nat>, authority: Option<nat>)
    requires Inv(h)
    ensures Inv(RetireAndCancel(h, ski, token, authority))
  {
    RetireKeepsCore(h, ski, token, authority);
    CandidateLoss(h, RetireAndCancel(h, ski, token, authority));
  }

  lemma RevokeKeeps(h: Hub, ski: Ski)
    requires Inv(h)
    ensures Inv(Revoke(h, ski))
  {
    var h' := Revoke(h, ski);
    forall s | s in h'.reg.pins ensures Backed(h'.reg, s) { assert Backed(h.reg, s); }
    CandidateLoss(h, h');
  }

  lemma TrustKeeps(h: Hub, ski: Ski)
    requires Inv(h)
    ensures Inv(Trust(h, ski))
  {
    var h' := Trust(h, ski);
    forall s | s in h'.reg.pins ensures Backed(h'.reg, s) { assert Backed(h.reg, s); }
    CandidateLoss(h, h');
  }

  lemma EndRetryKeeps(h: Hub, ski: Ski, id: nat)
    requires Inv(h)
    ensures Inv(FinishRetry(h, ski, id))
  {
    CandidateLoss(h, FinishRetry(h, ski, id));
  }

  lemma ConnectionClosedKeeps(h: Hub, id: nat, superseded: bool)
    requires Inv(h)
    ensures Inv(CloseAttempt(h, id, superseded))
  {
    CloseAttemptKeepsCore(h, id, superseded);
    CloseAttemptFrame(h, id, superseded);
    CandidateLoss(h, CloseAttempt(h, id, superseded));
  }

  lemma HandshakeUpdateKeeps(h: Hub, ski: Ski, id: nat, epoch: nat, state: ConnectionState)
    requires Inv(h)
    ensures Inv(InternalUpdate(h, ski, id, epoch, state))
  {
    CandidateLoss(h, InternalUpdate(h, ski, id, epoch, state));
  }

  /** The steps under muxAttemptGate alone never change an authority in place. */
  predicate OutboundOnly(e: Event) {
    e.CaptureAuthority? || e.LaunchGated? || e.LaunchInternal? || e.ReleaseAttempt? || e.ShutdownGate?
  }

  lemma OutboundOnlyExtends(h: Hub, e: Event)
    requires OutboundOnly(e) && AuthoritiesIssued(h.out)
    ensures var out := Step(h, e).out;
            && Step(h, e) == h.(out := out) && AuthoritiesIssued(out)
            && forall ski | ski in h.out.authorities :: ski in out.authorities && out.authorities[ski] == h.out.authorities[ski]
  {
  }

  lemma OutboundOnlyKeeps(h: Hub, e: Event)
    requires Inv(h) && OutboundOnly(e)
    ensures Inv(Step(h, e))
  {
    OutboundOnlyExtends(h, e);
    OutboundKeeps(h, Step(h, e).out);
  }

  predicate PinOnly(e: Event) {
    e.ConsumePin? || e.ConsumePinFor? || e.DiscardPin? || e.DiscardPinFor? || e.ShutdownPins?
  }

  lemma PinOnlyKeeps(h: Hub, e: Event)
    requires Inv(h) && PinOnly(e)
    ensures Inv(Step(h, e))
  {
    var pins := Step(h, e).reg.pins;
    assert Step(h, e) == h.(reg := h.reg.(pins := pins));
    PinLossKeeps(h, pins);
  }

  // ----------------------------------------------- what the other events leave alone

  predicate FeedOnly(e: Event) {
    e.Report? || e.PopTask?
  }

  lemma FeedOnlyFrame(h: Hub, e: Event)
    requires FeedOnly(e)
    ensures Step(h, e).reg == h.reg && Step(h, e).out == h.out
  {
  }

  /** What the hub shows and what it has still to apply stay as they are. */
  ghost predicate ViewAlone(h: Hub, h': Hub) {
    && h'.feed == h.feed && h'.reg.visible == h.reg.visible && h'.reg.latestRevision == h.reg.latestRevision
    && h'.reg.appliedAdmission == h.reg.appliedAdmission && h'.reg.visibleTrusted == h.reg.visibleTrusted
  }

  /** So do the retries and the consumed references; trust is not taken away. */
  ghost predicate RetriesAlone(h: Hub, h': Hub) {
    ViewAlone(h, h') && h'.reg.retries == h.reg.retries && h'.reg.consumed == h.reg.consumed && h.reg.trusted <= h'.reg.trusted
  }

  predicate CandidateEvent(e: Event) {
    e.Dial? || e.RetireCandidate? || e.GrantTrust? || e.ConnectionClosed? || e.HandshakeUpdate?
  }

  lemma DialFrame(h: Hub, ski: Ski, token: nat, provider: Option<nat>)
    ensures RetriesAlone(h, Step(h, Dial(ski, token, provider)))
  {
  }

  lemma RetireFrame(h: Hub, ski: Ski, token: Option<nat>, authority: Option<nat>)
    ensures RetriesAlone(h, Step(h, RetireCandidate(ski, token, authority)))
  {
  }

  lemma TrustFrame(h: Hub, ski: Ski)
    ensures RetriesAlone(h, Step(h, GrantTrust(ski)))
  {
  }

  lemma ClosedFrame(h: Hub, id: nat, superseded: bool)
    ensures RetriesAlone(h, Step(h, ConnectionClosed(id, superseded)))
  {
    CloseAttemptFrame(h, id, superseded);
  }

  lemma UpdateFrame(h: Hub, ski: Ski, id: nat, epoch: nat, state: ConnectionState)
    ensures RetriesAlone(h, Step(h, HandshakeUpdate(ski, id, epoch, state)))
  {
  }

  lemma CandidateEventFrame(h: Hub, e: Event)
    requires CandidateEvent(e)
    ensures RetriesAlone(h, Step(h, e))
  {
    match e
    case Dial(ski, token, provider) => DialFrame(h, ski, token, provider);
    case RetireCandidate(ski, token, authority) => RetireFrame(h, ski, token, authority);
    case GrantTrust(ski) => TrustFrame(h, ski);
    case ConnectionClosed(id, superseded) => ClosedFrame(h, id, superseded);
    case HandshakeUpdate(ski, id, epoch, state) => UpdateFrame(h, ski, id, epoch, state);
  }

  lemma SelectFrame(h: Hub, ref: Ref, ski: Ski, connect: bool)
    ensures var h' := Step(h, Select(ref, ski, connect));
            ViewAlone(h, h') && h'.reg.retries == h.reg.retries && h'.reg.trusted == h.reg.trusted
  {
  }

  predicate RetryEvent(e: Event) {
    e.BeginRetry? || e.EndRetry? || e.RevokeAll?
  }

  lemma RetryEventFrame(h: Hub, e: Event)
    requires RetryEvent(e)
    ensures var h' := Step(h, e);
            && ViewAlone(h, h') && h'.reg.consumed == h.reg.consumed
            && h'.reg.trusted == if e.RevokeAll? then h.reg.trusted - {e.ski} else h.reg.trusted
  {
  }

  /** Every critical section, in every state, keeps the invariant. */
  lemma StepKeeps(h: Hub, e: Event)
    requires Inv(h)
    ensures Inv(Step(h, e))
  {
    if OutboundOnly(e) {
      OutboundOnlyKeeps(h, e);
    } else if PinOnly(e) {
      PinOnlyKeeps(h, e);
    } else {
      OtherStepKeeps(h, e);
    }
  }

  lemma OtherStepKeeps(h: Hub, e: Event)
    requires Inv(h) && !OutboundOnly(e) && !PinOnly(e)
    ensures Inv(Step(h, e))
  {
    match e
    case Report(remotes, candidates, revision) => ReportKeeps(h, remotes, candidates, revision);
    case PopTask => PopKeeps(h);
    case RunTask(actives, retries) => RunTaskKeeps(h, actives, retries);
    case Select(ref, ski, connect) => SelectKeeps(h, ref, ski, connect);
    case Dial(ski, token, provider) => DialKeeps(h, ski, token, provider);
    case RetireCandidate(ski, token, authority) => RetireCandidateKeeps(h, ski, token, authority);
    case RevokeAll(ski) => RevokeKeeps(h, ski);
    case ReplaceGate(installed, actives, retries) => ReplaceGateKeeps(h, installed, actives, retries);
    case GrantTrust(ski) => TrustKeeps(h, ski);
    case BeginRetry(ski, free) => RetryKeeps(h, ski, free);
    case EndRetry(ski, id) => EndRetryKeeps(h, ski, id);
    case ConnectionClosed(id, superseded) => ConnectionClosedKeeps(h, id, superseded);
    case HandshakeUpdate(ski, id, epoch, state) => HandshakeUpdateKeeps(h, ski, id, epoch, state);
  }

  /** In every reachable state an active candidate is untrusted, holds the
      current authority, excludes a retry and, until dialled, is still offered; a
      stored PIN provider is backed; an active retry is bound to exactly the
      visible observation with nothing applied since. */
  lemma {:induction false} Reachable(events: seq<Event>)
    ensures Inv(Run(INITIAL, events))
  {
    if events != [] {
      Reachable(events[..|events| - 1]);
      StepKeeps(Run(INITIAL, events[..|events| - 1]), events[|events| - 1]);
    }
  }
}
