/**
 The live pairing registry: one object whose methods are the hub's critical sections.
 Each method is tied to the step function that specifies it; the loops over Go maps
 run in an arbitrary order, which the methods return as ghost sequences.
 */
module PairingHub {
  import opened Basics
  import opened Addresses
  import Q = SerialQueue
  import opened PairingRegistry
  import opened PairingInvariants

  // ------------------------------------------------ loops over local collections

  /** The loop that keeps the consumed references which are still offered. */
  method RetainConsumed(consumed: set<Ref>, candidates: seq<Candidate>) returns (retained: set<Ref>)
    ensures retained == consumed * Refs(candidates)
  {
    retained := {};
    var i := 0;
    while i < |candidates|
      invariant 0 <= i <= |candidates| && retained == consumed * Refs(candidates[..i])
    {
      assert candidates[..i + 1] == candidates[..i] + [candidates[i]];
      assert Refs(candidates[..i + 1]) == Refs(candidates[..i]) + {candidates[i].ref};
      if candidates[i].ref in consumed { retained := retained + {candidates[i].ref}; }
      i := i + 1;
    }
    assert candidates[..i] == candidates;
  }

  method CollectVisible(candidates: seq<Candidate>, revision: nat) returns (visible: map<Ref, Observation>)
    ensures visible == VisibleOf(candidates, revision)
  {
    visible := map[];
    var i := 0;
    while i < |candidates|
      invariant 0 <= i <= |candidates| && visible == VisibleOf(candidates[..i], revision)
    {
      var c := candidates[i];
      assert candidates[..i + 1][..i] == candidates[..i];
      if c.ref != 0 && c.ski != "" {
        visible := visible[c.ref := Observation(c.ski, revision, c.path, c.port, c.addresses)];
      }
      i := i + 1;
    }
    assert candidates[..i] == candidates;
  }

  method TrustedRemoteObservations(remotes: seq<Remote>, revision: nat, admission: nat)
    returns (found: map<Ski, TrustedObservation>)
    ensures found == SurveyOf(remotes, revision, admission).found
  {
    found := map[];
    var ambiguous := {};
    var i := 0;
    while i < |remotes|
      invariant 0 <= i <= |remotes| && Survey(found, ambiguous) == SurveyOf(remotes[..i], revision, admission)
    {
      var e := remotes[i];
      assert remotes[..i + 1][..i] == remotes[..i];
      i := i + 1;
      if e.port <= 0 || e.port > 65535 || !e.validSki { continue; }
      if e.ski in found {
        found := found - {e.ski};
        ambiguous := ambiguous + {e.ski};
        continue;
      }
      if e.ski in ambiguous || e.host.None? { continue; }
      found := found[e.ski := TrustedObservation(revision, admission, e.host.value, e.port, e.path)];
    }
    assert remotes[..i] == remotes;
  }

  /** Every finite set can be listed; ranging over a map does it in some order. */
  lemma {:induction false} SomeOrder(keys: set<Ski>) returns (order: seq<Ski>)
    ensures Lists(order, keys)
    decreases |keys|
  {
    order := [];
    if keys != {} {
      var ski :| ski in keys;
      var rest := SomeOrder(keys - {ski});
      order := rest + [ski];
      ListsGrow(rest, keys - {ski}, ski);
      assert keys - {ski} + {ski} == keys;
    }
  }

  lemma ListsGrow(order: seq<Ski>, keys: set<Ski>, ski: Ski)
    requires Lists(order, keys)
    ensures Lists(order + [ski], keys + {ski}) && (order + [ski])[..|order|] == order
  {
  }

  // ------------------------------------------------------------------ the hub

  class LiveHub {
    var outbound: Outbound    // muxAttemptGate
    var registry: Registry    // muxReg
    var feed: Feed            // mdnsSnapshotMux

    ghost function View(): Hub
      reads this
    {
      PairingRegistry.Hub(outbound, registry, feed)
    }

    constructor ()
      ensures View() == INITIAL && Inv(View())
    {
      outbound, registry, feed := INITIAL.out, INITIAL.reg, INITIAL.feed;
    }

    method RotateOutboundAuthority(ski: Ski) returns (authority: nat)
      modifies this`outbound
      ensures outbound == Rotate(old(outbound), ski) && authority == outbound.authorities[ski]
      ensures AuthoritiesIssued(old(outbound)) ==>
                AuthoritiesIssued(outbound) && forall other | other in old(outbound).authorities :: old(outbound).authorities[other] < authority
    {
      authority := outbound.epoch + 1;
      outbound := outbound.(epoch := authority, authorities := outbound.authorities[ski := authority]);
    }

    method CurrentOutboundAuthority(ski: Ski) returns (authority: nat)
      modifies this`outbound
      ensures outbound == Current(old(outbound), ski) && authority == outbound.authorities[ski]
    {
      if ski in outbound.authorities { return outbound.authorities[ski]; }
      authority := RotateOutboundAuthority(ski);
    }

    /** The registrations of one SKI leave the map; their contexts are cancelled later. */
    method RemoveOutboundAttemptRegistrations(ski: Ski) returns (removed: set<nat>)
      modifies this`outbound
      ensures outbound == DropAttempts(old(outbound), ski)
      ensures removed == set id | id in old(outbound).attempts && old(outbound).attempts[id].ski == ski
    {
      removed := {};
      var attempts := outbound.attempts;
      var rest := attempts.Keys;
      while rest != {}
        invariant rest <= outbound.attempts.Keys
        invariant attempts == map id | id in outbound.attempts && (id in rest || outbound.attempts[id].ski != ski) :: outbound.attempts[id]
        invariant removed == set id | id in outbound.attempts && id !in rest && outbound.attempts[id].ski == ski
        invariant outbound == old(outbound)
        decreases |rest|
      {
        var id :| id in rest;
        rest := rest - {id};
        if attempts[id].ski == ski {
          attempts := attempts - {id};
          removed := removed + {id};
        }
      }
      outbound := outbound.(attempts := attempts);
    }

    method RegisterOutboundAttemptForLaunch(ski: Ski, generation: nat, authority: nat) returns (id: Option<nat>)
      modifies this`outbound
      ensures outbound == Launch(old(outbound), ski, generation, authority)
      ensures id.Some? <==> MayLaunch(old(outbound), ski, generation, authority)
      ensures id.Some? ==> id.value in outbound.attempts && outbound.attempts[id.value] == Attempt(ski, authority, Some(generation))
    {
      if outbound.shutdown || !outbound.gate || outbound.gateEpoch != generation
         || ski !in outbound.authorities || outbound.authorities[ski] != authority {
        return None;
      }
      id := Some(outbound.nextAttempt);
      outbound := outbound.(attempts := outbound.attempts[outbound.nextAttempt := Attempt(ski, authority, Some(generation))],
                            nextAttempt := outbound.nextAttempt + 1);
    }

    method RegisterInternalOutboundAttemptForLaunch(ski: Ski, authority: nat) returns (id: Option<nat>)
      modifies this`outbound
      ensures outbound == LaunchInternally(old(outbound), ski, authority)
      ensures id.Some? <==> MayLaunchInternally(old(outbound), ski, authority)
    {
      if outbound.shutdown || outbound.gate || ski !in outbound.authorities || outbound.authorities[ski] != authority {
        return None;
      }
      id := Some(outbound.nextAttempt);
      outbound := outbound.(attempts := outbound.attempts[outbound.nextAttempt := Attempt(ski, authority, None)],
                            nextAttempt := outbound.nextAttempt + 1);
    }

    method TakeTransientPinProviderForAuthority(ski: Ski, authority: nat) returns (provider: Option<nat>)
      modifies this`registry
      ensures registry == TakePinFor(old(registry), ski, authority)
      ensures provider.Some? <==> ski in old(registry).pins && old(registry).pins[ski].authority == authority
      ensures provider.Some? ==> provider.value == old(registry).pins[ski].provider
    {
      if ski !in registry.pins || registry.pins[ski].authority != authority { return None; }
      provider := Some(registry.pins[ski].provider);
      registry := registry.(pins := registry.pins - {ski});
    }

    method RetireActivePairingCandidate(ski: Ski, token: Option<nat>, authority: Option<nat>) returns (retired: bool)
      modifies this`outbound, this`registry
      ensures View() == Retire(old(View()), ski, token, authority)
      ensures retired == MayRetire(old(registry), ski, token, authority)
    {
      if ski !in registry.active { return false; }
      var active := registry.active[ski];
      if (token.Some? && active.token != token.value) || (authority.Some? && active.authority != authority.value)
         || ski in registry.trusted {
        return false;
      }
      var _ := RotateOutboundAuthority(ski);
      registry := registry.(detail := registry.detail[ski := Idle], active := registry.active - {ski});
      var _ := TakeTransientPinProviderForAuthority(ski, active.authority);
      return true;
    }

    method RetirePairingCandidate(ski: Ski, token: Option<nat>, authority: Option<nat>)
      modifies this`outbound, this`registry
      ensures View() == RetireAndCancel(old(View()), ski, token, authority)
    {
      var retired := RetireActivePairingCandidate(ski, token, authority);
      if retired {
        var _ := RemoveOutboundAttemptRegistrations(ski);
      }
    }

    method RevokeOutboundAttempts(ski: Ski)
      modifies this`outbound, this`registry
      ensures View() == Revoke(old(View()), ski)
    {
      var _ := RotateOutboundAuthority(ski);
      var _ := RemoveOutboundAttemptRegistrations(ski);
      registry := registry.(active := registry.active - {ski}, pins := registry.pins - {ski},
                            retries := registry.retries - {ski}, trusted := registry.trusted - {ski},
                            detail := registry.detail[ski := Idle]);
    }

    /** Retire every candidate that has not been dialled and is no longer offered. */
    method RetireStaleCandidates() returns (ghost order: seq<Ski>)
      modifies this`outbound, this`registry
      ensures Lists(order, old(registry).active.Keys)
      ensures View() == RetireStale(old(View()), order)
    {
      order := [];
      ghost var all := registry.active.Keys;
      var rest := registry.active.Keys;
      while rest != {}
        invariant rest <= all && Lists(order, all - rest)
        invariant View() == RetireStale(old(View()), order)
        decreases |rest|
      {
        var ski :| ski in rest;
        ListsGrow(order, all - rest, ski);
        assert all - rest + {ski} == all - (rest - {ski});
        rest := rest - {ski};
        order := order + [ski];
        if ski in registry.active && !registry.active[ski].issued {
          var active := registry.active[ski];
          if !(active.ref in registry.visible && Matches(registry.visible[active.ref], ski, active)) {
            var _ := RetireActivePairingCandidate(ski, None, None);
          }
        }
      }
    }

    /** One round of the loop in `invalidateTrustedRemoteRetries`. */
    method InvalidateTrustedRemoteRetry(ski: Ski, current: map<Ski, TrustedObservation>)
      modifies this`outbound, this`registry
      ensures View() == InvalidateOne(old(View()), ski, current)
      ensures registry == old(registry).(retries := registry.retries)
    {
      if ski in registry.retries
         && !(ski in current && current[ski].revision == registry.retries[ski].observation.revision
              && current[ski].admission == registry.retries[ski].observation.admission) {
        var _ := RotateOutboundAuthority(ski);
        var _ := RemoveOutboundAttemptRegistrations(ski);
        registry := registry.(retries := registry.retries - {ski});
      }
    }

    method InvalidateTrustedRemoteRetries(current: map<Ski, TrustedObservation>) returns (ghost order: seq<Ski>)
      modifies this`outbound, this`registry
      ensures Lists(order, old(registry).retries.Keys)
      ensures View() == Invalidate(old(View()), order, current)
      ensures registry == old(registry).(retries := registry.retries)
    {
      order := [];
      ghost var all := registry.retries.Keys;
      var rest := registry.retries.Keys;
      while rest != {}
        invariant rest <= all && Lists(order, all - rest)
        invariant View() == Invalidate(old(View()), order, current)
        invariant registry == old(registry).(retries := registry.retries)
        decreases |rest|
      {
        var ski :| ski in rest;
        ListsGrow(order, all - rest, ski);
        assert all - rest + {ski} == all - (rest - {ski});
        rest := rest - {ski};
        order := order + [ski];
        InvalidateTrustedRemoteRetry(ski, current);
      }
    }

    /** The critical section of `reportMdnsSnapshot`. */
    method ReportMdnsSnapshot(s: Snapshot) returns (ghost actives: seq<Ski>, ghost retries: seq<Ski>)
      modifies this`outbound, this`registry
      ensures Lists(actives, old(registry).active.Keys) && Lists(retries, old(registry).retries.Keys)
      ensures View() == Apply(old(View()), s, actives, retries)
    {
      if s.revision < registry.latestRevision {
        actives := SomeOrder(registry.active.Keys);
        registry := registry.(appliedAdmission := s.admission);
        retries := InvalidateTrustedRemoteRetries(map[]);
        return;
      }
      var trustedNow := TrustedRemoteObservations(s.remotes, s.revision, s.admission);
      var consumed := RetainConsumed(registry.consumed, s.candidates);
      var visible := CollectVisible(s.candidates, s.revision);
      registry := registry.(latestRevision := s.revision, appliedAdmission := s.admission,
                            visibleTrusted := trustedNow, consumed := consumed, visible := visible);
      assert registry == Install(old(registry), s);
      ghost var installed := View();
      actives := RetireStaleCandidates();
      RetireStaleFrame(installed, actives);
      retries := InvalidateTrustedRemoteRetries(trustedNow);
    }

    method SetOutgoingAttemptGate(installed: bool) returns (ghost actives: seq<Ski>, ghost retries: seq<Ski>)
      modifies this`outbound, this`registry
      ensures Lists(actives, old(registry).active.Keys) && Lists(retries, old(registry).retries.Keys)
      ensures View() == SetGate(old(View()), installed, actives, retries)
    {
      outbound := outbound.(gate := installed, gateEpoch := outbound.gateEpoch + 1);
      ghost var h0 := View();
      actives := RetireEveryCandidate();
      RetireEveryFrame(h0, actives);
      retries := RotateEveryRetry();
      outbound := outbound.(attempts := map[]);
    }

    method RetireEveryCandidate() returns (ghost order: seq<Ski>)
      modifies this`outbound, this`registry
      ensures Lists(order, old(registry).active.Keys) && View() == RetireEvery(old(View()), order)
    {
      order := [];
      ghost var all := registry.active.Keys;
      var rest := registry.active.Keys;
      while rest != {}
        invariant rest <= all && Lists(order, all - rest)
        invariant View() == RetireEvery(old(View()), order)
        decreases |rest|
      {
        var ski :| ski in rest;
        ListsGrow(order, all - rest, ski);
        assert all - rest + {ski} == all - (rest - {ski});
        rest := rest - {ski};
        order := order + [ski];
        var _ := RetireActivePairingCandidate(ski, None, None);
      }
    }

    method RotateEveryRetry() returns (ghost order: seq<Ski>)
      modifies this`outbound, this`registry
      ensures Lists(order, old(registry).retries.Keys) && View() == RotateRetries(old(View()), order)
    {
      order := [];
      ghost var all := registry.retries.Keys;
      var rest := registry.retries.Keys;
      while rest != {}
        invariant rest <= all && Lists(order, all - rest)
        invariant View() == RotateRetries(old(View()), order)
        decreases |rest|
      {
        var ski :| ski in rest;
        ListsGrow(order, all - rest, ski);
        assert all - rest + {ski} == all - (rest - {ski});
        rest := rest - {ski};
        order := order + [ski];
        if ski in registry.retries {
          var _ := RotateOutboundAuthority(ski);
          registry := registry.(retries := registry.retries - {ski});
        }
      }
    }

    // ----------------------------------------------------- the snapshot feed

    method EnqueueMdnsSnapshot(remotes: seq<Remote>, candidates: seq<Candidate>, revision: nat) returns (shouldDrain: bool)
      modifies this`feed
      ensures feed == Enqueue(old(feed), remotes, candidates, revision) && shouldDrain == !old(feed).q.draining
    {
      var rev := revision;
      if revision == 0 {
        feed := feed.(revision := feed.revision + 1);
        rev := feed.revision;
      } else if revision > feed.revision {
        feed := feed.(revision := revision);
      }
      var admission := feed.admission + 1;
      shouldDrain := !feed.q.draining;
      feed := feed.(admission := admission, q := Q.Enqueue(feed.q, [Snapshot(remotes, candidates, rev, admission)]));
    }

    /** One round of the drain loop: take the oldest snapshot out and apply it. */
    method DrainOne() returns (ghost actives: seq<Ski>, ghost retries: seq<Ski>)
      requires Inv(View()) && feed.q.draining && feed.q.current.None? && feed.q.items != []
      modifies this
      ensures View() == Step(Step(old(View()), PopTask), RunTask(actives, retries)) && Inv(View())
      ensures feed == old(feed).(q := old(feed).q.(items := old(feed).q.items[1..]))
    {
      ghost var h0 := View();
      var task := feed.q.items[0];
      feed := feed.(q := feed.q.(items := feed.q.items[1..], current := Some(task)));
      ghost var h1 := View();
      assert h1 == Step(h0, PopTask);
      StepKeeps(h0, PopTask);
      actives, retries := ReportMdnsSnapshot(task);
      feed := feed.(q := Q.Finish(feed.q));
      ApplyLeavesFeed(h1, task, actives, retries);
      assert View() == Step(h1, RunTask(actives, retries));
      StepKeeps(h1, RunTask(actives, retries));
    }

    /** The drain loop when nobody else takes a step meanwhile: it is a run of the
        registry, it keeps the invariant, and afterwards every admitted snapshot has
        been applied. */
    method DrainMdnsSnapshots() returns (ghost events: seq<Event>)
      requires Inv(View()) && feed.q.draining && feed.q.current.None?
      modifies this
      ensures View() == Run(old(View()), events) && Inv(View())
      ensures Synchronised(View()) && feed.q.items == [] && !feed.q.draining
    {
      events := [];
      while feed.q.items != []
        invariant View() == Run(old(View()), events) && Inv(View())
        invariant feed.q.draining && feed.q.current.None?
        decreases |feed.q.items|
      {
        ghost var actives, retries := DrainOne();
        Extend(old(View()), events, PopTask);
        Extend(old(View()), events + [PopTask], RunTask(actives, retries));
        events := events + [PopTask] + [RunTask(actives, retries)];
      }
      Extend(old(View()), events, PopTask);
      StepKeeps(View(), PopTask);
      feed := feed.(q := feed.q.(draining := false, drainers := 0));
      events := events + [PopTask];
    }

    // ------------------------------------------------------ candidates and PINs

    method AdmitPairingCandidate(ref: Ref, ski: Ski, connect: bool) returns (verdict: Verdict, token: nat)
      modifies this`outbound, this`registry
      ensures verdict == AdmitVerdict(old(View()), ref, ski, connect)
      ensures View() == Admit(old(View()), ref, ski, connect)
      ensures verdict.Accepted? ==> ski in registry.active && registry.active[ski].token == token
    {
      token := registry.nextToken;
      if registry.appliedAdmission != feed.admission { return Unavailable, token; }
      if ref in registry.consumed { return Consumed, token; }
      if ref !in registry.visible { return Unavailable, token; }
      var entry := registry.visible[ref];
      if entry.ski != ski { return SkiMismatch, token; }
      assert entry.addresses + [] == entry.addresses;
      var hosts := OrderedConnectionAddresses(entry.addresses, []);
      if hosts == [] || entry.port <= 0 || entry.port > 65535 || entry.path == "" { return Unavailable, token; }
      if ski in registry.trusted { return AlreadyTrusted, token; }
      if ski in registry.active { return Busy, token; }
      if connect && !outbound.gate { return GateRequired, token; }
      var authority := RotateOutboundAuthority(ski);
      var active := Active(token, authority, ref, entry.revision, hosts[0], entry.port, entry.path, connect);
      registry := registry.(consumed := registry.consumed + {ref}, active := registry.active[ski := active],
                            detail := registry.detail[ski := Queued], nextToken := token + 1);
      return Accepted, token;
    }

    /** The reservation names no SKI, so the active candidates are searched for it. */
    method ConnectPairingCandidate(token: nat, provider: Option<nat>) returns (connected: Option<Ski>)
      requires TokensUnique(registry)
      modifies this`registry
      ensures connected.Some? ==> MayConnect(old(View()), connected.value, token)
                                  && View() == Connect(old(View()), connected.value, token, provider)
      ensures connected.None? ==> View() == old(View()) && forall ski :: !MayConnect(old(View()), ski, token)
    {
      if registry.appliedAdmission != feed.admission { return None; }
      var found: Option<Ski> := None;
      var rest := registry.active.Keys;
      while rest != {} && found.None?
        invariant rest <= registry.active.Keys
        invariant found.Some? ==> found.value in registry.active && registry.active[found.value].token == token
        invariant found.None? ==> forall ski | ski in registry.active.Keys - rest :: registry.active[ski].token != token
        decreases |rest|
      {
        var ski :| ski in rest;
        if registry.active[ski].token == token { found := Some(ski); }
        rest := rest - {ski};
      }
      if found.None? { return None; }
      var active := registry.active[found.value];
      if found.value in registry.trusted || active.issued || !outbound.gate { return None; }
      registry := registry.(
        active := registry.active[found.value := active.(issued := true)],
        pins := if provider.Some? then registry.pins[found.value := Pin(active.authority, provider.value)] else registry.pins,
        detail := registry.detail[found.value := Queued]);
      return found;
    }

    method RegisterRemoteSki(ski: Ski)
      modifies this`registry
      ensures View() == Trust(old(View()), ski)
      ensures Inv(old(View())) ==> Inv(View()) && forall token: nat :: !MayConnect(View(), ski, token)
    {
      ghost var h := View();
      if Inv(h) { StepKeeps(h, GrantTrust(ski)); }
      registry := registry.(trusted := registry.trusted + {ski}, active := registry.active - {ski});
    }

    method RetryTrustedRemote(ski: Ski, free: bool) returns (started: bool)
      modifies this`outbound, this`registry
      ensures started == MayRetry(old(View()), ski, free) && View() == StartRetry(old(View()), ski, free)
    {
      if registry.appliedAdmission != feed.admission || ski !in registry.visibleTrusted || ski !in registry.trusted
         || ski in registry.retries || !free || outbound.shutdown {
        return false;
      }
      var authority := CurrentOutboundAuthority(ski);
      var retry := Retry(registry.nextRetry, authority, registry.visibleTrusted[ski], registry.appliedAdmission);
      registry := registry.(retries := registry.retries[ski := retry], nextRetry := registry.nextRetry + 1);
      return true;
    }

    method ClaimClosedOutboundAttempt(id: nat, superseded: bool)
      modifies this`outbound, this`registry
      ensures View() == CloseAttempt(old(View()), id, superseded)
    {
      if id !in outbound.attempts { return; }
      var attempt := outbound.attempts[id];
      outbound := outbound.(attempts := outbound.attempts - {id});
      if !superseded {
        var _ := TakeTransientPinProviderForAuthority(attempt.ski, attempt.authority);
        var _ := RetireActivePairingCandidate(attempt.ski, None, Some(attempt.authority));
      }
    }
  }

  // -------------------------------------------------------------- frame facts

  lemma {:induction false} RetireStaleFrame(h: Hub, order: seq<Ski>)
    ensures var h' := RetireStale(h, order);
            h'.feed == h.feed && h'.reg.retries == h.reg.retries && h'.reg.visibleTrusted == h.reg.visibleTrusted
  {
    if order != [] {
      RetireStaleFrame(h, order[..|order| - 1]);
    }
  }

  lemma {:induction false} RetireEveryFrame(h: Hub, order: seq<Ski>)
    ensures RetireEvery(h, order).reg.retries == h.reg.retries && RetireEvery(h, order).feed == h.feed
  {
    if order != [] {
      RetireEveryFrame(h, order[..|order| - 1]);
    }
  }

  lemma {:induction false} InvalidateLeavesFeed(h: Hub, order: seq<Ski>, current: map<Ski, TrustedObservation>)
    ensures Invalidate(h, order, current).feed == h.feed
  {
    if order != [] {
      InvalidateLeavesFeed(h, order[..|order| - 1], current);
    }
  }

  lemma ApplyLeavesFeed(h: Hub, s: Snapshot, actives: seq<Ski>, retries: seq<Ski>)
    ensures Apply(h, s, actives, retries).feed == h.feed
  {
    if s.revision < h.reg.latestRevision {
      InvalidateLeavesFeed(h.(reg := h.reg.(appliedAdmission := s.admission)), retries, map[]);
    } else {
      RetireStaleFrame(h.(reg := Install(h.reg, s)), actives);
      var h' := RetireStale(h.(reg := Install(h.reg, s)), actives);
      InvalidateLeavesFeed(h', retries, h'.reg.visibleTrusted);
    }
  }

  lemma Extend(h: Hub, events: seq<Event>, e: Event)
    ensures Run(h, events + [e]) == Step(Run(h, events), e)
  {
    assert (events + [e])[..|events|] == events;
  }

  // ------------------------------------------------------ reservation tokens

  ghost predicate TokensUnique(r: Registry) {
    && (forall ski | ski in r.active :: r.active[ski].token < r.nextToken)
    && (forall a, b | a in r.active && b in r.active && r.active[a].token == r.active[b].token :: a == b)
  }

  /** The active candidates are some of those before, with the tokens they had. */
  ghost predicate KeepsTokens(r: Registry, r': Registry) {
    r'.nextToken == r.nextToken && forall ski | ski in r'.active :: ski in r.active && r'.active[ski].token == r.active[ski].token
  }

  lemma {:induction false} RetireStaleKeepsTokens(h: Hub, order: seq<Ski>)
    ensures KeepsTokens(h.reg, RetireStale(h, order).reg)
  {
    if order != [] {
      RetireStaleKeepsTokens(h, order[..|order| - 1]);
    }
  }

  lemma {:induction false} RetireEveryKeepsTokens(h: Hub, order: seq<Ski>)
    ensures KeepsTokens(h.reg, RetireEvery(h, order).reg)
  {
    if order != [] {
      RetireEveryKeepsTokens(h, order[..|order| - 1]);
    }
  }

  lemma {:induction false} InvalidateKeepsTokens(h: Hub, order: seq<Ski>, current: map<Ski, TrustedObservation>)
    ensures KeepsTokens(h.reg, Invalidate(h, order, current).reg)
  {
    if order != [] {
      InvalidateKeepsTokens(h, order[..|order| - 1], current);
    }
  }

  lemma {:induction false} RotateRetriesKeepsTokens(h: Hub, order: seq<Ski>)
    ensures KeepsTokens(h.reg, RotateRetries(h, order).reg)
  {
    if order != [] {
      RotateRetriesKeepsTokens(h, order[..|order| - 1]);
    }
  }

  lemma FewerTokens(r: Registry, r': Registry)
    requires TokensUnique(r) && KeepsTokens(r, r')
    ensures TokensUnique(r')
  {
  }

  lemma ApplyKeepsTokens(h: Hub, s: Snapshot, actives: seq<Ski>, retries: seq<Ski>)
    ensures KeepsTokens(h.reg, Apply(h, s, actives, retries).reg)
  {
    if s.revision < h.reg.latestRevision {
      InvalidateKeepsTokens(h.(reg := h.reg.(appliedAdmission := s.admission)), retries, map[]);
    } else {
      var h0 := h.(reg := Install(h.reg, s));
      RetireStaleKeepsTokens(h0, actives);
      var h' := RetireStale(h0, actives);
      InvalidateKeepsTokens(h', retries, h'.reg.visibleTrusted);
    }
  }

  lemma SetGateKeepsTokens(h: Hub, installed: bool, actives: seq<Ski>, retries: seq<Ski>)
    ensures KeepsTokens(h.reg, SetGate(h, installed, actives, retries).reg)
  {
    var h0 := h.(out := h.out.(gate := installed, gateEpoch := h.out.gateEpoch + 1));
    RetireEveryKeepsTokens(h0, actives);
    RotateRetriesKeepsTokens(RetireEvery(h0, actives), retries);
  }

  lemma AdmitKeepsTokensUnique(h: Hub, ref: Ref, ski: Ski, connect: bool)
    requires TokensUnique(h.reg)
    ensures TokensUnique(Admit(h, ref, ski, connect).reg)
  {
  }

  lemma RetireKeepsTokens(h: Hub, ski: Ski, token: Option<nat>, authority: Option<nat>)
    ensures KeepsTokens(h.reg, RetireAndCancel(h, ski, token, authority).reg)
  {
  }

  lemma CloseKeepsTokens(h: Hub, id: nat, superseded: bool)
    ensures KeepsTokens(h.reg, CloseAttempt(h, id, superseded).reg)
  {
  }

  lemma UpdateKeepsTokens(h: Hub, ski: Ski, id: nat, epoch: nat, state: ConnectionState)
    ensures KeepsTokens(h.reg, InternalUpdate(h, ski, id, epoch, state).reg)
  {
  }

  lemma OtherStepKeepsTokens(h: Hub, e: Event)
    requires !e.RunTask? && !e.ReplaceGate? && !e.Select?
    ensures KeepsTokens(h.reg, Step(h, e).reg)
  {
    if OutboundOnly(e) || PinOnly(e) || FeedOnly(e) {
      AsideKeepsTokens(h, e);
    } else if RetryEvent(e) {
      RetryEventKeepsTokens(h, e);
    } else {
      CandidateEventKeepsTokens(h, e);
    }
  }

  lemma AsideKeepsTokens(h: Hub, e: Event)
    requires OutboundOnly(e) || PinOnly(e) || FeedOnly(e)
    ensures KeepsTokens(h.reg, Step(h, e).reg)
  {
    assert Step(h, e).reg == h.reg.(pins := Step(h, e).reg.pins);
  }

  lemma RetryEventKeepsTokens(h: Hub, e: Event)
    requires RetryEvent(e)
    ensures KeepsTokens(h.reg, Step(h, e).reg)
  {
  }

  lemma DialKeepsTokens(h: Hub, ski: Ski, token: nat, provider: Option<nat>)
    ensures KeepsTokens(h.reg, Connect(h, ski, token, provider).reg)
  {
  }

  lemma TrustKeepsTokens(h: Hub, ski: Ski)
    ensures KeepsTokens(h.reg, Trust(h, ski).reg)
  {
  }

  lemma CandidateEventKeepsTokens(h: Hub, e: Event)
    requires CandidateEvent(e)
    ensures KeepsTokens(h.reg, Step(h, e).reg)
  {
    match e
    case Dial(ski, token, provider) => DialKeepsTokens(h, ski, token, provider);
    case RetireCandidate(ski, token, authority) => RetireKeepsTokens(h, ski, token, authority);
    case GrantTrust(ski) => TrustKeepsTokens(h, ski);
    case ConnectionClosed(id, superseded) => CloseKeepsTokens(h, id, superseded);
    case HandshakeUpdate(ski, id, epoch, state) => UpdateKeepsTokens(h, ski, id, epoch, state);
  }

  lemma StepKeepsTokensUnique(h: Hub, e: Event)
    requires TokensUnique(h.reg)
    ensures TokensUnique(Step(h, e).reg)
  {
    if e.Select? {
      AdmitKeepsTokensUnique(h, e.ref, e.ski, e.connect);
    } else if e.RunTask? {
      if h.feed.q.current.Some? {
        ApplyKeepsTokens(h, h.feed.q.current.value, e.actives, e.retries);
        FewerTokens(h.reg, Step(h, e).reg);
      }
    } else if e.ReplaceGate? {
      SetGateKeepsTokens(h, e.installed, e.actives, e.retries);
      FewerTokens(h.reg, Step(h, e).reg);
    } else {
      OtherStepKeepsTokens(h, e);
      FewerTokens(h.reg, Step(h, e).reg);
    }
  }

  /** In every reachable state a reservation token belongs to at most one SKI, so the
      search in `ConnectPairingCandidate` has one answer in any map order. */
  lemma {:induction false} TokensAlwaysUnique(events: seq<Event>)
    ensures TokensUnique(Run(INITIAL, events).reg)
  {
    if events != [] {
      TokensAlwaysUnique(events[..|events| - 1]);
      StepKeepsTokensUnique(Run(INITIAL, events[..|events| - 1]), events[|events| - 1]);
    }
  }
}
