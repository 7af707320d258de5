/**
 The hub's pairing registry: rotating outbound authorities and launch
 registrations (guarded by muxAttemptGate), candidate selection, trusted retries
 and one-shot PIN providers (guarded by muxReg), and the mDNS snapshot feed
 (guarded by mdnsSnapshotMux). Every critical section is one atomic step.

 An authority is identified by its epoch, which is unique because every rotation
 takes the next one. SKIs are normalised. Reservation tokens are fresh.
 */
module PairingRegistry {
  import opened Basics
  import opened Addresses
  import Q = SerialQueue

  /** A candidate reference; 0 stands for the empty reference. */
  type Ref = nat

  datatype ConnectionState = Idle | Queued | Handshake(code: nat)

  /** One candidate as reported; scoped and legacy addresses in one list. */
  datatype Candidate = Candidate(ref: Ref, ski: Ski, path: string, port: int, addresses: seq<Addr>)

  /** One discovered remote: its retry host is None when no usable host exists. */
  datatype Remote = Remote(ski: Ski, validSki: bool, port: int, host: Option<string>, path: string)

  datatype Snapshot = Snapshot(remotes: seq<Remote>, candidates: seq<Candidate>, revision: nat, admission: nat)

  datatype Observation = Observation(ski: Ski, revision: nat, path: string, port: int, addresses: seq<Addr>)

  datatype Active = Active(token: nat, authority: nat, ref: Ref, revision: nat,
                           host: Addr, port: int, path: string, issued: bool)

  datatype TrustedObservation = TrustedObservation(revision: nat, admission: nat, host: string, port: int, path: string)

  /** `scheduled` is the admission that was applied last when the retry started. */
  datatype Retry = Retry(id: nat, authority: nat, observation: TrustedObservation, scheduled: nat)

  datatype Pin = Pin(authority: nat, provider: nat)

  /** A launch registration; gated attempts carry the gate epoch they began under. */
  datatype Attempt = Attempt(ski: Ski, authority: nat, gated: Option<nat>)

  datatype Outbound = Outbound(
    epoch: nat, gateEpoch: nat, gate: bool, shutdown: bool,
    authorities: map<Ski, nat>, attempts: map<nat, Attempt>, nextAttempt: nat)

  datatype Registry = Registry(
    trusted: set<Ski>, detail: map<Ski, ConnectionState>,
    visible: map<Ref, Observation>, consumed: set<Ref>, active: map<Ski, Active>,
    visibleTrusted: map<Ski, TrustedObservation>, retries: map<Ski, Retry>, pins: map<Ski, Pin>,
    latestRevision: nat, appliedAdmission: nat, nextToken: nat, nextRetry: nat)

  datatype Feed = Feed(q: Q.Queue<Snapshot>, revision: nat, admission: nat)

  datatype Hub = Hub(out: Outbound, reg: Registry, feed: Feed)

  const INITIAL := Hub(
    Outbound(0, 0, false, false, map[], map[], 0),
    Registry({}, map[], map[], {}, map[], map[], map[], map[], 0, 0, 0, 0),
    Feed(Q.Empty(), 0, 0))

  // ---------------------------------------------------------- authorities

  /** `rotateOutboundAuthorityLocked`. */
  function Rotate(o: Outbound, ski: Ski): Outbound {
    o.(epoch := o.epoch + 1, authorities := o.authorities[ski := o.epoch + 1])
  }

  /** `currentOutboundAuthorityLocked`. */
  function Current(o: Outbound, ski: Ski): Outbound {
    if ski in o.authorities then o else Rotate(o, ski)
  }

  /** `removeOutboundAttemptRegistrationsLocked`. */
  function DropAttempts(o: Outbound, ski: Ski): Outbound {
    o.(attempts := map id | id in o.attempts && o.attempts[id].ski != ski :: o.attempts[id])
  }

  function AddAttempt(o: Outbound, attempt: Attempt): Outbound {
    o.(attempts := o.attempts[o.nextAttempt := attempt], nextAttempt := o.nextAttempt + 1)
  }

  predicate MayLaunch(o: Outbound, ski: Ski, generation: nat, authority: nat) {
    !o.shutdown && o.gate && o.gateEpoch == generation && ski in o.authorities && o.authorities[ski] == authority
  }

  predicate MayLaunchInternally(o: Outbound, ski: Ski, authority: nat) {
    !o.shutdown && !o.gate && ski in o.authorities && o.authorities[ski] == authority
  }

  /** `registerOutboundAttemptForLaunch`. */
  function Launch(o: Outbound, ski: Ski, generation: nat, authority: nat): Outbound {
    if MayLaunch(o, ski, generation, authority) then AddAttempt(o, Attempt(ski, authority, Some(generation))) else o
  }

  /** `registerInternalOutboundAttemptForLaunch`. */
  function LaunchInternally(o: Outbound, ski: Ski, authority: nat): Outbound {
    if MayLaunchInternally(o, ski, authority) then AddAttempt(o, Attempt(ski, authority, None)) else o
  }

  // ------------------------------------------------- candidates and retries

  /** `pairingCandidateObservationMatchesActive`. */
  predicate Matches(entry: Observation, ski: Ski, active: Active) {
    entry.ski == ski && entry.path == active.path && entry.port == active.port && active.host in Ordered(entry.addresses)
  }

  function TakePinFor(r: Registry, ski: Ski, authority: nat): Registry {
    if ski in r.pins && r.pins[ski].authority == authority then r.(pins := r.pins - {ski}) else r
  }

  predicate MayRetire(r: Registry, ski: Ski, token: Option<nat>, authority: Option<nat>) {
    && ski in r.active
    && (token.Some? ==> r.active[ski].token == token.value)
    && (authority.Some? ==> r.active[ski].authority == authority.value)
    && ski !in r.trusted
  }

  /** `retireActivePairingCandidateLocked`. */
  function Retire(h: Hub, ski: Ski, token: Option<nat>, authority: Option<nat>): Hub {
    if !MayRetire(h.reg, ski, token, authority) then h
    else
      var r := h.reg.(detail := h.reg.detail[ski := Idle], active := h.reg.active - {ski});
      h.(out := Rotate(h.out, ski), reg := TakePinFor(r, ski, h.reg.active[ski].authority))
  }

  /** `retirePairingCandidate`: an effective retirement also drops the attempts. */
  function RetireAndCancel(h: Hub, ski: Ski, token: Option<nat>, authority: Option<nat>): Hub {
    var h' := Retire(h, ski, token, authority);
    if MayRetire(h.reg, ski, token, authority) then h'.(out := DropAttempts(h'.out, ski)) else h'
  }

  /** `revokeOutboundAttempts`. */
  function Revoke(h: Hub, ski: Ski): Hub {
    Hub(DropAttempts(Rotate(h.out, ski), ski),
        h.reg.(trusted := h.reg.trusted - {ski}, detail := h.reg.detail[ski := Idle], active := h.reg.active - {ski},
               pins := h.reg.pins - {ski}, retries := h.reg.retries - {ski}),
        h.feed)
  }

  /** One round of the loop in `invalidateTrustedRemoteRetriesLocked`. */
  function InvalidateOne(h: Hub, ski: Ski, current: map<Ski, TrustedObservation>): Hub {
    if ski !in h.reg.retries then h
    else if ski in current && current[ski].revision == h.reg.retries[ski].observation.revision
            && current[ski].admission == h.reg.retries[ski].observation.admission then h
    else h.(out := DropAttempts(Rotate(h.out, ski), ski), reg := h.reg.(retries := h.reg.retries - {ski}))
  }

  /** The whole loop, in the order the map happened to be iterated. */
  function Invalidate(h: Hub, order: seq<Ski>, current: map<Ski, TrustedObservation>): Hub {
    if order == [] then h else InvalidateOne(Invalidate(h, order[..|order| - 1], current), order[|order| - 1], current)
  }

  predicate Stale(r: Registry, ski: Ski) {
    && ski in r.active && !r.active[ski].issued
    && !(r.active[ski].ref in r.visible && Matches(r.visible[r.active[ski].ref], ski, r.active[ski]))
  }

  function RetireStale(h: Hub, order: seq<Ski>): Hub {
    if order == [] then h
    else
      var h' := RetireStale(h, order[..|order| - 1]);
      var ski := order[|order| - 1];
      if Stale(h'.reg, ski) then Retire(h', ski, None, None) else h'
  }

  function RetireEvery(h: Hub, order: seq<Ski>): Hub {
    if order == [] then h else Retire(RetireEvery(h, order[..|order| - 1]), order[|order| - 1], None, None)
  }

  function RotateRetries(h: Hub, order: seq<Ski>): Hub {
    if order == [] then h
    else
      var h' := RotateRetries(h, order[..|order| - 1]);
      var ski := order[|order| - 1];
      if ski in h'.reg.retries then h'.(out := Rotate(h'.out, ski), reg := h'.reg.(retries := h'.reg.retries - {ski}))
      else h'
  }

  /** `SetOutgoingAttemptGate`. */
  function SetGate(h: Hub, installed: bool, actives: seq<Ski>, retries: seq<Ski>): Hub {
    var h0 := h.(out := h.out.(gate := installed, gateEpoch := h.out.gateEpoch + 1));
    var h1 := RotateRetries(RetireEvery(h0, actives), retries);
    h1.(out := h1.out.(attempts := map[]))
  }

  predicate Synchronised(h: Hub) {
    h.reg.appliedAdmission == h.feed.admission
  }

  datatype Verdict = Accepted | Unavailable | Consumed | SkiMismatch | AlreadyTrusted | Busy | GateRequired

  /** The checks of `admitPairingCandidate`, in order. */
  function AdmitVerdict(h: Hub, ref: Ref, ski: Ski, connect: bool): Verdict {
    if !Synchronised(h) then Unavailable
    else if ref in h.reg.consumed then Consumed
    else if ref !in h.reg.visible then Unavailable
    else
      var entry := h.reg.visible[ref];
      if entry.ski != ski then SkiMismatch
      else if Ordered(entry.addresses) == [] || entry.port <= 0 || entry.port > 65535 || entry.path == "" then Unavailable
      else if ski in h.reg.trusted then AlreadyTrusted
      else if ski in h.reg.active then Busy
      else if connect && !h.out.gate then GateRequired
      else Accepted
  }

  /** `admitPairingCandidate` for a well-formed SKI. */
  function Admit(h: Hub, ref: Ref, ski: Ski, connect: bool): Hub {
    if !AdmitVerdict(h, ref, ski, connect).Accepted? then h
    else
      var entry := h.reg.visible[ref];
      var out := Rotate(h.out, ski);
      var active := Active(h.reg.nextToken, out.epoch, ref, entry.revision,
                           Ordered(entry.addresses)[0], entry.port, entry.path, connect);
      h.(out := out,
         reg := h.reg.(consumed := h.reg.consumed + {ref}, active := h.reg.active[ski := active],
                       detail := h.reg.detail[ski := Queued], nextToken := h.reg.nextToken + 1))
  }

  predicate MayConnect(h: Hub, ski: Ski, token: nat) {
    && Synchronised(h)
    && ski in h.reg.active && h.reg.active[ski].token == token
    && ski !in h.reg.trusted && !h.reg.active[ski].issued && h.out.gate
  }

  /** `connectPairingCandidate` once the scan has found the reservation's SKI. */
  function Connect(h: Hub, ski: Ski, token: nat, provider: Option<nat>): Hub {
    if !MayConnect(h, ski, token) then h
    else
      var active := h.reg.active[ski];
      h.(reg := h.reg.(
        active := h.reg.active[ski := active.(issued := true)],
        pins := if provider.Some? then h.reg.pins[ski := Pin(active.authority, provider.value)] else h.reg.pins,
        detail := h.reg.detail[ski := Queued]))
  }

  /** `RegisterRemoteSKI` and the hello-ok handshake update. */
  function Trust(h: Hub, ski: Ski): Hub {
    h.(reg := h.reg.(trusted := h.reg.trusted + {ski}, active := h.reg.active - {ski}))
  }

  /** `RetryTrustedRemote`; `free` says that no connection, dial, reservation or
      running attempt for the SKI stands in the way. */
  predicate MayRetry(h: Hub, ski: Ski, free: bool) {
    && Synchronised(h) && ski in h.reg.visibleTrusted && ski in h.reg.trusted && ski !in h.reg.retries
    && free && !h.out.shutdown
  }

  function StartRetry(h: Hub, ski: Ski, free: bool): Hub {
    if !MayRetry(h, ski, free) then h
    else
      var out := Current(h.out, ski);
      var retry := Retry(h.reg.nextRetry, out.authorities[ski], h.reg.visibleTrusted[ski], h.reg.appliedAdmission);
      h.(out := out, reg := h.reg.(retries := h.reg.retries[ski := retry], nextRetry := h.reg.nextRetry + 1))
  }

  function FinishRetry(h: Hub, ski: Ski, id: nat): Hub {
    if ski in h.reg.retries && h.reg.retries[ski].id == id
    then h.(reg := h.reg.(retries := h.reg.retries - {ski})) else h
  }

  /** `claimClosedOutboundAttempt`: the attempts bound to the closed connection
      leave; unless it was superseded, the PIN and the candidate go with them. */
  function CloseAttempt(h: Hub, id: nat, superseded: bool): Hub {
    if id !in h.out.attempts then h
    else
      var attempt := h.out.attempts[id];
      var h' := h.(out := h.out.(attempts := h.out.attempts - {id}));
      if superseded then h'
      else Retire(h'.(reg := TakePinFor(h'.reg, attempt.ski, attempt.authority)), attempt.ski, None, Some(attempt.authority))
  }

  /** `handleInternalShipHandshakeStateUpdate` with the attempt's control epoch. */
  function InternalUpdate(h: Hub, ski: Ski, id: nat, epoch: nat, state: ConnectionState): Hub {
    if ski in h.reg.trusted && ski in h.out.authorities && h.out.authorities[ski] == epoch
       && id in h.out.attempts && h.out.attempts[id] == Attempt(ski, epoch, None)
    then h.(reg := h.reg.(detail := h.reg.detail[ski := state])) else h
  }

  // ------------------------------------------------------- the snapshot feed

  /** The critical section of `enqueueMdnsSnapshot`. Revision 0 is renumbered. */
  function Enqueue(f: Feed, remotes: seq<Remote>, candidates: seq<Candidate>, revision: nat): Feed {
    var rev := if revision == 0 then f.revision + 1 else revision;
    var snapshot := Snapshot(remotes, candidates, rev, f.admission + 1);
    f.(q := Q.Enqueue(f.q, [snapshot]), admission := f.admission + 1,
       revision := if rev > f.revision then rev else f.revision)
  }

  /** One round of `drainMdnsSnapshots` up to the task call. */
  function Pop(f: Feed): Feed {
    f.(q := Q.Take(f.q))
  }

  function VisibleOf(candidates: seq<Candidate>, revision: nat): map<Ref, Observation> {
    if candidates == [] then map[]
    else
      var c := candidates[|candidates| - 1];
      var front := VisibleOf(candidates[..|candidates| - 1], revision);
      if c.ref == 0 || c.ski == "" then front
      else front[c.ref := Observation(c.ski, revision, c.path, c.port, c.addresses)]
  }

  /** The two accumulators of `trustedRemoteObservations`. */
  datatype Survey = Survey(found: map<Ski, TrustedObservation>, ambiguous: set<Ski>)

  function SurveyOf(remotes: seq<Remote>, revision: nat, admission: nat): Survey {
    if remotes == [] then Survey(map[], {})
    else
      var e := remotes[|remotes| - 1];
      var s := SurveyOf(remotes[..|remotes| - 1], revision, admission);
      if e.port <= 0 || e.port > 65535 || !e.validSki then s
      else if e.ski in s.found then Survey(s.found - {e.ski}, s.ambiguous + {e.ski})
      else if e.ski in s.ambiguous || e.host.None? then s
      else Survey(s.found[e.ski := TrustedObservation(revision, admission, e.host.value, e.port, e.path)], s.ambiguous)
  }

  function Refs(candidates: seq<Candidate>): set<Ref> {
    set c | c in candidates :: c.ref
  }

  /** The state change of `reportMdnsSnapshot` before its loops. */
  function Install(r: Registry, s: Snapshot): Registry {
    r.(latestRevision := s.revision, appliedAdmission := s.admission,
       visibleTrusted := SurveyOf(s.remotes, s.revision, s.admission).found,
       consumed := r.consumed * Refs(s.candidates), visible := VisibleOf(s.candidates, s.revision))
  }

  /** The critical section of `reportMdnsSnapshot`. */
  function Apply(h: Hub, s: Snapshot, actives: seq<Ski>, retries: seq<Ski>): Hub {
    if s.revision < h.reg.latestRevision then
      Invalidate(h.(reg := h.reg.(appliedAdmission := s.admission)), retries, map[])
    else
      var h' := RetireStale(h.(reg := Install(h.reg, s)), actives);
      Invalidate(h', retries, h'.reg.visibleTrusted)
  }

  // ---------------------------------------------------------------- events

  datatype Event =
    | Report(remotes: seq<Remote>, candidates: seq<Candidate>, revision: nat)
    | PopTask
    | RunTask(actives: seq<Ski>, retries: seq<Ski>)
    | Select(ref: Ref, ski: Ski, connect: bool)
    | Dial(ski: Ski, token: nat, provider: Option<nat>)
    | ConsumePin(ski: Ski)
    | ConsumePinFor(ski: Ski, authority: nat)
    | DiscardPin(ski: Ski)
    | DiscardPinFor(ski: Ski, authority: nat)
    | RetireCandidate(ski: Ski, retiree: Option<nat>, holder: Option<nat>)
    | RevokeAll(ski: Ski)
    | ReplaceGate(installed: bool, actives: seq<Ski>, retries: seq<Ski>)
    | GrantTrust(ski: Ski)
    | BeginRetry(ski: Ski, free: bool)
    | EndRetry(ski: Ski, id: nat)
    | CaptureAuthority(ski: Ski)
    | LaunchGated(ski: Ski, generation: nat, authority: nat)
    | LaunchInternal(ski: Ski, authority: nat)
    | ReleaseAttempt(id: nat)
    | ConnectionClosed(id: nat, superseded: bool)
    | HandshakeUpdate(ski: Ski, id: nat, epoch: nat, state: ConnectionState)
    | ShutdownGate
    | ShutdownPins

  predicate Lists(order: seq<Ski>, keys: set<Ski>) {
    (set ski | ski in order) == keys
  }

  function Step(h: Hub, e: Event): Hub {
    match e
    case Report(remotes, candidates, revision) => h.(feed := Enqueue(h.feed, remotes, candidates, revision))
    case PopTask => h.(feed := Pop(h.feed))
    case RunTask(actives, retries) =>
      if h.feed.q.current.None? || !Lists(actives, h.reg.active.Keys) || !Lists(retries, h.reg.retries.Keys) then h
      else
        var h' := Apply(h, h.feed.q.current.value, actives, retries);
        h'.(feed := h.feed.(q := Q.Finish(h.feed.q)))
    case Select(ref, ski, connect) => Admit(h, ref, ski, connect)
    case Dial(ski, token, provider) => Connect(h, ski, token, provider)
    case ConsumePin(ski) => h.(reg := h.reg.(pins := h.reg.pins - {ski}))
    case DiscardPin(ski) => h.(reg := h.reg.(pins := h.reg.pins - {ski}))
    case ConsumePinFor(ski, authority) => h.(reg := TakePinFor(h.reg, ski, authority))
    case DiscardPinFor(ski, authority) => h.(reg := TakePinFor(h.reg, ski, authority))
    case RetireCandidate(ski, token, authority) => RetireAndCancel(h, ski, token, authority)
    case RevokeAll(ski) => Revoke(h, ski)
    case ReplaceGate(installed, actives, retries) =>
      if !Lists(actives, h.reg.active.Keys) || !Lists(retries, h.reg.retries.Keys) then h
      else SetGate(h, installed, actives, retries)
    case GrantTrust(ski) => Trust(h, ski)
    case BeginRetry(ski, free) => StartRetry(h, ski, free)
    case EndRetry(ski, id) => FinishRetry(h, ski, id)
    case CaptureAuthority(ski) => if h.out.shutdown then h else h.(out := Current(h.out, ski))
    case LaunchGated(ski, generation, authority) => h.(out := Launch(h.out, ski, generation, authority))
    case LaunchInternal(ski, authority) => h.(out := LaunchInternally(h.out, ski, authority))
    case ReleaseAttempt(id) => h.(out := h.out.(attempts := h.out.attempts - {id}))
    case ConnectionClosed(id, superseded) => CloseAttempt(h, id, superseded)
    case HandshakeUpdate(ski, id, epoch, state) => InternalUpdate(h, ski, id, epoch, state)
    case ShutdownGate => h.(out := h.out.(shutdown := true, gateEpoch := h.out.gateEpoch + 1, attempts := map[]))
    case ShutdownPins => h.(reg := h.reg.(pins := map[]))
  }

  function Run(h: Hub, events: seq<Event>): Hub {
    if events == [] then h else Step(Run(h, events[..|events| - 1]), events[|events| - 1])
  }

  // ------------------------------------------------------------- invariants

  ghost predicate AuthoritiesIssued(o: Outbound) {
    forall ski | ski in o.authorities :: 1 <= o.authorities[ski] <= o.epoch
  }

  /** An active candidate is untrusted, holds the current authority and excludes a retry. */
  ghost predicate CandidatesSound(o: Outbound, r: Registry) {
    forall ski | ski in r.active ::
      ski !in r.trusted && ski in o.authorities && o.authorities[ski] == r.active[ski].authority && ski !in r.retries
  }

  ghost predicate Backed(r: Registry, ski: Ski)
    requires ski in r.pins
  {
    || ski in r.trusted
    || (ski in r.active && r.active[ski].issued && r.active[ski].authority == r.pins[ski].authority)
  }

  /** A stored PIN provider belongs to an issued candidate or to a trusted remote. */
  ghost predicate PinsSound(r: Registry) {
    forall ski | ski in r.pins :: Backed(r, ski)
  }

  /** An active retry is trusted and holds the current authority. */
  ghost predicate RetriesOwned(o: Outbound, r: Registry) {
    forall ski | ski in r.retries ::
      && ski in r.trusted && ski in o.authorities && o.authorities[ski] == r.retries[ski].authority
      && r.retries[ski].observation.admission <= r.retries[ski].scheduled
  }

  ghost predicate RetryCurrent(r: Registry, ski: Ski)
    requires ski in r.retries
  {
    && ski in r.visibleTrusted && r.visibleTrusted[ski] == r.retries[ski].observation
    && r.retries[ski].scheduled == r.appliedAdmission
  }

  /** An active retry is bound to exactly the visible observation, and nothing has
      been applied since it was scheduled. */
  ghost predicate RetriesCurrent(r: Registry) {
    forall ski | ski in r.retries :: RetryCurrent(r, ski)
  }

  /** A selected candidate that has not been dialled is still offered. */
  ghost predicate CandidatesVisible(r: Registry) {
    forall ski | ski in r.active :: !Stale(r, ski)
  }

  ghost predicate FeedSound(r: Registry, f: Feed) {
    && r.appliedAdmission <= f.admission
    && (forall ski | ski in r.visibleTrusted :: r.visibleTrusted[ski].admission <= r.appliedAdmission)
    && (f.q.current.Some? ==> f.q.current.value.admission == r.appliedAdmission + 1)
    && (forall i | 0 <= i < |f.q.items| ::
          f.q.items[i].admission == r.appliedAdmission + 1 + i + (if f.q.current.Some? then 1 else 0))
    && f.admission == r.appliedAdmission + |f.q.items| + (if f.q.current.Some? then 1 else 0)
    && Q.OneDrainer(f.q)
  }

  /** Everything but the two clauses a snapshot application restores in its loops. */
  ghost predicate Core(h: Hub) {
    && AuthoritiesIssued(h.out) && CandidatesSound(h.out, h.reg) && PinsSound(h.reg) && RetriesOwned(h.out, h.reg)
  }

  ghost predicate Inv(h: Hub) {
    Core(h) && RetriesCurrent(h.reg) && CandidatesVisible(h.reg) && FeedSound(h.reg, h.feed)
  }
}
