/**
 The connection table of one hub (guarded by muxCon): which SHIP connection
 serves a remote SKI, which SKIs are being dialled, which connections have been
 superseded but have not reported their close yet, and which SKIs are reserved
 for an inbound pairing.
 */
module ConnectionTable {
  import opened Basics

  /** The order `<=` that the source uses on SKI strings. */
  predicate AtMost(a: Ski, b: Ski) {
    a == "" || (b != "" && (a[0] < b[0] || (a[0] == b[0] && AtMost(a[1..], b[1..]))))
  }

  /** Two different SKIs are ordered one way and not the other. */
  lemma {:induction false} OrderTotal(a: Ski, b: Ski)
    ensures AtMost(a, b) || AtMost(b, a)
    ensures AtMost(a, b) && AtMost(b, a) ==> a == b
  {
    if a != "" && b != "" && a[0] == b[0] {
      OrderTotal(a[1..], b[1..]);
      assert a == [a[0]] + a[1..] && b == [b[0]] + b[1..];
    }
  }

  /** A SHIP connection object; it knows the SKI of its remote. */
  datatype Conn = Conn(id: nat, ski: Ski)

  /** The pairing candidate a reservation was made for. */
  datatype Claimant = Claimant(token: nat, authority: nat)

  datatype Reservation = Reservation(id: nat, replaced: Option<Conn>, claimant: Option<Claimant>, winner: Option<Conn>)

  datatype Table = Table(
    local: Ski, shutdown: bool, connections: map<Ski, Conn>, initiating: set<Ski>,
    reservations: map<Ski, Reservation>, superseded: set<Conn>)

  const MAX_SUPERSEDED := 128

  function Entry(t: Table, ski: Ski): Option<Conn> {
    if ski in t.connections then Some(t.connections[ski]) else None
  }

  function Superseded(t: Table, ski: Ski): set<Conn> {
    set c | c in t.superseded && c.ski == ski
  }

  /** Put a connection in the table; the one it replaces leaves a tombstone. */
  function Install(t: Table, c: Conn): Table {
    t.(connections := t.connections[c.ski := c],
       superseded := if c.ski in t.connections then t.superseded + {t.connections[c.ski]} else t.superseded)
  }

  datatype Verdict = Accepted(loser: Option<Conn>) | Rejected | Handoff

  // ------------------------------------------------------- dialling flags

  predicate MayDial(t: Table, ski: Ski) {
    !t.shutdown && ski !in t.connections && ski !in t.initiating && ski !in t.reservations
  }

  /** The first critical section of `connectFoundServiceWithLoggingOptions`. */
  function StartDial(t: Table, ski: Ski): Table {
    if MayDial(t, ski) then t.(initiating := t.initiating + {ski}) else t
  }

  // --------------------------------------------------------- registration

  function InboundVerdict(t: Table, c: Conn): Verdict {
    if t.shutdown then Rejected
    else if (c.ski in t.connections || c.ski in t.initiating) && AtMost(c.ski, t.local) then Rejected
    else if c.ski in t.connections && |Superseded(t, c.ski)| >= MAX_SUPERSEDED then Rejected
    else Accepted(Entry(t, c.ski))
  }

  /** `registerInboundConnection`. */
  function RegisterInbound(t: Table, c: Conn): Table {
    if InboundVerdict(t, c).Accepted? then Install(t, c) else t
  }

  function OutgoingVerdict(t: Table, c: Conn, cancelled: bool, authority: Option<nat>): Verdict {
    if t.shutdown || cancelled then Rejected
    else if c.ski in t.reservations then
      var claimant := t.reservations[c.ski].claimant;
      if authority.Some? && claimant.Some? && claimant.value.authority == authority.value then Handoff else Rejected
    else if c.ski in t.connections && AtMost(t.local, c.ski) then Handoff
    else if c.ski in t.connections && |Superseded(t, c.ski)| >= MAX_SUPERSEDED then Rejected
    else Accepted(Entry(t, c.ski))
  }

  /** `registerOutgoingConnection`; a handed-off connection gets a tombstone too. */
  function RegisterOutgoing(t: Table, c: Conn, cancelled: bool, authority: Option<nat>): Table {
    match OutgoingVerdict(t, c, cancelled, authority)
    case Accepted(_) => Install(t, c)
    case Rejected => t
    case Handoff => t.(superseded := t.superseded + {c})
  }

  // --------------------------------------------------------- reservations

  predicate MayReserve(t: Table, ski: Ski) {
    && !t.shutdown && ski !in t.reservations
    && !((ski in t.initiating || ski in t.connections) && AtMost(ski, t.local))
  }

  /** `reserveInboundPairingConnection`. */
  function Reserve(t: Table, ski: Ski, id: nat, active: Option<Claimant>): Table {
    if MayReserve(t, ski)
    then t.(reservations := t.reservations[ski := Reservation(id, Entry(t, ski), active, None)])
    else t
  }

  /** `synchronised` says that every admitted mDNS snapshot has been applied. */
  function ReservedVerdict(t: Table, c: Conn, id: nat, synchronised: bool, active: Option<Claimant>): Verdict {
    if t.shutdown || c.ski !in t.reservations || t.reservations[c.ski].id != id then Rejected
    else
      var r := t.reservations[c.ski];
      if r.claimant.Some? && (!synchronised || active != r.claimant) then Rejected
      else if r.winner.Some? || Entry(t, c.ski) != r.replaced then Rejected
      else if r.replaced.Some? && |Superseded(t, c.ski)| >= MAX_SUPERSEDED then Rejected
      else Accepted(Entry(t, c.ski))
  }

  /** `registerReservedInboundPairingConnection`. */
  function RegisterReserved(t: Table, c: Conn, id: nat, synchronised: bool, active: Option<Claimant>): Table {
    if !ReservedVerdict(t, c, id, synchronised, active).Accepted? then t
    else
      var r := t.reservations[c.ski].(winner := Some(c));
      Install(t, c).(reservations := t.reservations[c.ski := r])
  }

  /** `abandonInboundPairingReservation`. */
  function Abandon(t: Table, ski: Ski, id: nat): Table {
    if ski in t.reservations && t.reservations[ski].id == id && t.reservations[ski].winner.None?
    then t.(reservations := t.reservations - {ski}) else t
  }

  // --------------------------------------------------------------- closing

  datatype Claim = Absorbed | Unknown | Removed(reservation: Option<Reservation>)

  function ClaimVerdict(t: Table, c: Conn): Claim {
    if c in t.superseded then Absorbed
    else if Entry(t, c.ski) != Some(c) then Unknown
    else if c.ski in t.reservations && t.reservations[c.ski].winner == Some(c) then Removed(Some(t.reservations[c.ski]))
    else Removed(None)
  }

  /** `claimClosedConnectionState`. */
  function ClaimClosed(t: Table, c: Conn): Table {
    match ClaimVerdict(t, c)
    case Absorbed => t.(superseded := t.superseded - {c})
    case Unknown => t
    case Removed(reservation) =>
      t.(connections := t.connections - {c.ski},
         reservations := if reservation.Some? then t.reservations - {c.ski} else t.reservations)
  }

  /** `removeExactConnection`. */
  function RemoveExact(t: Table, c: Conn): Table {
    if Entry(t, c.ski) == Some(c) then t.(connections := t.connections - {c.ski}) else t
  }

  /** The muxCon section of `beginShutdown`. */
  function Shutdown(t: Table): Table {
    t.(shutdown := true, connections := if t.shutdown then t.connections else map[])
  }

  // ---------------------------------------------------------- whole runs

  datatype Event =
    | Dial(ski: Ski)
    | DialDone(ski: Ski)
    | Inbound(c: Conn)
    | Outgoing(c: Conn, cancelled: bool, required: Option<nat>)
    | MakeReservation(ski: Ski, id: nat, active: Option<Claimant>)
    | ReservedInbound(c: Conn, id: nat, synchronised: bool, active: Option<Claimant>)
    | AbandonReservation(ski: Ski, id: nat)
    | Closed(c: Conn)
    | Drop(c: Conn)
    | Stop

  function Step(t: Table, e: Event): Table {
    match e
    case Dial(ski) => StartDial(t, ski)
    case DialDone(ski) => t.(initiating := t.initiating - {ski})
    case Inbound(c) => RegisterInbound(t, c)
    case Outgoing(c, cancelled, required) => RegisterOutgoing(t, c, cancelled, required)
    case MakeReservation(ski, id, active) => Reserve(t, ski, id, active)
    case ReservedInbound(c, id, synchronised, active) => RegisterReserved(t, c, id, synchronised, active)
    case AbandonReservation(ski, id) => Abandon(t, ski, id)
    case Closed(c) => ClaimClosed(t, c)
    case Drop(c) => RemoveExact(t, c)
    case Stop => Shutdown(t)
  }

  function Run(t: Table, events: seq<Event>): Table {
    if events == [] then t else Step(Run(t, events[..|events| - 1]), events[|events| - 1])
  }

  /** The connection an event offers to the table. */
  function Offered(e: Event): Option<Conn> {
    match e
    case Inbound(c) => Some(c)
    case Outgoing(c, _, _) => Some(c)
    case ReservedInbound(c, _, _, _) => Some(c)
    case _ => None
  }

  function VerdictOf(t: Table, e: Event): Verdict {
    match e
    case Inbound(c) => InboundVerdict(t, c)
    case Outgoing(c, cancelled, required) => OutgoingVerdict(t, c, cancelled, required)
    case ReservedInbound(c, id, synchronised, active) => ReservedVerdict(t, c, id, synchronised, active)
    case _ => Rejected
  }

  ghost predicate Filed(t: Table) {
    forall ski | ski in t.connections :: t.connections[ski].ski == ski
  }

  /** Entries are filed under their own SKI and carry no tombstone. */
  ghost predicate Sound(t: Table) {
    Filed(t) && forall ski | ski in t.connections :: t.connections[ski] !in t.superseded
  }

  /** A connection that was neither registered nor given a tombstone before. */
  ghost predicate Unused(t: Table, c: Conn) {
    Entry(t, c.ski) != Some(c) && c !in t.superseded
  }

  lemma StepKeepsSound(t: Table, e: Event)
    requires Sound(t)
    requires Offered(e).Some? ==> Unused(t, Offered(e).value)
    ensures Sound(Step(t, e))
  {
    if Offered(e).Some? && VerdictOf(t, e).Accepted? {
      InstallSound(t, Offered(e).value);
    }
  }

  lemma InstallSound(t: Table, c: Conn)
    requires Sound(t) && Unused(t, c)
    ensures Sound(Install(t, c)) && Entry(Install(t, c), c.ski) == Some(c)
  {
    var t' := Install(t, c);
    forall ski | ski in t'.connections
      ensures t'.connections[ski].ski == ski && t'.connections[ski] !in t'.superseded
    {
      assert ski == c.ski || (ski in t.connections && t'.connections[ski] == t.connections[ski]);
    }
  }

  // ----------------------------------------------------- losers and winners

  /** A run in which a connection is neither offered again nor reports its close. */
  ghost predicate SilentOn(c: Conn, events: seq<Event>) {
    forall i | 0 <= i < |events| :: Offered(events[i]) != Some(c) && events[i] != Closed(c)
  }

  ghost predicate Tombstoned(t: Table, c: Conn) {
    c in t.superseded && Entry(t, c.ski) != Some(c)
  }

  lemma StepKeepsTombstone(t: Table, e: Event, c: Conn)
    requires Tombstoned(t, c) && Offered(e) != Some(c) && e != Closed(c)
    ensures Tombstoned(Step(t, e), c)
  {
  }

  lemma {:induction false} RunKeepsTombstone(t: Table, events: seq<Event>, c: Conn)
    requires Tombstoned(t, c) && SilentOn(c, events)
    ensures Tombstoned(Run(t, events), c)
  {
    if events != [] {
      var front := events[..|events| - 1];
      assert SilentOn(c, front);
      RunKeepsTombstone(t, front, c);
      assert Offered(events[|events| - 1]) != Some(c);
      StepKeepsTombstone(Run(t, front), events[|events| - 1], c);
    }
  }

  /** Whatever happens between a replacement and the loser's one close report, the
      report is absorbed: it only clears the tombstone, so the winner's entry, the
      reservations and the dialling flags stay as they are. */
  lemma {:induction false} LoserReportAbsorbed(t: Table, e: Event, events: seq<Event>)
    requires Sound(t) && Offered(e).Some? && Unused(t, Offered(e).value)
    requires VerdictOf(t, e).Accepted? && VerdictOf(t, e).loser.Some?
    requires SilentOn(VerdictOf(t, e).loser.value, events)
    ensures var loser, t' := VerdictOf(t, e).loser.value, Run(Step(t, e), events);
            && ClaimVerdict(t', loser) == Absorbed
            && Step(t', Closed(loser)) == t'.(superseded := t'.superseded - {loser})
  {
    var loser := VerdictOf(t, e).loser.value;
    RunKeepsTombstone(Step(t, e), events, loser);
  }

  /** The same for an outgoing connection that was handed off to an inbound one. */
  lemma {:induction false} HandoffReportAbsorbed(t: Table, e: Event, events: seq<Event>)
    requires Offered(e).Some? && Unused(t, Offered(e).value)
    requires VerdictOf(t, e) == Handoff && SilentOn(Offered(e).value, events)
    ensures var t' := Run(Step(t, e), events);
            && ClaimVerdict(t', Offered(e).value) == Absorbed
            && Step(t', Closed(Offered(e).value)) == t'.(superseded := t'.superseded - {Offered(e).value})
  {
    RunKeepsTombstone(Step(t, e), events, Offered(e).value);
  }

  /** Replacement never fills the tombstone set beyond its cap; only hand-offs can. */
  lemma ReplacementRespectsCap(t: Table, e: Event)
    requires Sound(t) && Offered(e).Some? && Unused(t, Offered(e).value)
    requires VerdictOf(t, e).Accepted?
    ensures var ski := Offered(e).value.ski;
            |Superseded(Step(t, e), ski)| > |Superseded(t, ski)| ==> |Superseded(Step(t, e), ski)| <= MAX_SUPERSEDED
  {
    var c := Offered(e).value;
    if c.ski in t.connections {
      assert Superseded(Step(t, e), c.ski) == Superseded(t, c.ski) + {t.connections[c.ski]};
    } else {
      assert Superseded(Step(t, e), c.ski) == Superseded(t, c.ski);
    }
  }

  // ------------------------------------------- reservations and their winner

  /** The winner's entry is taken away without the winner having closed. */
  predicate Displaces(t: Table, e: Event, w: Conn) {
    || (Offered(e).Some? && Offered(e).value.ski == w.ski && VerdictOf(t, e).Accepted?)
    || e == Drop(w) || (e == Stop && !t.shutdown)
  }

  predicate Displaced(t: Table, events: seq<Event>, w: Conn) {
    events != [] &&
    (Displaced(t, events[..|events| - 1], w) || Displaces(Run(t, events[..|events| - 1]), events[|events| - 1], w))
  }

  ghost predicate WonBy(t: Table, w: Conn) {
    w.ski in t.reservations && t.reservations[w.ski].winner == Some(w)
  }

  lemma StepFollowsWinner(t: Table, e: Event, w: Conn)
    requires Filed(t) && WonBy(t, w) && Offered(e) != Some(w) && e != Closed(w)
    ensures Filed(Step(t, e)) && WonBy(Step(t, e), w)
    ensures Entry(Step(t, e), w.ski) == Some(w) <==> Entry(t, w.ski) == Some(w) && !Displaces(t, e, w)
    ensures w in Step(t, e).superseded ==> w in t.superseded || Displaces(t, e, w)
  {
  }

  lemma {:induction false} ReservationFollowsWinner(t: Table, events: seq<Event>, w: Conn)
    requires Filed(t) && WonBy(t, w) && SilentOn(w, events)
    ensures Filed(Run(t, events)) && WonBy(Run(t, events), w)
    ensures Entry(Run(t, events), w.ski) == Some(w) <==> Entry(t, w.ski) == Some(w) && !Displaced(t, events, w)
    ensures w in Run(t, events).superseded ==> w in t.superseded || Displaced(t, events, w)
  {
    if events != [] {
      var front, e := events[..|events| - 1], events[|events| - 1];
      assert SilentOn(w, front);
      ReservationFollowsWinner(t, front, w);
      assert Offered(e) != Some(w) && e != Closed(w);
      StepFollowsWinner(Run(t, front), e, w);
    }
  }

  /** A reservation is released by its winner's close exactly when nothing displaced
      the winner before. An unreserved inbound registration can, because it does not
      look at reservations. */
  lemma ReservationReleased(t: Table, events: seq<Event>, w: Conn)
    requires Sound(t) && WonBy(t, w) && Entry(t, w.ski) == Some(w) && SilentOn(w, events)
    ensures w.ski !in Step(Run(t, events), Closed(w)).reservations <==> !Displaced(t, events, w)
  {
    ReservationFollowsWinner(t, events, w);
  }

  /** Once displaced, the reservation stays for good: the SKI can neither be dialled
      nor reserved again, whatever happens. */
  lemma {:induction false} DisplacedReservationStays(t: Table, events: seq<Event>, w: Conn)
    requires WonBy(t, w) && Entry(t, w.ski) != Some(w)
    requires forall i | 0 <= i < |events| :: Offered(events[i]) != Some(w)
    ensures var t' := Run(t, events);
            WonBy(t', w) && Entry(t', w.ski) != Some(w) && !MayDial(t', w.ski) && !MayReserve(t', w.ski)
  {
    if events != [] {
      var front := events[..|events| - 1];
      DisplacedReservationStays(t, front, w);
      assert Offered(events[|events| - 1]) != Some(w);
    }
  }

  lemma Extend(t: Table, events: seq<Event>, e: Event)
    ensures Run(t, events + [e]) == Step(Run(t, events), e)
  {
    assert (events + [e])[..|events|] == events;
  }

  lemma ReservedArrival(t: Table)
    requires t == Table("a", false, map[], {}, map[], {})
    ensures var w := Conn(0, "b");
            Step(Step(t, MakeReservation("b", 7, None)), ReservedInbound(w, 7, true, None))
            == t.(connections := map["b" := w], reservations := map["b" := Reservation(7, None, None, Some(w))])
  {
    assert Step(t, MakeReservation("b", 7, None)) == t.(reservations := map["b" := Reservation(7, None, None, None)]);
  }

  /** Such a run exists: the higher SKI "b" reaches the hub "a" twice. */
  lemma WinnerCanBeDisplaced()
    ensures var t, w := Table("a", false, map[], {}, map[], {}), Conn(0, "b");
            var t' := Run(t, [] + [MakeReservation("b", 7, None)] + [ReservedInbound(w, 7, true, None)] + [Inbound(Conn(1, "b"))]);
            WonBy(t', w) && Entry(t', "b") == Some(Conn(1, "b"))
  {
    var t, w := Table("a", false, map[], {}, map[], {}), Conn(0, "b");
    var e0: seq<Event> := [];
    var e1 := e0 + [MakeReservation("b", 7, None)];
    var e2 := e1 + [ReservedInbound(w, 7, true, None)];
    Extend(t, e0, MakeReservation("b", 7, None));
    Extend(t, e1, ReservedInbound(w, 7, true, None));
    Extend(t, e2, Inbound(Conn(1, "b")));
    ReservedArrival(t);
    assert !AtMost("b", "a");
    assert Superseded(Run(t, e2), "b") == {};
  }

  // --------------------------------------------------------- the live table

  /** The fields guarded by muxCon, and the critical sections that update them. */
  class HubConnections {
    const local: Ski
    var hasShutdown: bool
    var connections: map<Ski, Conn>
    var connectionsInitiating: set<Ski>
    var inboundPairingReservations: map<Ski, Reservation>
    var supersededConnections: set<Conn>

    ghost function View(): Table
      reads this
    {
      Table(local, hasShutdown, connections, connectionsInitiating, inboundPairingReservations, supersededConnections)
    }

    constructor (local: Ski)
      ensures View() == Table(local, false, map[], {}, map[], {})
    {
      this.local := local;
      hasShutdown, connections, connectionsInitiating := false, map[], {};
      inboundPairingReservations, supersededConnections := map[], {};
    }

    method SupersededConnectionCountForSki(ski: Ski) returns (count: nat)
      ensures count == |Superseded(View(), ski)|
    {
      count := 0;
      ghost var counted: set<Conn> := {};
      var rest := supersededConnections;
      while rest != {}
        invariant rest <= supersededConnections
        invariant counted == (set c | c in supersededConnections - rest && c.ski == ski)
        invariant count == |counted|
        decreases |rest|
      {
        var c :| c in rest;
        rest := rest - {c};
        if c.ski == ski {
          count := count + 1;
          counted := counted + {c};
        }
      }
      assert counted == Superseded(View(), ski);
    }

    method BeginDial(ski: Ski) returns (started: bool)
      modifies this`connectionsInitiating
      ensures started == MayDial(old(View()), ski) && View() == StartDial(old(View()), ski)
    {
      if hasShutdown || ski in connections || ski in connectionsInitiating || ski in inboundPairingReservations {
        return false;
      }
      connectionsInitiating := connectionsInitiating + {ski};
      return true;
    }

    method RegisterInboundConnection(c: Conn) returns (registered: bool, existing: Option<Conn>)
      modifies this`connections, this`supersededConnections
      ensures View() == RegisterInbound(old(View()), c)
      ensures registered == InboundVerdict(old(View()), c).Accepted?
      ensures registered ==> existing == InboundVerdict(old(View()), c).loser
    {
      if hasShutdown { return false, None; }
      existing := if c.ski in connections then Some(connections[c.ski]) else None;
      if (existing.Some? || c.ski in connectionsInitiating) && AtMost(c.ski, local) { return false, None; }
      var count := SupersededConnectionCountForSki(c.ski);
      if existing.Some? && count >= MAX_SUPERSEDED { return false, None; }
      connections := connections[c.ski := c];
      if existing.Some? { supersededConnections := supersededConnections + {existing.value}; }
      registered := true;
    }

    method RegisterOutgoingConnection(c: Conn, cancelled: bool, authority: Option<nat>) returns (result: Verdict)
      modifies this`connections, this`supersededConnections
      ensures result == OutgoingVerdict(old(View()), c, cancelled, authority)
      ensures View() == RegisterOutgoing(old(View()), c, cancelled, authority)
    {
      if hasShutdown || cancelled { return Rejected; }
      if c.ski in inboundPairingReservations {
        var claimant := inboundPairingReservations[c.ski].claimant;
        if authority.Some? && claimant.Some? && claimant.value.authority == authority.value {
          supersededConnections := supersededConnections + {c};
          return Handoff;
        }
        return Rejected;
      }
      var existing := if c.ski in connections then Some(connections[c.ski]) else None;
      if existing.Some? {
        if AtMost(local, c.ski) {
          supersededConnections := supersededConnections + {c};
          return Handoff;
        }
        var count := SupersededConnectionCountForSki(c.ski);
        if count >= MAX_SUPERSEDED { return Rejected; }
        supersededConnections := supersededConnections + {existing.value};
      }
      connections := connections[c.ski := c];
      return Accepted(existing);
    }

    method ReserveInboundPairingConnection(ski: Ski, id: nat, active: Option<Claimant>) returns (reserved: bool)
      modifies this`inboundPairingReservations
      ensures reserved == MayReserve(old(View()), ski) && View() == Reserve(old(View()), ski, id, active)
    {
      if hasShutdown || ski in inboundPairingReservations { return false; }
      if ski in connectionsInitiating && AtMost(ski, local) { return false; }
      var existing := if ski in connections then Some(connections[ski]) else None;
      if existing.Some? && AtMost(ski, local) { return false; }
      inboundPairingReservations := inboundPairingReservations[ski := Reservation(id, existing, active, None)];
      return true;
    }

    method RegisterReservedInboundPairingConnection(c: Conn, id: nat, synchronised: bool, active: Option<Claimant>)
      returns (existing: Option<Conn>, registered: bool)
      modifies this`connections, this`supersededConnections, this`inboundPairingReservations
      ensures registered == ReservedVerdict(old(View()), c, id, synchronised, active).Accepted?
      ensures registered ==> existing == ReservedVerdict(old(View()), c, id, synchronised, active).loser
      ensures View() == RegisterReserved(old(View()), c, id, synchronised, active)
    {
      if hasShutdown || c.ski !in inboundPairingReservations || inboundPairingReservations[c.ski].id != id {
        return None, false;
      }
      var r := inboundPairingReservations[c.ski];
      if r.claimant.Some? && (!synchronised || active != r.claimant) { return None, false; }
      existing := if c.ski in connections then Some(connections[c.ski]) else None;
      if r.winner.Some? || existing != r.replaced { return None, false; }
      var count := SupersededConnectionCountForSki(c.ski);
      if r.replaced.Some? && count >= MAX_SUPERSEDED { return None, false; }
      connections := connections[c.ski := c];
      inboundPairingReservations := inboundPairingReservations[c.ski := r.(winner := Some(c))];
      if existing.Some? { supersededConnections := supersededConnections + {existing.value}; }
      registered := true;
    }

    method ClaimClosedConnectionState(c: Conn) returns (claim: Claim)
      modifies this`connections, this`supersededConnections, this`inboundPairingReservations
      ensures claim == ClaimVerdict(old(View()), c) && View() == ClaimClosed(old(View()), c)
    {
      if c in supersededConnections {
        supersededConnections := supersededConnections - {c};
        return Absorbed;
      }
      if c.ski !in connections || connections[c.ski] != c { return Unknown; }
      claim := Removed(None);
      if c.ski in inboundPairingReservations && inboundPairingReservations[c.ski].winner == Some(c) {
        claim := Removed(Some(inboundPairingReservations[c.ski]));
        inboundPairingReservations := inboundPairingReservations - {c.ski};
      }
      connections := connections - {c.ski};
    }
  }
}
