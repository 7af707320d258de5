/**
 Outbound registrations and the connections they lead to, in one hub. Launch, bind,
 registration in the connection table, replacement, revocation, gate change,
 shutdown, cancellation, close and close report are separate critical sections in
 different threads; here they interleave freely.
 */
module AttemptLifecycle {
  import opened Basics
  import opened C = ConnectionTable
  import L = CallbackLease

  /** A launch registration. `listed`: still in outboundAttempts; `cancelDue`: a
      thread has taken it out and will cancel its context. */
  datatype Reg = Reg(ski: Ski, listed: bool, cancelDue: bool, cancelled: bool, conn: Option<nat>, lease: L.Lease)

  /** What the thread that made the connection has done with it so far. */
  datatype Fate = Made | Bound | Abandoned | Offered

  /** What another thread still owes to it: drain its callbacks, then close it. */
  datatype Duty = Nothing | BlockDue | Waiting(channel: nat) | CloseDue

  /** `beaten`: superseded by another connection; `drained`: the replacing thread
      found its registration and the wait for its callbacks has returned. */
  datatype Con = Con(ski: Ski, reg: Option<nat>, fate: Fate, duty: Duty,
                     closed: bool, reported: bool, beaten: bool, drained: bool)

  datatype State = State(table: Table, regs: seq<Reg>, cons: seq<Con>)

  function Initial(local: Ski): State {
    State(Table(local, false, map[], {}, map[], {}), [], [])
  }

  function Key(s: State, i: nat): Conn
    requires i < |s.cons|
  {
    Conn(i, s.cons[i].ski)
  }

  function SetCon(s: State, i: nat, c: Con): State
    requires i < |s.cons|
  {
    s.(cons := s.cons[i := c])
  }

  function SetReg(s: State, r: nat, reg: Reg): State
    requires r < |s.regs|
  {
    s.(regs := s.regs[r := reg])
  }

  // ------------------------------------------------------------ registrations

  function Unlisted(reg: Reg): Reg {
    reg.(listed := false, cancelDue := reg.cancelDue || reg.listed)
  }

  /** `removeOutboundAttemptRegistrationsLocked` for one SKI, or for all. */
  function Unlist(regs: seq<Reg>, ski: Option<Ski>): seq<Reg> {
    seq(|regs|, r requires 0 <= r < |regs| => if ski.None? || regs[r].ski == ski.value then Unlisted(regs[r]) else regs[r])
  }

  predicate MayBind(s: State, i: nat) {
    && i < |s.cons| && s.cons[i].fate == Made && s.cons[i].reg.Some? && s.cons[i].reg.value < |s.regs|
    && s.regs[s.cons[i].reg.value].conn.None?
  }

  /** `bindOutboundAttemptConnection`; a refused connection is never registered. */
  function Bind(s: State, i: nat): State
    requires MayBind(s, i)
  {
    var r := s.cons[i].reg.value;
    if s.regs[r].listed && !s.regs[r].cancelled
    then SetCon(SetReg(s, r, s.regs[r].(conn := Some(i))), i, s.cons[i].(fate := Bound))
    else SetCon(s, i, s.cons[i].(fate := Abandoned))
  }

  // ---------------------------------------------------- the connection table

  /** The replaced connection: its callbacks must drain before it is closed. */
  function Beat(s: State, loser: Option<Conn>): State {
    if loser.Some? && loser.value.id < |s.cons|
    then SetCon(s, loser.value.id, s.cons[loser.value.id].(duty := BlockDue, beaten := true))
    else s
  }

  function Accept(s: State, i: nat, table: Table, loser: Option<Conn>): State
    requires i < |s.cons|
  {
    Beat(SetCon(s.(table := table), i, s.cons[i].(fate := Offered)), loser)
  }

  predicate MayOfferOut(s: State, i: nat) {
    i < |s.cons| && s.cons[i].fate == Bound && s.cons[i].reg.Some? && s.cons[i].reg.value < |s.regs|
  }

  function OutVerdict(s: State, i: nat, authority: Option<nat>): Verdict
    requires MayOfferOut(s, i)
  {
    OutgoingVerdict(s.table, Key(s, i), s.regs[s.cons[i].reg.value].cancelled, authority)
  }

  /** `registerOutgoingConnection`; the caller closes what was not accepted. */
  function OfferOut(s: State, i: nat, authority: Option<nat>): State
    requires MayOfferOut(s, i)
  {
    var verdict := OutVerdict(s, i, authority);
    var table := RegisterOutgoing(s.table, Key(s, i), s.regs[s.cons[i].reg.value].cancelled, authority);
    if verdict.Accepted? then Accept(s, i, table, verdict.loser)
    else SetCon(s.(table := table), i, s.cons[i].(fate := Offered, duty := CloseDue, beaten := verdict.Handoff?))
  }

  predicate MayOfferIn(s: State, i: nat) {
    i < |s.cons| && s.cons[i].fate == Made && s.cons[i].reg.None?
  }

  /** `registerInboundConnection`; a refused one is dropped before it ever runs. */
  function OfferIn(s: State, i: nat): State
    requires MayOfferIn(s, i)
  {
    var verdict := InboundVerdict(s.table, Key(s, i));
    if verdict.Accepted? then Accept(s, i, RegisterInbound(s.table, Key(s, i)), verdict.loser)
    else SetCon(s, i, s.cons[i].(fate := Abandoned))
  }

  /** `registerReservedInboundPairingConnection`. */
  function OfferReserved(s: State, i: nat, id: nat, synchronised: bool, active: Option<Claimant>): State
    requires MayOfferIn(s, i)
  {
    var verdict := ReservedVerdict(s.table, Key(s, i), id, synchronised, active);
    if verdict.Accepted? then Accept(s, i, RegisterReserved(s.table, Key(s, i), id, synchronised, active), verdict.loser)
    else SetCon(s, i, s.cons[i].(fate := Abandoned))
  }

  // -------------------------------------------------- replacing and closing

  /** `blockOutboundAttemptCallbacks` finds the listed registration of the loser. */
  predicate FindsRegistration(s: State, i: nat) {
    && i < |s.cons| && s.cons[i].reg.Some? && s.cons[i].reg.value < |s.regs|
    && s.regs[s.cons[i].reg.value].listed && s.regs[s.cons[i].reg.value].conn == Some(i)
  }

  function BlockLoser(s: State, i: nat): State
    requires i < |s.cons|
  {
    var con := s.cons[i];
    if !FindsRegistration(s, i) then SetCon(s, i, con.(duty := CloseDue))
    else
      var r := con.reg.value;
      var wait := L.WaitsOn(s.regs[r].lease);
      var s' := SetReg(s, r, s.regs[r].(lease := L.Block(s.regs[r].lease)));
      if wait.None? then SetCon(s', i, con.(duty := CloseDue, drained := true))
      else SetCon(s', i, con.(duty := Waiting(wait.value)))
  }

  predicate MayWake(s: State, i: nat) {
    && i < |s.cons| && s.cons[i].duty.Waiting? && s.cons[i].reg.Some? && s.cons[i].reg.value < |s.regs|
    && s.cons[i].duty.channel in s.regs[s.cons[i].reg.value].lease.closed
  }

  /** CloseConnection can be called on a registered connection at any time; on one that
      is not registered only its cancelled attempt context does. */
  predicate MayClose(s: State, i: nat) {
    && i < |s.cons| && !s.cons[i].closed
    && (s.cons[i].fate == Offered || CancelledFor(s, s.cons[i].reg))
  }

  predicate CancelledFor(s: State, reg: Option<nat>) {
    reg.Some? && reg.value < |s.regs| && s.regs[reg.value].cancelled
  }

  /** The close report: the table entry or the tombstone goes, and the registration
      bound to this very connection leaves outboundAttempts. */
  function Report(s: State, i: nat): State
    requires i < |s.cons|
  {
    var s' := SetCon(s.(table := ClaimClosed(s.table, Key(s, i))), i, s.cons[i].(reported := true));
    if FindsRegistration(s, i)
    then SetReg(s', s.cons[i].reg.value, Unlisted(s.regs[s.cons[i].reg.value])) else s'
  }

  predicate IsEntry(s: State, i: nat) {
    i < |s.cons| && Entry(s.table, s.cons[i].ski) == Some(Key(s, i))
  }

  /** The muxCon section of `beginShutdown` with the closes it has then to make. */
  function ShutTable(s: State): State {
    var cons := seq(|s.cons|, i requires 0 <= i < |s.cons| => if IsEntry(s, i) then s.cons[i].(duty := CloseDue) else s.cons[i]);
    State(Shutdown(s.table), s.regs, cons)
  }

  // ------------------------------------------------------------------ events

  datatype Event =
    | Launch(ski: Ski)
    | Create(r: nat)
    | Arrive(ski: Ski)
    | BindTo(i: nat)
    | RegisterOut(i: nat, authority: Option<nat>)
    | RegisterIn(i: nat)
    | RegisterReservedIn(i: nat, id: nat, synchronised: bool, active: Option<Claimant>)
    | TableOnly(action: C.Event)
    | BlockCallbacks(i: nat)
    | Wake(i: nat)
    | Revoke(ski: Ski)
    | RemoveAll
    | Release(r: nat)
    | DropEntry(r: nat)
    | Cancel(r: nat)
    | PermitCancelled(r: nat)
    | Close(i: nat)
    | ReportClosed(i: nat)
    | BeginShutdown
    | BeginCallback(r: nat)
    | EndCallback(r: nat)

  predicate Enabled(s: State, e: Event) {
    match e
    case Create(r) => r < |s.regs|
    case BindTo(i) => MayBind(s, i)
    case RegisterOut(i, _) => MayOfferOut(s, i)
    case RegisterIn(i) => MayOfferIn(s, i)
    case RegisterReservedIn(i, _, _, _) => MayOfferIn(s, i)
    case TableOnly(a) => a.Dial? || a.DialDone? || a.MakeReservation? || a.AbandonReservation?
    case BlockCallbacks(i) => i < |s.cons| && s.cons[i].duty == BlockDue
    case Wake(i) => MayWake(s, i)
    case Release(r) => r < |s.regs|
    case DropEntry(r) => r < |s.regs| && s.regs[r].cancelDue && s.regs[r].conn.Some? && s.regs[r].conn.value < |s.cons|
    case Cancel(r) => r < |s.regs| && s.regs[r].cancelDue
    case PermitCancelled(r) => r < |s.regs|
    case Close(i) => MayClose(s, i)
    case ReportClosed(i) => i < |s.cons| && s.cons[i].closed && !s.cons[i].reported
    case BeginCallback(r) => r < |s.regs|
    case EndCallback(r) => r < |s.regs| && s.regs[r].lease.active > 0
    case _ => true
  }

  function Effect(s: State, e: Event): State
    requires Enabled(s, e)
  {
    match e
    case Launch(ski) => s.(regs := s.regs + [Reg(ski, true, false, false, None, L.IDLE)])
    case Create(r) => s.(cons := s.cons + [Con(s.regs[r].ski, Some(r), Made, Nothing, false, false, false, false)])
    case Arrive(ski) => s.(cons := s.cons + [Con(ski, None, Made, Nothing, false, false, false, false)])
    case BindTo(i) => Bind(s, i)
    case RegisterOut(i, authority) => OfferOut(s, i, authority)
    case RegisterIn(i) => OfferIn(s, i)
    case RegisterReservedIn(i, id, synchronised, active) => OfferReserved(s, i, id, synchronised, active)
    case TableOnly(a) => s.(table := C.Step(s.table, a))
    case BlockCallbacks(i) => BlockLoser(s, i)
    case Wake(i) => SetCon(s, i, s.cons[i].(duty := CloseDue, drained := true))
    case Revoke(ski) => s.(regs := Unlist(s.regs, Some(ski)))
    case RemoveAll => s.(regs := Unlist(s.regs, None))
    case Release(r) => SetReg(s, r, Unlisted(s.regs[r]))
    case DropEntry(r) => s.(table := RemoveExact(s.table, Key(s, s.regs[r].conn.value)))
    case Cancel(r) => SetReg(s, r, s.regs[r].(cancelDue := false, cancelled := true))
    case PermitCancelled(r) => SetReg(s, r, s.regs[r].(cancelled := true))
    case Close(i) => SetCon(s, i, s.cons[i].(closed := true))
    case ReportClosed(i) => Report(s, i)
    case BeginShutdown => ShutTable(s)
    case BeginCallback(r) => SetReg(s, r, s.regs[r].(lease := L.Begin(s.regs[r].lease)))
    case EndCallback(r) => SetReg(s, r, s.regs[r].(lease := L.End(s.regs[r].lease)))
  }

  function Step(s: State, e: Event): State {
    if Enabled(s, e) then Effect(s, e) else s
  }

  function Run(s: State, events: seq<Event>): State {
    if events == [] then s else Step(Run(s, events[..|events| - 1]), events[|events| - 1])
  }

  // -------------------------------------------------------------- invariants

  /** A registration that left outboundAttempts is cancelled or about to be. */
  ghost predicate RegsSound(regs: seq<Reg>) {
    forall r | 0 <= r < |regs| :: (regs[r].listed || regs[r].cancelDue || regs[r].cancelled) && L.Sound(regs[r].lease)
  }

  ghost predicate ConSound(regs: seq<Reg>, cons: seq<Con>, i: nat)
    requires i < |cons|
  {
    var con := cons[i];
    && (con.reg.Some? ==> con.reg.value < |regs| && regs[con.reg.value].ski == con.ski)
    && (con.reg.Some? && (con.fate == Bound || con.fate == Offered) ==> regs[con.reg.value].conn == Some(i))
    && (con.reported ==> con.closed)
    && (con.closed && con.fate != Offered ==> con.reg.Some? && regs[con.reg.value].cancelled)
    && (con.fate != Offered ==> con.duty == Nothing && !con.beaten && !con.drained)
    && (con.beaten ==> con.duty != Nothing)
  }

  ghost predicate ConsSound(regs: seq<Reg>, cons: seq<Con>) {
    forall i | 0 <= i < |cons| :: ConSound(regs, cons, i)
  }

  ghost predicate BoundBack(regs: seq<Reg>, cons: seq<Con>) {
    forall r | 0 <= r < |regs| && regs[r].conn.Some? ::
      regs[r].conn.value < |cons| && cons[regs[r].conn.value].reg == Some(r)
  }

  /** Table entries are connections on offer that have not reported their close. */
  ghost predicate EntriesSound(table: Table, cons: seq<Con>) {
    forall ski | ski in table.connections ::
      var c := table.connections[ski];
      && c.ski == ski && c.id < |cons| && cons[c.id].ski == ski && c !in table.superseded
      && cons[c.id].fate == Offered && !cons[c.id].reported && !cons[c.id].beaten
  }

  /** Tombstones are exactly the beaten connections that have not reported yet. */
  ghost predicate TombsSound(table: Table, cons: seq<Con>) {
    && (forall c | c in table.superseded :: c.id < |cons| && cons[c.id].ski == c.ski && cons[c.id].beaten && !cons[c.id].reported)
    && (forall i | 0 <= i < |cons| :: cons[i].beaten && !cons[i].reported ==> Conn(i, cons[i].ski) in table.superseded)
  }

  /** A registered connection that is open is served by the table, or its end is near. */
  ghost predicate Accounted(s: State, i: nat)
    requires i < |s.cons|
  {
    || IsEntry(s, i)
    || s.cons[i].duty != Nothing
    || (s.cons[i].reg.Some? && s.cons[i].reg.value < |s.regs|
        && (s.regs[s.cons[i].reg.value].cancelDue || s.regs[s.cons[i].reg.value].cancelled))
  }

  ghost predicate NoneStranded(s: State) {
    forall i | 0 <= i < |s.cons| && s.cons[i].fate == Offered && !s.cons[i].closed :: Accounted(s, i)
  }

  predicate Awaits(l: L.Lease, channel: nat) {
    l.drained == Some(channel) || channel in l.closed
  }

  ghost predicate LeaseOf(regs: seq<Reg>, con: Con) {
    con.duty.Waiting? || con.drained ==>
      && con.reg.Some? && con.reg.value < |regs|
      && (con.duty.Waiting? ==> Awaits(regs[con.reg.value].lease, con.duty.channel))
      && (con.drained ==> L.Over(regs[con.reg.value].lease))
  }

  ghost predicate LeasesSound(regs: seq<Reg>, cons: seq<Con>) {
    forall i | 0 <= i < |cons| :: LeaseOf(regs, cons[i])
  }

  ghost predicate Inv(s: State) {
    && RegsSound(s.regs) && ConsSound(s.regs, s.cons) && BoundBack(s.regs, s.cons) && EntriesSound(s.table, s.cons) && TombsSound(s.table, s.cons)
    && NoneStranded(s) && LeasesSound(s.regs, s.cons)
  }

  // ------------------------------------------- steps that touch registrations

  ghost predicate Advances(reg: Reg, reg': Reg) {
    && reg'.ski == reg.ski && reg'.conn == reg.conn
    && (reg.cancelDue || reg.cancelled ==> reg'.cancelDue || reg'.cancelled)
    && (reg.cancelled ==> reg'.cancelled)
    && (L.Over(reg.lease) ==> L.Over(reg'.lease))
    && (forall channel: nat :: Awaits(reg.lease, channel) ==> Awaits(reg'.lease, channel))
  }

  ghost predicate AllAdvance(regs: seq<Reg>, regs': seq<Reg>) {
    |regs| == |regs'| && forall r | 0 <= r < |regs| :: Advances(regs[r], regs'[r])
  }

  lemma AdvanceKeeps(s: State, regs: seq<Reg>)
    requires Inv(s) && AllAdvance(s.regs, regs) && RegsSound(regs)
    ensures Inv(s.(regs := regs))
  {
    var s' := s.(regs := regs);
    forall i | 0 <= i < |s.cons| ensures ConSound(regs, s.cons, i) && LeaseOf(regs, s.cons[i]) {
      assert ConSound(s.regs, s.cons, i) && LeaseOf(s.regs, s.cons[i]);
    }
    forall i | 0 <= i < |s.cons| && s.cons[i].fate == Offered && !s.cons[i].closed ensures Accounted(s', i) {
      assert Accounted(s, i);
    }
  }

  lemma LeaseAdvances(l: L.Lease)
    requires L.Sound(l)
    ensures L.Sound(L.Begin(l)) && L.Sound(L.End(l)) && L.Sound(L.Block(l))
    ensures L.Over(l) ==> L.Over(L.Begin(l)) && L.Over(L.End(l)) && L.Over(L.Block(l))
    ensures forall channel: nat :: Awaits(l, channel) ==> Awaits(L.Begin(l), channel) && Awaits(L.End(l), channel) && Awaits(L.Block(l), channel)
  {
  }

  predicate OnRegistrations(e: Event) {
    e.Revoke? || e.RemoveAll? || e.Release? || e.Cancel? || e.PermitCancelled? || e.BeginCallback? || e.EndCallback?
  }

  lemma OneAdvanceKeeps(s: State, r: nat, reg: Reg)
    requires Inv(s) && r < |s.regs| && Advances(s.regs[r], reg)
    requires (reg.listed || reg.cancelDue || reg.cancelled) && L.Sound(reg.lease)
    ensures Inv(SetReg(s, r, reg))
  {
    AdvanceKeeps(s, s.regs[r := reg]);
  }

  lemma UnlistKeeps(s: State, ski: Option<Ski>)
    requires Inv(s)
    ensures Inv(s.(regs := Unlist(s.regs, ski)))
  {
    var regs := Unlist(s.regs, ski);
    assert AllAdvance(s.regs, regs) && RegsSound(regs);
    AdvanceKeeps(s, regs);
  }

  lemma RegistrationStepKeeps(s: State, e: Event)
    requires Inv(s) && Enabled(s, e) && OnRegistrations(e)
    ensures Inv(Effect(s, e))
  {
    if e.Revoke? {
      UnlistKeeps(s, Some(e.ski));
    } else if e.RemoveAll? {
      UnlistKeeps(s, None);
    } else {
      LeaseAdvances(s.regs[e.r].lease);
      OneAdvanceKeeps(s, e.r, Effect(s, e).regs[e.r]);
    }
  }

  lemma LaunchKeeps(s: State, reg: Reg)
    requires Inv(s) && reg.listed && reg.conn.None? && reg.lease == L.IDLE
    ensures Inv(s.(regs := s.regs + [reg]))
  {
    var s' := s.(regs := s.regs + [reg]);
    forall i | 0 <= i < |s.cons| ensures ConSound(s'.regs, s.cons, i) && LeaseOf(s'.regs, s.cons[i]) {
      assert ConSound(s.regs, s.cons, i) && LeaseOf(s.regs, s.cons[i]);
    }
    forall i | 0 <= i < |s.cons| && s.cons[i].fate == Offered && !s.cons[i].closed ensures Accounted(s', i) {
      assert Accounted(s, i);
    }
  }

  // --------------------------------------------- steps that touch connections

  lemma CreateKeeps(s: State, con: Con)
    requires Inv(s) && con == Con(con.ski, con.reg, Made, Nothing, false, false, false, false)
    requires con.reg.Some? ==> con.reg.value < |s.regs| && s.regs[con.reg.value].ski == con.ski
    ensures Inv(s.(cons := s.cons + [con]))
  {
    var s' := s.(cons := s.cons + [con]);
    forall i | 0 <= i < |s.cons| ensures ConSound(s.regs, s'.cons, i) && LeaseOf(s.regs, s'.cons[i]) {
      assert ConSound(s.regs, s.cons, i) && LeaseOf(s.regs, s.cons[i]);
    }
    forall i | 0 <= i < |s'.cons| && s'.cons[i].fate == Offered && !s'.cons[i].closed ensures Accounted(s', i) {
      assert Accounted(s, i);
    }
  }

  /** A change of one connection that leaves its place in the table alone. */
  ghost predicate Harmless(s: State, i: nat, con: Con)
    requires i < |s.cons|
  {
    var was := s.cons[i];
    && con.ski == was.ski && con.reg == was.reg && con.reported == was.reported && con.beaten == was.beaten
    && (was.fate == Offered <==> con.fate == Offered)
    && ConSound(s.regs, s.cons[i := con], i) && LeaseOf(s.regs, con)
    && (con.duty == Nothing ==> was.duty == Nothing) && (was.closed ==> con.closed)
  }

  lemma HarmlessKeeps(s: State, i: nat, con: Con)
    requires Inv(s) && i < |s.cons| && Harmless(s, i, con)
    ensures Inv(SetCon(s, i, con))
  {
    var s' := SetCon(s, i, con);
    forall j | 0 <= j < |s.cons| ensures ConSound(s.regs, s'.cons, j) && LeaseOf(s.regs, s'.cons[j]) {
      assert ConSound(s.regs, s.cons, j) && LeaseOf(s.regs, s.cons[j]);
    }
    forall j | 0 <= j < |s'.cons| && s'.cons[j].fate == Offered && !s'.cons[j].closed ensures Accounted(s', j) {
      assert Accounted(s, j);
    }
  }

  lemma CloseKeeps(s: State, i: nat)
    requires Inv(s) && MayClose(s, i)
    ensures Inv(SetCon(s, i, s.cons[i].(closed := true)))
  {
    assert ConSound(s.regs, s.cons, i) && LeaseOf(s.regs, s.cons[i]);
    HarmlessKeeps(s, i, s.cons[i].(closed := true));
  }

  lemma WakeKeeps(s: State, i: nat)
    requires Inv(s) && MayWake(s, i)
    ensures Inv(Effect(s, Wake(i)))
  {
    assert ConSound(s.regs, s.cons, i) && LeaseOf(s.regs, s.cons[i]);
    HarmlessKeeps(s, i, s.cons[i].(duty := CloseDue, drained := true));
  }

  lemma BlockKeeps(s: State, i: nat)
    requires Inv(s) && i < |s.cons| && s.cons[i].duty == BlockDue
    ensures Inv(BlockLoser(s, i))
  {
    var con := s.cons[i];
    assert ConSound(s.regs, s.cons, i) && LeaseOf(s.regs, con);
    if !FindsRegistration(s, i) {
      HarmlessKeeps(s, i, con.(duty := CloseDue));
    } else {
      var r := con.reg.value;
      var regs := s.regs[r := s.regs[r].(lease := L.Block(s.regs[r].lease))];
      LeaseAdvances(s.regs[r].lease);
      AdvanceKeeps(s, regs);
      var s' := s.(regs := regs);
      assert ConSound(s'.regs, s'.cons, i) && LeaseOf(s'.regs, s'.cons[i]);
      var wait := L.WaitsOn(s.regs[r].lease);
      HarmlessKeeps(s', i, if wait.None? then con.(duty := CloseDue, drained := true) else con.(duty := Waiting(wait.value)));
    }
  }

  lemma BindKeeps(s: State, i: nat)
    requires Inv(s) && MayBind(s, i)
    ensures Inv(Bind(s, i))
  {
    var con := s.cons[i];
    var r := con.reg.value;
    assert ConSound(s.regs, s.cons, i) && LeaseOf(s.regs, con);
    if s.regs[r].listed && !s.regs[r].cancelled {
      var s' := Bind(s, i);
      forall j | 0 <= j < |s.cons| ensures ConSound(s'.regs, s'.cons, j) && LeaseOf(s'.regs, s'.cons[j]) {
        assert ConSound(s.regs, s.cons, j) && LeaseOf(s.regs, s.cons[j]);
      }
      forall j | 0 <= j < |s'.cons| && s'.cons[j].fate == Offered && !s'.cons[j].closed ensures Accounted(s', j) {
        assert Accounted(s, j);
      }
    } else {
      HarmlessKeeps(s, i, con.(fate := Abandoned));
    }
  }

  // --------------------------------------------------- steps that touch the table

  lemma AcceptKeepsCons(s: State, i: nat, table: Table)
    requires Inv(s) && i < |s.cons| && s.cons[i].fate != Offered && !s.cons[i].closed
    requires s.cons[i].reg.Some? ==> s.cons[i].fate == Bound
    ensures var s' := Accept(s, i, table, Entry(s.table, s.cons[i].ski)); ConsSound(s'.regs, s'.cons)
  {
    var s' := Accept(s, i, table, Entry(s.table, s.cons[i].ski));
    forall j | 0 <= j < |s.cons| ensures ConSound(s'.regs, s'.cons, j) {
      assert ConSound(s.regs, s.cons, j);
    }
  }

  lemma AcceptKeepsLeases(s: State, i: nat, table: Table)
    requires Inv(s) && i < |s.cons|
    ensures var s' := Accept(s, i, table, Entry(s.table, s.cons[i].ski));
            LeasesSound(s'.regs, s'.cons) && BoundBack(s'.regs, s'.cons)
  {
    var s' := Accept(s, i, table, Entry(s.table, s.cons[i].ski));
    forall j | 0 <= j < |s.cons| ensures LeaseOf(s'.regs, s'.cons[j]) {
      assert LeaseOf(s.regs, s.cons[j]);
    }
  }

  lemma AcceptKeepsAccounts(s: State, i: nat, table: Table)
    requires Inv(s) && i < |s.cons| && s.cons[i].fate != Offered
    requires table.connections == C.Install(s.table, Key(s, i)).connections
    ensures NoneStranded(Accept(s, i, table, Entry(s.table, s.cons[i].ski)))
  {
    var s' := Accept(s, i, table, Entry(s.table, s.cons[i].ski));
    forall j | 0 <= j < |s'.cons| && s'.cons[j].fate == Offered && !s'.cons[j].closed ensures Accounted(s', j) {
      assert j != i ==> Accounted(s, j);
    }
  }

  lemma AcceptKeepsTombs(s: State, i: nat, table: Table)
    requires EntriesSound(s.table, s.cons) && TombsSound(s.table, s.cons) && i < |s.cons|
    requires s.cons[i].fate != Offered && !s.cons[i].reported && !s.cons[i].beaten
    requires var t := C.Install(s.table, Key(s, i)); table.connections == t.connections && table.superseded == t.superseded
    ensures var s' := Accept(s, i, table, Entry(s.table, s.cons[i].ski));
            EntriesSound(s'.table, s'.cons) && TombsSound(s'.table, s'.cons)
  {
  }

  lemma AcceptKeeps(s: State, i: nat, table: Table)
    requires Inv(s) && i < |s.cons| && s.cons[i].fate != Offered && !s.cons[i].closed
    requires s.cons[i].reg.Some? ==> s.cons[i].fate == Bound
    requires var t := C.Install(s.table, Key(s, i)); table.connections == t.connections && table.superseded == t.superseded
    ensures Inv(Accept(s, i, table, Entry(s.table, s.cons[i].ski)))
  {
    assert ConSound(s.regs, s.cons, i);
    AcceptKeepsCons(s, i, table);
    AcceptKeepsLeases(s, i, table);
    AcceptKeepsAccounts(s, i, table);
    AcceptKeepsTombs(s, i, table);
  }

  /** The caller of a registration that was not accepted closes the connection. */
  lemma NotAcceptedKeeps(s: State, i: nat, handoff: bool)
    requires Inv(s) && MayOfferOut(s, i) && (handoff ==> !s.cons[i].closed)
    ensures var table := if handoff then s.table.(superseded := s.table.superseded + {Key(s, i)}) else s.table;
            Inv(SetCon(s.(table := table), i, s.cons[i].(fate := Offered, duty := CloseDue, beaten := handoff)))
  {
    var table := if handoff then s.table.(superseded := s.table.superseded + {Key(s, i)}) else s.table;
    var s' := SetCon(s.(table := table), i, s.cons[i].(fate := Offered, duty := CloseDue, beaten := handoff));
    assert ConSound(s.regs, s.cons, i);
    forall j | 0 <= j < |s.cons| ensures ConSound(s'.regs, s'.cons, j) && LeaseOf(s'.regs, s'.cons[j]) {
      assert ConSound(s.regs, s.cons, j) && LeaseOf(s.regs, s.cons[j]);
    }
    forall j | 0 <= j < |s'.cons| && s'.cons[j].fate == Offered && !s'.cons[j].closed ensures Accounted(s', j) {
      assert j != i ==> Accounted(s, j);
    }
    assert EntriesSound(s'.table, s'.cons);
    assert TombsSound(s'.table, s'.cons);
  }

  lemma AcceptedIsOpen(s: State, i: nat, authority: Option<nat>)
    requires Inv(s) && MayOfferOut(s, i) && !OutVerdict(s, i, authority).Rejected?
    ensures !s.cons[i].closed
  {
    assert ConSound(s.regs, s.cons, i);
  }

  lemma OfferOutKeeps(s: State, i: nat, authority: Option<nat>)
    requires Inv(s) && MayOfferOut(s, i)
    ensures Inv(OfferOut(s, i, authority))
  {
    var verdict := OutVerdict(s, i, authority);
    if verdict.Accepted? {
      AcceptedIsOpen(s, i, authority);
      AcceptKeeps(s, i, OfferOut(s, i, authority).table);
    } else {
      if verdict.Handoff? { AcceptedIsOpen(s, i, authority); }
      NotAcceptedKeeps(s, i, verdict.Handoff?);
    }
  }

  lemma RefusedKeeps(s: State, i: nat)
    requires Inv(s) && MayOfferIn(s, i)
    ensures Inv(SetCon(s, i, s.cons[i].(fate := Abandoned))) && !s.cons[i].closed
  {
    assert ConSound(s.regs, s.cons, i) && LeaseOf(s.regs, s.cons[i]);
    HarmlessKeeps(s, i, s.cons[i].(fate := Abandoned));
  }

  lemma OfferInKeeps(s: State, i: nat)
    requires Inv(s) && MayOfferIn(s, i)
    ensures Inv(OfferIn(s, i))
  {
    RefusedKeeps(s, i);
    if InboundVerdict(s.table, Key(s, i)).Accepted? {
      AcceptKeeps(s, i, OfferIn(s, i).table);
    }
  }

  lemma OfferReservedKeeps(s: State, i: nat, id: nat, synchronised: bool, active: Option<Claimant>)
    requires Inv(s) && MayOfferIn(s, i)
    ensures Inv(OfferReserved(s, i, id, synchronised, active))
  {
    RefusedKeeps(s, i);
    if ReservedVerdict(s.table, Key(s, i), id, synchronised, active).Accepted? {
      AcceptKeeps(s, i, OfferReserved(s, i, id, synchronised, active).table);
    }
  }

  lemma ReportClaims(s: State, i: nat)
    requires Inv(s) && i < |s.cons| && s.cons[i].closed && !s.cons[i].reported
    ensures Inv(SetCon(s.(table := ClaimClosed(s.table, Key(s, i))), i, s.cons[i].(reported := true)))
  {
    var s' := SetCon(s.(table := ClaimClosed(s.table, Key(s, i))), i, s.cons[i].(reported := true));
    forall j | 0 <= j < |s.cons| ensures ConSound(s'.regs, s'.cons, j) && LeaseOf(s'.regs, s'.cons[j]) {
      assert ConSound(s.regs, s.cons, j) && LeaseOf(s.regs, s.cons[j]);
    }
    forall j | 0 <= j < |s'.cons| && s'.cons[j].fate == Offered && !s'.cons[j].closed ensures Accounted(s', j) {
      assert Accounted(s, j);
    }
    assert EntriesSound(s'.table, s'.cons);
    assert TombsSound(s'.table, s'.cons);
  }

  lemma ReportKeeps(s: State, i: nat)
    requires Inv(s) && i < |s.cons| && s.cons[i].closed && !s.cons[i].reported
    ensures Inv(Report(s, i))
  {
    ReportClaims(s, i);
    var s' := SetCon(s.(table := ClaimClosed(s.table, Key(s, i))), i, s.cons[i].(reported := true));
    if FindsRegistration(s, i) {
      OneAdvanceKeeps(s', s.cons[i].reg.value, Unlisted(s.regs[s.cons[i].reg.value]));
    }
  }

  /** Taking an entry out is safe because its registration is about to be cancelled. */
  lemma DropKeeps(s: State, r: nat)
    requires Inv(s) && Enabled(s, DropEntry(r))
    ensures Inv(Effect(s, DropEntry(r)))
  {
    var s' := Effect(s, DropEntry(r));
    assert s.cons[s.regs[r].conn.value].reg == Some(r);
    forall j | 0 <= j < |s'.cons| && s'.cons[j].fate == Offered && !s'.cons[j].closed ensures Accounted(s', j) {
      assert Accounted(s, j);
    }
  }

  lemma ShutKeeps(s: State)
    requires Inv(s)
    ensures Inv(ShutTable(s))
  {
    var s' := ShutTable(s);
    forall j | 0 <= j < |s.cons| ensures ConSound(s'.regs, s'.cons, j) && LeaseOf(s'.regs, s'.cons[j]) {
      assert ConSound(s.regs, s.cons, j) && LeaseOf(s.regs, s.cons[j]);
    }
    forall j | 0 <= j < |s'.cons| && s'.cons[j].fate == Offered && !s'.cons[j].closed ensures Accounted(s', j) {
      assert Accounted(s, j);
    }
  }

  lemma TableOnlyKeeps(s: State, e: Event)
    requires Inv(s) && e.TableOnly? && Enabled(s, e)
    ensures Inv(Effect(s, e))
  {
    var s' := Effect(s, e);
    assert s'.table.connections == s.table.connections && s'.table.superseded == s.table.superseded;
    forall j | 0 <= j < |s'.cons| && s'.cons[j].fate == Offered && !s'.cons[j].closed ensures Accounted(s', j) {
      assert Accounted(s, j);
    }
  }

  lemma StepKeeps(s: State, e: Event)
    requires Inv(s)
    ensures Inv(Step(s, e))
  {
    if Enabled(s, e) {
      match e
      case Launch(ski) => LaunchKeeps(s, Reg(ski, true, false, false, None, L.IDLE));
      case Create(r) => CreateKeeps(s, Con(s.regs[r].ski, Some(r), Made, Nothing, false, false, false, false));
      case Arrive(ski) => CreateKeeps(s, Con(ski, None, Made, Nothing, false, false, false, false));
      case BindTo(i) => BindKeeps(s, i);
      case RegisterOut(i, authority) => OfferOutKeeps(s, i, authority);
      case RegisterIn(i) => OfferInKeeps(s, i);
      case RegisterReservedIn(i, id, synchronised, active) => OfferReservedKeeps(s, i, id, synchronised, active);
      case TableOnly(_) => TableOnlyKeeps(s, e);
      case BlockCallbacks(i) => BlockKeeps(s, i);
      case Wake(i) => WakeKeeps(s, i);
      case DropEntry(r) => DropKeeps(s, r);
      case Close(i) => CloseKeeps(s, i);
      case ReportClosed(i) => ReportKeeps(s, i);
      case BeginShutdown => ShutKeeps(s);
      case _ => RegistrationStepKeeps(s, e);
    }
  }

  lemma {:induction false} Reachable(local: Ski, events: seq<Event>)
    ensures Inv(Run(Initial(local), events))
  {
    if events != [] {
      Reachable(local, events[..|events| - 1]);
      StepKeeps(Run(Initial(local), events[..|events| - 1]), events[|events| - 1]);
    }
  }

  // ------------------------------------------------------------ main theorems

  /** A table entry whose registration has left outboundAttempts is on its way out:
      its context is about to be cancelled, or has been and CloseConnection follows,
      or it is closed and its report follows. */
  lemma NoEntryOutlivesItsRegistration(local: Ski, events: seq<Event>, i: nat)
    requires var s := Run(Initial(local), events);
             IsEntry(s, i) && s.cons[i].reg.Some? && s.cons[i].reg.value < |s.regs| && !s.regs[s.cons[i].reg.value].listed
    ensures var s := Run(Initial(local), events);
            var r := s.cons[i].reg.value;
            Enabled(s, Cancel(r)) || (s.regs[r].cancelled && Enabled(s, Close(i))) || Enabled(s, ReportClosed(i))
  {
    Reachable(local, events);
  }

  /** Nothing is due any more: no cancellation, no close, no report. */
  ghost predicate Settled(s: State) {
    && (forall r | 0 <= r < |s.regs| :: !s.regs[r].cancelDue)
    && (forall i | 0 <= i < |s.cons| ::
          && (s.cons[i].duty != Nothing || CancelledFor(s, s.cons[i].reg) ==> s.cons[i].closed)
          && (s.cons[i].closed ==> s.cons[i].reported))
  }

  /** Whatever revocations, gate changes, shutdowns, replacements and races happened:
      once nothing is due, the open registered connections are exactly the table
      entries, each outgoing one has a listed, uncancelled registration, and no
      tombstone is left. */
  lemma SettledTableIsExact(local: Ski, events: seq<Event>)
    requires Settled(Run(Initial(local), events))
    ensures var s := Run(Initial(local), events);
            && (forall i | 0 <= i < |s.cons| :: IsEntry(s, i) <==> s.cons[i].fate == Offered && !s.cons[i].closed)
            && (forall i | 0 <= i < |s.cons| && IsEntry(s, i) && s.cons[i].reg.Some? ::
                  && s.cons[i].reg.value < |s.regs|
                  && s.regs[s.cons[i].reg.value].listed && !s.regs[s.cons[i].reg.value].cancelled)
            && s.table.superseded == {}
  {
    Reachable(local, events);
    var s := Run(Initial(local), events);
    forall i | 0 <= i < |s.cons|
      ensures IsEntry(s, i) <==> s.cons[i].fate == Offered && !s.cons[i].closed
      ensures s.cons[i].beaten ==> s.cons[i].reported
      ensures IsEntry(s, i) && s.cons[i].reg.Some? ==>
                && s.cons[i].reg.value < |s.regs|
                && s.regs[s.cons[i].reg.value].listed && !s.regs[s.cons[i].reg.value].cancelled
    {
      assert ConSound(s.regs, s.cons, i);
      assert s.cons[i].fate == Offered && !s.cons[i].closed ==> Accounted(s, i);
    }
  }

  /** `outboundAttemptRegistrationOwnsCallbacks`: the check every leased callback makes
      before it reaches the hub. */
  predicate OwnsCallbacks(s: State, r: nat) {
    && r < |s.regs| && s.regs[r].conn.Some? && s.regs[r].conn.value < |s.cons|
    && s.regs[r].listed && !s.regs[r].cancelled
    && Key(s, s.regs[r].conn.value) !in s.table.superseded && IsEntry(s, s.regs[r].conn.value)
  }

  ghost predicate Lost(s: State, i: nat) {
    i < |s.cons| && s.cons[i].beaten && s.cons[i].reg.Some?
  }

  ghost predicate StillLost(con: Con, con': Con) {
    con'.beaten && con'.reg == con.reg && (con.drained ==> con'.drained)
  }

  lemma OfferKeepsLoss(s: State, e: Event, i: nat)
    requires Inv(s) && i < |s.cons| && s.cons[i].beaten
    requires Enabled(s, e) && (e.RegisterOut? || e.RegisterIn? || e.RegisterReservedIn?)
    ensures |s.cons| == |Effect(s, e).cons| && StillLost(s.cons[i], Effect(s, e).cons[i])
  {
    assert ConSound(s.regs, s.cons, i);
    assert e.i != i;
    OfferLeavesOthers(s, e, i);
  }

  lemma OfferLeavesOthers(s: State, e: Event, i: nat)
    requires i < |s.cons| && s.cons[i].beaten && Enabled(s, e) && (e.RegisterOut? || e.RegisterIn? || e.RegisterReservedIn?)
    requires e.i != i
    ensures |s.cons| == |Effect(s, e).cons| && StillLost(s.cons[i], Effect(s, e).cons[i])
  {
  }

  lemma LossIsFinal(s: State, e: Event, i: nat)
    requires Inv(s) && i < |s.cons| && s.cons[i].beaten
    ensures i < |Step(s, e).cons| && StillLost(s.cons[i], Step(s, e).cons[i])
  {
    if Enabled(s, e) && (e.RegisterOut? || e.RegisterIn? || e.RegisterReservedIn?) {
      OfferKeepsLoss(s, e, i);
    } else if Enabled(s, e) && !OnRegistrations(e) {
      OtherStepsKeepLoss(s, e, i);
    }
  }

  lemma OtherStepsKeepLoss(s: State, e: Event, i: nat)
    requires i < |s.cons| && s.cons[i].beaten && Enabled(s, e) && !OnRegistrations(e)
    requires !(e.RegisterOut? || e.RegisterIn? || e.RegisterReservedIn?)
    ensures i < |Effect(s, e).cons| && StillLost(s.cons[i], Effect(s, e).cons[i])
  {
  }

  lemma {:induction false} LossIsFinalOverRuns(s: State, events: seq<Event>, i: nat)
    requires Inv(s) && i < |s.cons| && s.cons[i].beaten
    ensures var s' := Run(s, events);
            Inv(s') && i < |s'.cons| && StillLost(s.cons[i], s'.cons[i])
  {
    if events != [] {
      LossIsFinalOverRuns(s, events[..|events| - 1], i);
      LossIsFinal(Run(s, events[..|events| - 1]), events[|events| - 1], i);
      StepKeeps(Run(s, events[..|events| - 1]), events[|events| - 1]);
    }
  }

  /** From the moment an outgoing connection has been replaced, none of its callbacks
      gets past the ownership check; and from the moment the replacing thread has
      found its registration and waited, none is running and none can start. */
  lemma LoserFallsSilent(local: Ski, before: seq<Event>, after: seq<Event>, i: nat)
    requires Lost(Run(Initial(local), before), i)
    ensures var s, s' := Run(Initial(local), before), Run(Run(Initial(local), before), after);
            var r := s.cons[i].reg.value;
            && !OwnsCallbacks(s', r) && r < |s'.regs|
            && (s.cons[i].drained ==> s'.regs[r].lease.active == 0 && L.Begin(s'.regs[r].lease).active == 0)
  {
    Reachable(local, before);
    var s := Run(Initial(local), before);
    LossIsFinalOverRuns(s, after, i);
    var s' := Run(s, after);
    assert ConSound(s'.regs, s'.cons, i) && LeaseOf(s'.regs, s'.cons[i]);
  }

  /** The one close report of a replaced connection is absorbed by its tombstone:
      whatever entry the table has by then stays, and nothing is published. */
  lemma LoserReportsInVain(local: Ski, events: seq<Event>, i: nat)
    requires var s := Run(Initial(local), events);
             i < |s.cons| && s.cons[i].beaten && Enabled(s, ReportClosed(i))
    ensures var s := Run(Initial(local), events);
            var s' := Step(s, ReportClosed(i));
            && ClaimVerdict(s.table, Key(s, i)) == Absorbed
            && s'.table.connections == s.table.connections && s'.table.reservations == s.table.reservations
            && !Enabled(s', ReportClosed(i))
  {
    Reachable(local, events);
  }
}
