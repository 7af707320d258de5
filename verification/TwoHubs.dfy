/**
 Two hubs with different SKIs that dial each other without pairing reservations.
 Each hub takes its own critical sections; the steps of both interleave freely. A
 link is one dialled transport with an end at each hub. Dial outcomes, slow
 upgrades and spontaneous closes are events.
 */
module TwoHubs {
  import opened Basics
  import opened C = ConnectionTable

  /** The hub with the lower SKI and the hub with the higher SKI. */
  datatype Side = Low | High

  function Other(s: Side): Side {
    if s == Low then High else Low
  }

  /** One end of a link.
      Absent: not established here (yet); Pending: transport up, nothing decided;
      Kept: a dial that passed the double-connection check; Live: registered;
      Refused: raw transport about to be closed; Doomed: a SHIP connection whose
      CloseConnection call is due; Closing: closed, its report is due; Gone. */
  datatype End = Absent | Pending | Kept | Live | Refused | Doomed | Closing | Gone

  /** What one hub knows; links are numbered in the order they were dialled. */
  datatype Node = Node(table: Table, dial: Option<nat>, ends: seq<End>)

  datatype Net = Net(low: Node, high: Node, diallers: seq<Side>) {
    function At(s: Side): Node {
      if s == Low then low else high
    }
    function With(s: Side, v: Node): Net {
      if s == Low then this.(low := v) else this.(high := v)
    }
    function Peer(s: Side): Ski {
      At(Other(s)).table.local
    }
  }

  function Blank(local: Ski): Node {
    Node(Table(local, false, map[], {}, map[], {}), None, [])
  }

  function Initial(low: Ski, high: Ski): Net {
    Net(Blank(low), Blank(high), [])
  }

  // ------------------------------------------------- the steps of one hub

  function SetEnd(v: Node, i: nat, e: End): Node
    requires i < |v.ends|
  {
    v.(ends := v.ends[i := e])
  }

  /** A replaced connection is about to be closed by the thread that replaced it. */
  function Doom(v: Node, loser: Option<Conn>): Node {
    if loser.Some? && loser.value.id < |v.ends| && v.ends[loser.value.id] == Live
    then SetEnd(v, loser.value.id, Doomed) else v
  }

  function CloseEntry(v: Node, c: Conn): Node {
    if c.id < |v.ends| && v.ends[c.id] == Live then SetEnd(v, c.id, Closing) else v
  }

  /** `keepThisConnection` for an outgoing connection. */
  function KeepCheck(v: Node, peer: Ski, i: nat): Node
    requires i < |v.ends|
  {
    if peer !in v.table.connections then SetEnd(v, i, Kept)
    else if !AtMost(v.table.local, peer) then SetEnd(CloseEntry(v, v.table.connections[peer]), i, Kept)
    else SetEnd(v, i, Refused)
  }

  function OutVerdict(v: Node, peer: Ski, i: nat): Verdict {
    OutgoingVerdict(v.table, Conn(i, peer), false, None)
  }

  function RegisterOut(v: Node, peer: Ski, i: nat): Node
    requires i < |v.ends|
  {
    var verdict := OutVerdict(v, peer, i);
    var v' := v.(table := RegisterOutgoing(v.table, Conn(i, peer), false, None));
    if verdict.Accepted? then SetEnd(Doom(v', verdict.loser), i, Live) else SetEnd(v', i, Doomed)
  }

  function InVerdict(v: Node, peer: Ski, i: nat): Verdict {
    InboundVerdict(v.table, Conn(i, peer))
  }

  function RegisterIn(v: Node, peer: Ski, i: nat): Node
    requires i < |v.ends|
  {
    var verdict := InVerdict(v, peer, i);
    var v' := v.(table := RegisterInbound(v.table, Conn(i, peer)));
    if verdict.Accepted? then SetEnd(Doom(v', verdict.loser), i, Live) else SetEnd(v', i, Refused)
  }

  function Report(v: Node, peer: Ski, i: nat): Node
    requires i < |v.ends|
  {
    SetEnd(v.(table := ClaimClosed(v.table, Conn(i, peer))), i, Gone)
  }

  // ------------------------------------------------------------- the network

  datatype Event =
    | StartDialling(side: Side)
    | Launch(side: Side)
    | Arrive(i: nat)
    | NeverArrives(i: nat)
    | Connected(i: nat)
    | DialFails(i: nat)
    | CheckKept(i: nat)
    | RegisterDial(i: nat)
    | RegisterArrival(i: nat)
    | CloseRefused(side: Side, i: nat)
    | CloseDoomed(side: Side, i: nat)
    | PeerClosed(side: Side, i: nat)
    | ReportClosed(side: Side, i: nat)
    | DiallingDone(side: Side)
    | Abort(side: Side, i: nat)
    | CloseLive(side: Side, i: nat)

  /** Dials and failures come from outside; every other event has to happen. */
  predicate Internal(e: Event) {
    !e.StartDialling? && !e.Launch? && !e.Abort? && !e.CloseLive?
  }

  predicate Unsettled(e: End) {
    e == Absent || e == Pending || e == Kept
  }

  predicate Shut(e: End) {
    e == Closing || e == Gone
  }

  predicate HasEnd(n: Net, s: Side, i: nat, e: End) {
    i < |n.diallers| && i < |n.At(s).ends| && n.At(s).ends[i] == e
  }

  /** The end of link `i` at its dialler, respectively at the hub that was dialled. */
  predicate DiallerHas(n: Net, i: nat, e: End) {
    i < |n.diallers| && HasEnd(n, n.diallers[i], i, e)
  }

  predicate ReachedHas(n: Net, i: nat, e: End) {
    i < |n.diallers| && HasEnd(n, Other(n.diallers[i]), i, e)
  }

  predicate DialOver(v: Node) {
    v.dial.None? || (v.dial.value < |v.ends| && !Unsettled(v.ends[v.dial.value]))
  }

  predicate Enabled(n: Net, e: Event) {
    match e
    case StartDialling(s) => MayDial(n.At(s).table, n.Peer(s))
    case Launch(s) => n.Peer(s) in n.At(s).table.initiating
                      && (n.At(s).dial.None? || HasEnd(n, s, n.At(s).dial.value, Gone))
    case Arrive(i) => ReachedHas(n, i, Absent)
    case NeverArrives(i) => ReachedHas(n, i, Absent)
    case Connected(i) => DiallerHas(n, i, Absent) && !ReachedHas(n, i, Absent)
    case DialFails(i) => DiallerHas(n, i, Absent)
    case CheckKept(i) => DiallerHas(n, i, Pending)
    case RegisterDial(i) => DiallerHas(n, i, Kept)
    case RegisterArrival(i) => ReachedHas(n, i, Pending)
    case CloseRefused(s, i) => HasEnd(n, s, i, Refused)
    case CloseDoomed(s, i) => HasEnd(n, s, i, Doomed)
    case PeerClosed(s, i) => HasEnd(n, s, i, Live) && (HasEnd(n, Other(s), i, Closing) || HasEnd(n, Other(s), i, Gone))
    case ReportClosed(s, i) => HasEnd(n, s, i, Closing)
    case DiallingDone(s) => n.Peer(s) in n.At(s).table.initiating && DialOver(n.At(s))
    case Abort(s, i) => HasEnd(n, s, i, Pending) || HasEnd(n, s, i, Kept)
    case CloseLive(s, i) => HasEnd(n, s, i, Live)
  }

  /** The hub that takes the step. */
  function Actor(n: Net, e: Event): Side {
    match e
    case Arrive(i) => if i < |n.diallers| then Other(n.diallers[i]) else Low
    case NeverArrives(i) => if i < |n.diallers| then Other(n.diallers[i]) else Low
    case RegisterArrival(i) => if i < |n.diallers| then Other(n.diallers[i]) else Low
    case Connected(i) => if i < |n.diallers| then n.diallers[i] else Low
    case DialFails(i) => if i < |n.diallers| then n.diallers[i] else Low
    case CheckKept(i) => if i < |n.diallers| then n.diallers[i] else Low
    case RegisterDial(i) => if i < |n.diallers| then n.diallers[i] else Low
    case _ => e.side
  }

  /** What the acting hub does, the creation of a link apart. */
  function Act(v: Node, peer: Ski, e: Event): Node
    requires !e.StartDialling? && !e.Launch? && !e.DiallingDone? ==> e.i < |v.ends|
  {
    match e
    case StartDialling(_) => v.(table := StartDial(v.table, peer), dial := None)
    case Launch(_) => v.(ends := v.ends + [Absent], dial := Some(|v.ends|))
    case DiallingDone(_) => v.(table := v.table.(initiating := v.table.initiating - {peer}), dial := None)
    case Arrive(i) => SetEnd(v, i, Pending)
    case NeverArrives(i) => SetEnd(v, i, Gone)
    case Connected(i) => SetEnd(v, i, Pending)
    case DialFails(i) => SetEnd(v, i, Gone)
    case CheckKept(i) => KeepCheck(v, peer, i)
    case RegisterDial(i) => RegisterOut(v, peer, i)
    case RegisterArrival(i) => RegisterIn(v, peer, i)
    case CloseRefused(_, i) => SetEnd(v, i, Gone)
    case CloseDoomed(_, i) => SetEnd(v, i, Closing)
    case PeerClosed(_, i) => SetEnd(v, i, Closing)
    case ReportClosed(_, i) => Report(v, peer, i)
    case Abort(_, i) => SetEnd(v, i, Gone)
    case CloseLive(_, i) => SetEnd(v, i, Closing)
  }

  function Step(n: Net, e: Event): Net {
    if !Enabled(n, e) then n
    else
      var s := Actor(n, e);
      var n' := n.With(s, Act(n.At(s), n.Peer(s), e));
      if e.Launch?
      then n'.With(Other(s), n'.At(Other(s)).(ends := n'.At(Other(s)).ends + [Absent])).(diallers := n.diallers + [s])
      else n'
  }

  function Run(n: Net, events: seq<Event>): Net {
    if events == [] then n else Step(Run(n, events[..|events| - 1]), events[|events| - 1])
  }

  // ------------------------------------------------------------ invariants

  /** A hub's table and the ends of its links agree. */
  ghost predicate TableSound(v: Node, peer: Ski) {
    && !v.table.shutdown && v.table.reservations == map[] && v.table.initiating <= {peer} && v.table.connections.Keys <= {peer}
    && (forall i | 0 <= i < |v.ends| :: v.ends[i] == Live ==> Entry(v.table, peer) == Some(Conn(i, peer)))
    && (peer in v.table.connections ==>
          var c := v.table.connections[peer];
          c.ski == peer && c.id < |v.ends| && (v.ends[c.id] == Live || v.ends[c.id] == Closing) && c !in v.table.superseded)
    && (forall c | c in v.table.superseded ::
          c.ski == peer && c.id < |v.ends| && (v.ends[c.id] == Doomed || v.ends[c.id] == Closing))
  }

  /** A hub dials one link at a time, and only its current dial is unsettled. */
  ghost predicate DialSound(v: Node, s: Side, peer: Ski, diallers: seq<Side>) {
    && |v.ends| == |diallers|
    && (v.dial.Some? ==> peer in v.table.initiating && v.dial.value < |diallers| && diallers[v.dial.value] == s
                         && forall j | v.dial.value < j < |diallers| :: diallers[j] != s)
    && (forall i | 0 <= i < |diallers| && diallers[i] == s :: Unsettled(v.ends[i]) ==> v.dial == Some(i))
    && (forall i | 0 <= i < |diallers| && diallers[i] != s :: v.ends[i] != Kept)
  }

  predicate Newest(i: nat, s: Side, diallers: seq<Side>) {
    i < |diallers| && diallers[i] == s && forall j | i < j < |diallers| :: diallers[j] != s
  }

  /** The higher hub never holds an entry that its own dial could meet, and a link it
      dialled is open there only while it is its newest. */
  ghost predicate HighSound(v: Node, peer: Ski, diallers: seq<Side>) {
    && |v.ends| == |diallers|
    && (peer in v.table.initiating && peer in v.table.connections ==> v.dial == Some(v.table.connections[peer].id))
    && (forall i | 0 <= i < |diallers| && diallers[i] == High :: v.ends[i] != Doomed && v.ends[i] != Refused)
    && (forall i | 0 <= i < |diallers| && diallers[i] == High && !Shut(v.ends[i]) :: Newest(i, High, diallers))
  }

  ghost predicate Inv(n: Net) {
    && AtMost(n.low.table.local, n.high.table.local) && !AtMost(n.high.table.local, n.low.table.local)
    && TableSound(n.low, n.Peer(Low)) && TableSound(n.high, n.Peer(High))
    && DialSound(n.low, Low, n.Peer(Low), n.diallers) && DialSound(n.high, High, n.Peer(High), n.diallers)
    && HighSound(n.high, n.Peer(High), n.diallers)
  }

  lemma SettleKeepsTable(v: Node, peer: Ski, i: nat, e: End)
    requires TableSound(v, peer) && i < |v.ends| && e != Live
    requires v.ends[i] == Live || v.ends[i] == Doomed ==> e == Closing
    requires v.ends[i] != Closing
    ensures TableSound(SetEnd(v, i, e), peer)
  {
  }

  /** A new entry displaces the old one. */
  lemma InstallKeepsTable(v: Node, peer: Ski, i: nat)
    requires TableSound(v, peer) && i < |v.ends| && Unsettled(v.ends[i])
    ensures TableSound(SetEnd(Doom(v.(table := C.Install(v.table, Conn(i, peer))), Entry(v.table, peer)), i, Live), peer)
  {
  }

  lemma KeepCheckKeepsTable(v: Node, peer: Ski, i: nat)
    requires TableSound(v, peer) && i < |v.ends| && v.ends[i] == Pending
    ensures TableSound(KeepCheck(v, peer, i), peer)
  {
  }

  lemma RegisterOutKeepsTable(v: Node, peer: Ski, i: nat)
    requires TableSound(v, peer) && i < |v.ends| && v.ends[i] == Kept
    ensures TableSound(RegisterOut(v, peer, i), peer)
  {
    InstallKeepsTable(v, peer, i);
  }

  lemma RegisterInKeepsTable(v: Node, peer: Ski, i: nat)
    requires TableSound(v, peer) && i < |v.ends| && v.ends[i] == Pending
    ensures TableSound(RegisterIn(v, peer, i), peer)
  {
    InstallKeepsTable(v, peer, i);
    SettleKeepsTable(v, peer, i, Refused);
  }

  lemma ReportKeepsTable(v: Node, peer: Ski, i: nat)
    requires TableSound(v, peer) && i < |v.ends| && v.ends[i] == Closing
    ensures TableSound(Report(v, peer, i), peer)
  {
  }

  // ------------------------------------------------------ every step keeps it

  function Rank(e: End): nat {
    match e
    case Absent => 6 case Pending => 5 case Kept => 4 case Live => 3
    case Refused => 2 case Doomed => 2 case Closing => 1 case Gone => 0
  }

  predicate MovesLink(e: Event) {
    !e.StartDialling? && !e.Launch? && !e.DiallingDone?
  }

  /** The ends of a hub only ever move forward, and the link acted on does move. */
  ghost predicate Forward(v: Node, v': Node, i: nat) {
    && i < |v.ends| == |v'.ends| && v'.dial == v.dial && v'.table.initiating == v.table.initiating
    && v'.table.local == v.table.local
    && Rank(v'.ends[i]) < Rank(v.ends[i])
    && (forall j | 0 <= j < |v.ends| && j != i :: v'.ends[j] == v.ends[j] || (v.ends[j] == Live && Rank(v'.ends[j]) < 3))
  }

  lemma RegisterOutMovesForward(v: Node, peer: Ski, i: nat)
    requires TableSound(v, peer) && i < |v.ends| && v.ends[i] == Kept
    ensures Forward(v, RegisterOut(v, peer, i), i)
  {
  }

  lemma RegisterInMovesForward(v: Node, peer: Ski, i: nat)
    requires TableSound(v, peer) && i < |v.ends| && v.ends[i] == Pending
    ensures Forward(v, RegisterIn(v, peer, i), i)
  {
  }

  lemma KeepCheckMovesForward(v: Node, peer: Ski, i: nat)
    requires TableSound(v, peer) && i < |v.ends| && v.ends[i] == Pending
    ensures Forward(v, KeepCheck(v, peer, i), i)
  {
  }

  lemma ReportMovesForward(v: Node, peer: Ski, i: nat)
    requires i < |v.ends| && v.ends[i] == Closing
    ensures Forward(v, Report(v, peer, i), i)
  {
  }

  lemma SettleMovesForward(v: Node, i: nat, e: End)
    requires i < |v.ends| && Rank(e) < Rank(v.ends[i])
    ensures Forward(v, SetEnd(v, i, e), i)
  {
  }

  /** The steps that are not registrations just give the end of link `i` a new value. */
  lemma PlainAct(n: Net, e: Event)
    requires Enabled(n, e) && MovesLink(e) && !e.CheckKept? && !e.RegisterDial? && !e.RegisterArrival? && !e.ReportClosed?
    ensures var v, v' := n.At(Actor(n, e)), Act(n.At(Actor(n, e)), n.Peer(Actor(n, e)), e);
            && e.i < |v.ends| == |v'.ends| && v' == SetEnd(v, e.i, v'.ends[e.i]) && Rank(v'.ends[e.i]) < Rank(v.ends[e.i])
            && v.ends[e.i] != Closing && v'.ends[e.i] != Live && v'.ends[e.i] != Kept
            && v'.ends[e.i] != Refused && v'.ends[e.i] != Doomed
            && (v.ends[e.i] == Live || v.ends[e.i] == Doomed ==> v'.ends[e.i] == Closing)
  {
  }

  lemma ActKeepsTable(n: Net, e: Event)
    requires Enabled(n, e) && MovesLink(e) && TableSound(n.At(Actor(n, e)), n.Peer(Actor(n, e)))
    ensures var s := Actor(n, e);
            var v, v' := n.At(s), Act(n.At(s), n.Peer(s), e);
            && TableSound(v', n.Peer(s)) && Forward(v, v', e.i)
  {
    var s := Actor(n, e);
    var v, peer := n.At(s), n.Peer(s);
    if e.CheckKept? {
      KeepCheckMovesForward(v, peer, e.i);
      KeepCheckKeepsTable(v, peer, e.i);
    } else if e.RegisterDial? {
      RegisterOutMovesForward(v, peer, e.i);
      RegisterOutKeepsTable(v, peer, e.i);
    } else if e.RegisterArrival? {
      RegisterInMovesForward(v, peer, e.i);
      RegisterInKeepsTable(v, peer, e.i);
    } else if e.ReportClosed? {
      ReportMovesForward(v, peer, e.i);
      ReportKeepsTable(v, peer, e.i);
    } else {
      PlainAct(n, e);
      SettleMovesForward(v, e.i, Act(v, peer, e).ends[e.i]);
      SettleKeepsTable(v, peer, e.i, Act(v, peer, e).ends[e.i]);
    }
  }

  lemma ForwardKeepsDial(v: Node, v': Node, i: nat, s: Side, peer: Ski, diallers: seq<Side>)
    requires DialSound(v, s, peer, diallers) && Forward(v, v', i) && (v'.ends[i] == Kept ==> diallers[i] == s)
    ensures DialSound(v', s, peer, diallers)
  {
  }

  /** The higher hub's dial meets an empty table, so the double-connection check and
      the registration both succeed and replace nothing. */
  lemma HighDialUnopposed(n: Net, i: nat)
    requires Inv(n) && i < |n.diallers| && n.diallers[i] == High
    requires n.high.ends[i] == Pending || n.high.ends[i] == Kept
    ensures n.Peer(High) !in n.high.table.connections
    ensures KeepCheck(n.high, n.Peer(High), i) == SetEnd(n.high, i, Kept)
    ensures OutVerdict(n.high, n.Peer(High), i) == Accepted(None)
  {
  }

  /** The higher hub accepts an arrival only into an empty table. */
  lemma HighNeverReplaces(n: Net, i: nat)
    requires Inv(n)
    ensures var verdict := InVerdict(n.high, n.Peer(High), i);
            verdict == Accepted(None) || verdict == Rejected
    ensures n.Peer(High) in n.high.table.initiating ==> InVerdict(n.high, n.Peer(High), i) == Rejected
  {
  }

  lemma ActKeepsHigh(n: Net, e: Event)
    requires Inv(n) && Enabled(n, e) && MovesLink(e) && Actor(n, e) == High
    ensures HighSound(Act(n.high, n.Peer(High), e), n.Peer(High), n.diallers)
  {
    var v, peer := n.high, n.Peer(High);
    if e.CheckKept? || e.RegisterDial? {
      HighDialUnopposed(n, e.i);
    } else if e.RegisterArrival? {
      HighNeverReplaces(n, e.i);
    } else if !e.ReportClosed? {
      PlainAct(n, e);
    }
  }

  lemma KeptIsDialled(n: Net, e: Event)
    requires Enabled(n, e) && MovesLink(e)
    ensures var v' := Act(n.At(Actor(n, e)), n.Peer(Actor(n, e)), e);
            e.i < |v'.ends| && (v'.ends[e.i] == Kept ==> n.diallers[e.i] == Actor(n, e))
  {
  }

  lemma MoveKeeps(n: Net, e: Event)
    requires Inv(n) && Enabled(n, e) && MovesLink(e)
    ensures Inv(Step(n, e))
  {
    var s := Actor(n, e);
    ActKeepsTable(n, e);
    KeptIsDialled(n, e);
    ForwardKeepsDial(n.At(s), Act(n.At(s), n.Peer(s), e), e.i, s, n.Peer(s), n.diallers);
    if s == High {
      ActKeepsHigh(n, e);
    }
  }

  lemma FlagKeeps(n: Net, e: Event)
    requires Inv(n) && Enabled(n, e) && (e.StartDialling? || e.DiallingDone?)
    ensures Inv(Step(n, e))
  {
  }

  lemma LaunchKeepsDial(v: Node, s: Side, caller: Side, peer: Ski, diallers: seq<Side>)
    requires DialSound(v, s, peer, diallers) && TableSound(v, peer)
    requires caller == s ==> peer in v.table.initiating && (v.dial.None? || v.ends[v.dial.value] == Gone)
    ensures var v' := v.(ends := v.ends + [Absent], dial := if caller == s then Some(|v.ends|) else v.dial);
            DialSound(v', s, peer, diallers + [caller]) && TableSound(v', peer)
  {
    var v' := v.(ends := v.ends + [Absent], dial := if caller == s then Some(|v.ends|) else v.dial);
    forall i | 0 <= i < |v.ends| ensures v'.ends[i] == v.ends[i] && (diallers + [caller])[i] == diallers[i] {}
  }

  /** The higher hub dials again only when the link it dialled last is shut. */
  lemma HighDialsAnew(n: Net)
    requires Inv(n) && Enabled(n, Launch(High))
    ensures forall i | 0 <= i < |n.diallers| && n.diallers[i] == High :: Shut(n.high.ends[i])
    ensures n.Peer(High) !in n.high.table.connections
  {
  }

  lemma NewestAppend(i: nat, diallers: seq<Side>, s: Side)
    requires Newest(i, High, diallers) && s == Low
    ensures Newest(i, High, diallers + [s])
  {
  }

  lemma LaunchKeepsHigh(n: Net, s: Side)
    requires Inv(n) && Enabled(n, Launch(s))
    ensures HighSound(Step(n, Launch(s)).high, n.Peer(High), n.diallers + [s])
  {
    var v, v' := n.high, Step(n, Launch(s)).high;
    forall i | 0 <= i < |v.ends| ensures v'.ends[i] == v.ends[i] && (n.diallers + [s])[i] == n.diallers[i] {}
    if s == High {
      HighDialsAnew(n);
    } else {
      forall i | 0 <= i < |n.diallers| && n.diallers[i] == High && !Shut(v.ends[i]) ensures Newest(i, High, n.diallers + [s]) {
        NewestAppend(i, n.diallers, s);
      }
    }
  }

  lemma StepKeeps(n: Net, e: Event)
    requires Inv(n)
    ensures Inv(Step(n, e))
  {
    if Enabled(n, e) {
      if e.Launch? {
        LaunchKeepsDial(n.low, Low, e.side, n.Peer(Low), n.diallers);
        LaunchKeepsDial(n.high, High, e.side, n.Peer(High), n.diallers);
        LaunchKeepsHigh(n, e.side);
      } else if MovesLink(e) {
        MoveKeeps(n, e);
      } else {
        FlagKeeps(n, e);
      }
    }
  }

  lemma {:induction false} Reachable(low: Ski, high: Ski, events: seq<Event>)
    requires AtMost(low, high) && low != high
    ensures Inv(Run(Initial(low, high), events))
  {
    OrderTotal(low, high);
    if events != [] {
      Reachable(low, high, events[..|events| - 1]);
      StepKeeps(Run(Initial(low, high), events[..|events| - 1]), events[|events| - 1]);
    }
  }
}
