/**
 What double-connection arbitration achieves between two hubs: they settle, and
 when they have settled they hold the two ends of one connection or nothing.
 */
module TwoHubsAgreement {
  import opened Basics
  import opened C = ConnectionTable
  import opened TwoHubs

  /** Nothing is left to happen unless a hub dials again or a connection fails. */
  ghost predicate Quiescent(n: Net) {
    forall e: TwoHubs.Event :: Internal(e) ==> !Enabled(n, e)
  }

  /** Both tables name the same link or neither names one, and no tombstone is left. */
  ghost predicate Agreed(n: Net) {
    var l, h := Entry(n.low.table, n.Peer(Low)), Entry(n.high.table, n.Peer(High));
    && l.Some? == h.Some? && (l.Some? ==> l.value.id == h.value.id)
    && n.low.table.superseded == {} && n.high.table.superseded == {}
    && n.low.table.initiating == {} && n.high.table.initiating == {}
  }

  /** The internal step that is due at an end which is neither live nor gone. */
  function Due(n: Net, s: Side, i: nat): TwoHubs.Event
    requires i < |n.diallers| == |n.At(s).ends|
  {
    var dialled := n.diallers[i] == s;
    match n.At(s).ends[i]
    case Absent => if dialled then DialFails(i) else Arrive(i)
    case Pending => if dialled then CheckKept(i) else RegisterArrival(i)
    case Kept => RegisterDial(i)
    case Live => PeerClosed(s, i)
    case Refused => CloseRefused(s, i)
    case Doomed => CloseDoomed(s, i)
    case Closing => ReportClosed(s, i)
    case Gone => DiallingDone(s)
  }

  lemma DueIsEnabled(n: Net, s: Side, i: nat)
    requires Inv(n) && i < |n.diallers|
    requires n.At(s).ends[i] != Gone
    requires n.At(s).ends[i] == Live ==> Shut(n.At(Other(s)).ends[i])
    ensures Internal(Due(n, s, i)) && Enabled(n, Due(n, s, i))
  {
  }

  lemma QuietEnds(n: Net, s: Side, i: nat)
    requires Inv(n) && Quiescent(n) && i < |n.diallers|
    ensures n.At(s).ends[i] == Live || n.At(s).ends[i] == Gone
    ensures n.At(s).ends[i] == Live ==> !Shut(n.At(Other(s)).ends[i])
  {
    if n.At(s).ends[i] != Gone && (n.At(s).ends[i] == Live ==> Shut(n.At(Other(s)).ends[i])) {
      DueIsEnabled(n, s, i);
    }
  }

  lemma QuietHub(n: Net, s: Side)
    requires Inv(n) && Quiescent(n)
    ensures n.At(s).table.superseded == {} && n.At(s).table.initiating == {}
    ensures n.Peer(s) in n.At(s).table.connections ==>
              var c := n.At(s).table.connections[n.Peer(s)];
              c.id < |n.diallers| && n.At(s).ends[c.id] == Live && n.At(Other(s)).ends[c.id] == Live
  {
    var v := n.At(s);
    if c :| c in v.table.superseded {
      QuietEnds(n, s, c.id);
      assert false;
    }
    if n.Peer(s) in v.table.connections {
      QuietEnds(n, s, v.table.connections[n.Peer(s)].id);
      QuietEnds(n, Other(s), v.table.connections[n.Peer(s)].id);
    }
    assert !Enabled(n, DiallingDone(s));
    if v.dial.Some? {
      QuietEnds(n, s, v.dial.value);
    }
  }

  lemma QuietAgreed(n: Net)
    requires Inv(n) && Quiescent(n)
    ensures Agreed(n)
  {
    QuietHub(n, Low);
    QuietHub(n, High);
  }

  /** In every quiescent state of every run the two hubs agree. */
  lemma QuiescentAgreement(low: Ski, high: Ski, events: seq<TwoHubs.Event>)
    requires AtMost(low, high) && low != high && Quiescent(TwoHubs.Run(Initial(low, high), events))
    ensures Agreed(TwoHubs.Run(Initial(low, high), events))
  {
    Reachable(low, high, events);
    QuietAgreed(TwoHubs.Run(Initial(low, high), events));
  }

  // -------------------------------------------------------------- settling

  function Ranks(ends: seq<End>): nat {
    if ends == [] then 0 else Ranks(ends[..|ends| - 1]) + Rank(ends[|ends| - 1])
  }

  function Work(v: Node): nat {
    Ranks(v.ends) + |v.table.initiating|
  }

  /** How many internal steps are left at most. */
  function Remaining(n: Net): nat {
    Work(n.low) + Work(n.high)
  }

  lemma {:induction false} RanksMonotone(a: seq<End>, b: seq<End>)
    requires |a| == |b| && forall i | 0 <= i < |a| :: Rank(b[i]) <= Rank(a[i])
    ensures Ranks(b) <= Ranks(a)
    ensures (exists i :: 0 <= i < |a| && Rank(b[i]) < Rank(a[i])) ==> Ranks(b) < Ranks(a)
  {
    if a != [] {
      RanksMonotone(a[..|a| - 1], b[..|b| - 1]);
      if i :| 0 <= i < |a| - 1 && Rank(b[i]) < Rank(a[i]) {
        assert Rank(b[..|b| - 1][i]) < Rank(a[..|a| - 1][i]);
      }
    }
  }

  lemma WorkShrinks(v: Node, v': Node, i: nat)
    requires Forward(v, v', i)
    ensures Work(v') < Work(v)
  {
    RanksMonotone(v.ends, v'.ends);
  }

  lemma InternalStepsConsume(n: Net, e: TwoHubs.Event)
    requires Inv(n) && Internal(e) && Enabled(n, e)
    ensures Remaining(TwoHubs.Step(n, e)) < Remaining(n)
  {
    var s := Actor(n, e);
    if MovesLink(e) {
      ActKeepsTable(n, e);
      WorkShrinks(n.At(s), Act(n.At(s), n.Peer(s), e), e.i);
    } else {
      assert e == DiallingDone(s);
      assert n.At(s).table.initiating == {n.Peer(s)};
    }
  }

  /** Every event is internal and takes effect. */
  ghost predicate Works(n: Net, events: seq<TwoHubs.Event>) {
    forall i | 0 <= i < |events| :: Internal(events[i]) && Enabled(TwoHubs.Run(n, events[..i]), events[i])
  }

  lemma WorksBefore(n: Net, events: seq<TwoHubs.Event>)
    requires Works(n, events) && events != []
    ensures var front, e := events[..|events| - 1], events[|events| - 1];
            Works(n, front) && Internal(e) && Enabled(TwoHubs.Run(n, front), e)
  {
    var front := events[..|events| - 1];
    forall i | 0 <= i < |front| ensures Internal(front[i]) && Enabled(TwoHubs.Run(n, front[..i]), front[i]) {
      assert front[..i] == events[..i];
    }
  }

  /** No run of internal steps goes on for ever: its length is bounded. */
  lemma {:induction false} SettlingIsBounded(n: Net, events: seq<TwoHubs.Event>)
    requires Inv(n) && Works(n, events)
    ensures Inv(TwoHubs.Run(n, events))
    ensures |events| + Remaining(TwoHubs.Run(n, events)) <= Remaining(n)
  {
    if events != [] {
      var front, e := events[..|events| - 1], events[|events| - 1];
      WorksBefore(n, events);
      SettlingIsBounded(n, front);
      InternalStepsConsume(TwoHubs.Run(n, front), e);
      StepKeeps(TwoHubs.Run(n, front), e);
    }
  }

  lemma WorksOn(n: Net, events: seq<TwoHubs.Event>, e: TwoHubs.Event)
    requires Works(n, events) && Internal(e) && Enabled(TwoHubs.Run(n, events), e)
    ensures Works(n, events + [e]) && TwoHubs.Run(n, events + [e]) == TwoHubs.Step(TwoHubs.Run(n, events), e)
  {
    var all := events + [e];
    assert all[..|events|] == events;
    forall i | 0 <= i < |all| ensures Internal(all[i]) && Enabled(TwoHubs.Run(n, all[..i]), all[i]) {
      if i < |events| {
        assert all[..i] == events[..i];
      }
    }
  }

  lemma OneStepOn(n: Net, events: seq<TwoHubs.Event>, e: TwoHubs.Event)
    requires Inv(n) && Works(n, events) && Internal(e) && Enabled(TwoHubs.Run(n, events), e)
    ensures Works(n, events + [e]) && |events + [e]| <= Remaining(n)
  {
    WorksOn(n, events, e);
    SettlingIsBounded(n, events + [e]);
  }

  lemma SettledIfQuiet(n: Net, events: seq<TwoHubs.Event>)
    requires Inv(n) && Works(n, events)
    requires forall e: TwoHubs.Event | Internal(e) :: !Enabled(TwoHubs.Run(n, events), e)
    ensures Quiescent(TwoHubs.Run(n, events)) && Agreed(TwoHubs.Run(n, events))
  {
    SettlingIsBounded(n, events);
    QuietAgreed(TwoHubs.Run(n, events));
  }

  /** Whatever internal steps were taken first, the hubs can still settle, and then
      they agree. With the bound above: every maximal internal run ends in agreement. */
  lemma {:induction false} AlwaysSettles(n: Net, events: seq<TwoHubs.Event>) returns (more: seq<TwoHubs.Event>)
    requires Inv(n) && Works(n, events)
    ensures Works(n, more) && |events| <= |more| && more[..|events|] == events
    ensures Quiescent(TwoHubs.Run(n, more)) && Agreed(TwoHubs.Run(n, more))
    decreases Remaining(n) - |events|
  {
    if e: TwoHubs.Event :| Internal(e) && Enabled(TwoHubs.Run(n, events), e) {
      OneStepOn(n, events, e);
      more := AlwaysSettles(n, events + [e]);
      assert more[..|events|] == more[..|events + [e]|][..|events|];
    } else {
      more := events;
      SettledIfQuiet(n, events);
    }
  }

  // ------------------------------------------------------- who wins, and why

  /** A step makes a hub give up a link that was still in use there. */
  predicate GivesUp(n: Net, e: TwoHubs.Event, s: Side, j: nat) {
    j < |n.diallers| && GivenUp(n.At(s), TwoHubs.Step(n, e).At(s), j)
  }

  predicate GivenUp(v: Node, v': Node, j: nat) {
    && j < |v.ends| && j < |v'.ends|
    && Rank(v.ends[j]) >= 3 && (v'.ends[j] == Refused || v'.ends[j] == Doomed)
  }

  predicate Registers(e: TwoHubs.Event) {
    e.CheckKept? || e.RegisterDial? || e.RegisterArrival?
  }

  lemma OtherHubKeepsEnds(n: Net, e: TwoHubs.Event, s: Side, j: nat)
    requires Inv(n) && !(Enabled(n, e) && s == Actor(n, e)) && j < |n.diallers|
    ensures j < |TwoHubs.Step(n, e).At(s).ends| && TwoHubs.Step(n, e).At(s).ends[j] == n.At(s).ends[j]
  {
  }

  lemma DiallingKeepsEnds(n: Net, e: TwoHubs.Event, j: nat)
    requires Inv(n) && Enabled(n, e) && !MovesLink(e) && j < |n.diallers|
    ensures var s := Actor(n, e);
            j < |Act(n.At(s), n.Peer(s), e).ends| && Act(n.At(s), n.Peer(s), e).ends[j] == n.At(s).ends[j]
  {
  }

  lemma ActGivesUpNothing(n: Net, e: TwoHubs.Event, j: nat)
    requires Inv(n) && !Registers(e) && Enabled(n, e) && j < |n.diallers|
    ensures var v, v' := n.At(Actor(n, e)), Act(n.At(Actor(n, e)), n.Peer(Actor(n, e)), e);
            !GivenUp(v, v', j)
  {
    var s := Actor(n, e);
    if e.ReportClosed? {
      ReportMovesForward(n.At(s), n.Peer(s), e.i);
    } else if MovesLink(e) {
      PlainAct(n, e);
    } else {
      DiallingKeepsEnds(n, e, j);
    }
  }

  lemma ActorActs(n: Net, e: TwoHubs.Event)
    requires Enabled(n, e)
    ensures TwoHubs.Step(n, e).At(Actor(n, e)) == Act(n.At(Actor(n, e)), n.Peer(Actor(n, e)), e)
  {
  }

  lemma OnlyRegistrationsGiveUp(n: Net, e: TwoHubs.Event, s: Side, j: nat)
    requires Inv(n) && !(Registers(e) && Enabled(n, e) && s == Actor(n, e)) && j < |n.diallers|
    ensures !GivesUp(n, e, s, j)
  {
    if !(Enabled(n, e) && s == Actor(n, e)) {
      OtherHubKeepsEnds(n, e, s, j);
    } else {
      ActorActs(n, e);
      ActGivesUpNothing(n, e, j);
    }
  }

  lemma HighGivesUpNothingItDialled(n: Net, e: TwoHubs.Event, j: nat)
    requires Inv(n) && j < |n.diallers| && n.diallers[j] == High
    ensures !GivesUp(n, e, High, j)
  {
    if !(Registers(e) && Enabled(n, e) && High == Actor(n, e)) {
      OnlyRegistrationsGiveUp(n, e, High, j);
    } else if e.RegisterArrival? {
      HighNeverReplaces(n, e.i);
    } else {
      HighDialUnopposed(n, e.i);
    }
  }

  /** A dial of the lower hub gives way to any entry, so it replaces nothing. */
  lemma LowDialReplacesNothing(n: Net, e: TwoHubs.Event, j: nat)
    requires Inv(n) && j < |n.diallers| && n.diallers[j] == High && Actor(n, e) == Low && !e.RegisterArrival?
    ensures !GivesUp(n, e, Low, j)
  {
    if !(Registers(e) && Enabled(n, e)) {
      OnlyRegistrationsGiveUp(n, e, Low, j);
    }
  }

  lemma ArrivalReplaces(n: Net, i: nat, j: nat)
    requires Inv(n) && GivesUp(n, RegisterArrival(i), Low, j) && Enabled(n, RegisterArrival(i))
    ensures i == j && n.diallers[i] == High ==> |Superseded(n.low.table, n.Peer(Low))| >= MAX_SUPERSEDED
  {
  }

  /** Arbitration gives up a link dialled by the higher hub only at the lower hub, and
      only for another link dialled by the higher hub, or when 128 superseded
      connections have yet to report. As long as the higher hub still has one of the
      two open, the winner is the newer dial exactly when it is the one open there. */
  lemma HigherDialYieldsOnlyToHigher(n: Net, e: TwoHubs.Event, s: Side, j: nat)
    requires Inv(n) && GivesUp(n, e, s, j) && n.diallers[j] == High
    ensures s == Low && e.RegisterArrival? && e.i < |n.diallers| && n.diallers[e.i] == High
    ensures e.i == j ==> |Superseded(n.low.table, n.Peer(Low))| >= MAX_SUPERSEDED
    ensures e.i != j && !(Shut(n.high.ends[e.i]) && Shut(n.high.ends[j])) ==> (j < e.i <==> !Shut(n.high.ends[e.i]))
  {
    HighGivesUpNothingItDialled(n, e, j);
    if !(Registers(e) && Enabled(n, e) && s == Actor(n, e)) {
      OnlyRegistrationsGiveUp(n, e, s, j);
    } else if !e.RegisterArrival? {
      LowDialReplacesNothing(n, e, j);
    } else {
      ArrivalReplaces(n, e.i, j);
    }
  }

  // ---------------------------------------------------- an older dial can win

  const LOW_TABLE := Table("a", false, map[], {}, map[], {})
  const LOW_TAKEN := Table("a", false, map["b" := Conn(1, "b")], {}, map[], {})
  const HIGH_TABLE := Table("b", false, map[], {"a"}, map[], {})
  const TWO_DIALS := Net(Node(LOW_TABLE, None, [Absent, Absent]), Node(HIGH_TABLE, Some(1), [Gone, Absent]), [High, High])
  const TAKEN := Net(Node(LOW_TAKEN, None, [Pending, Live]), Node(HIGH_TABLE, Some(1), [Gone, Pending]), [High, High])

  lemma Extend(n: Net, events: seq<TwoHubs.Event>, e: TwoHubs.Event)
    ensures TwoHubs.Run(n, events + [e]) == TwoHubs.Step(TwoHubs.Run(n, events), e)
  {
    assert (events + [e])[..|events|] == events;
  }

  lemma FirstDial()
    ensures TwoHubs.Step(TwoHubs.Step(Initial("a", "b"), StartDialling(High)), Launch(High))
         == Net(Node(LOW_TABLE, None, [Absent]), Node(HIGH_TABLE, Some(0), [Absent]), [High])
  {
    assert TwoHubs.Step(Initial("a", "b"), StartDialling(High)) == Net(Blank("a"), Node(HIGH_TABLE, None, []), []);
  }

  lemma SecondDial(n: Net)
    requires n == Net(Node(LOW_TABLE, None, [Absent]), Node(HIGH_TABLE, Some(0), [Absent]), [High])
    ensures TwoHubs.Step(TwoHubs.Step(n, DialFails(0)), Launch(High)) == TWO_DIALS
  {
    assert TwoHubs.Step(n, DialFails(0)) == n.(high := Node(HIGH_TABLE, Some(0), [Gone]));
  }

  lemma SecondConnects(n: Net)
    requires n == TWO_DIALS
    ensures TwoHubs.Step(TwoHubs.Step(n, Arrive(1)), Connected(1))
         == Net(Node(LOW_TABLE, None, [Absent, Pending]), Node(HIGH_TABLE, Some(1), [Gone, Pending]), [High, High])
  {
    assert TwoHubs.Step(n, Arrive(1)) == n.(low := Node(LOW_TABLE, None, [Absent, Pending]));
  }

  lemma SecondRegisters(n: Net)
    requires n == Net(Node(LOW_TABLE, None, [Absent, Pending]), Node(HIGH_TABLE, Some(1), [Gone, Pending]), [High, High])
    ensures TwoHubs.Step(TwoHubs.Step(n, RegisterArrival(1)), Arrive(0)) == TAKEN
  {
    assert RegisterInbound(LOW_TABLE, Conn(1, "b")) == LOW_TAKEN;
    assert TwoHubs.Step(n, RegisterArrival(1)) == n.(low := Node(LOW_TAKEN, None, [Absent, Live]));
  }

  function LateUpgrade(): seq<TwoHubs.Event> {
    [] + [StartDialling(High)] + [Launch(High)] + [DialFails(0)] + [Launch(High)]
    + [Arrive(1)] + [Connected(1)] + [RegisterArrival(1)] + [Arrive(0)]
  }

  lemma LateUpgradeRun()
    ensures TwoHubs.Run(Initial("a", "b"), LateUpgrade()) == TAKEN
  {
    var n := Initial("a", "b");
    var e0: seq<TwoHubs.Event> := [];
    var e1 := e0 + [StartDialling(High)];
    var e2 := e1 + [Launch(High)];
    var e3 := e2 + [DialFails(0)];
    var e4 := e3 + [Launch(High)];
    var e5 := e4 + [Arrive(1)];
    var e6 := e5 + [Connected(1)];
    var e7 := e6 + [RegisterArrival(1)];
    Extend(n, e0, StartDialling(High));
    Extend(n, e1, Launch(High));
    Extend(n, e2, DialFails(0));
    Extend(n, e3, Launch(High));
    Extend(n, e4, Arrive(1));
    Extend(n, e5, Connected(1));
    Extend(n, e6, RegisterArrival(1));
    Extend(n, e7, Arrive(0));
    FirstDial();
    SecondDial(TwoHubs.Run(n, e2));
    SecondConnects(TwoHubs.Run(n, e4));
    SecondRegisters(TwoHubs.Run(n, e6));
  }

  /** The higher hub's first dial times out, its second one reaches the lower hub and
      is registered there, and only then does the first upgrade complete: the older
      dial, already dead at the hub that made it, replaces the newer one. */
  lemma OlderDialCanWin()
    ensures var n := TwoHubs.Run(Initial("a", "b"), LateUpgrade());
            && n.diallers == [High, High] && GivesUp(n, RegisterArrival(0), Low, 1)
            && n.high.ends == [Gone, Pending]
  {
    LateUpgradeRun();
    assert !AtMost("b", "a");
    assert Superseded(LOW_TAKEN, "b") == {};
  }

  // -------------------------------------------------- a secured dial survives

  /** The lower hub has registered link `i`, the higher hub that dialled it still has
      it open, and no other dial of the higher hub can still arrive. */
  ghost predicate Secured(n: Net, i: nat) {
    && i < |n.diallers| && n.diallers[i] == High && i < |n.low.ends| && i < |n.high.ends|
    && n.low.ends[i] == Live && (n.high.ends[i] == Pending || n.high.ends[i] == Kept || n.high.ends[i] == Live)
    && forall j | 0 <= j < |n.diallers| && j < |n.low.ends| && n.diallers[j] == High :: n.low.ends[j] != Absent && n.low.ends[j] != Pending
  }

  lemma SecuredAtLow(n: Net, e: TwoHubs.Event, i: nat)
    requires Inv(n) && Secured(n, i) && Internal(e) && Enabled(n, e) && MovesLink(e) && Actor(n, e) == Low
    ensures Secured(TwoHubs.Step(n, e), i)
  {
    ActKeepsTable(n, e);
    if !e.CheckKept? && !e.RegisterDial? && !e.RegisterArrival? && !e.ReportClosed? {
      PlainKeepsSecured(n, e, i);
    }
  }

  lemma PlainKeepsSecured(n: Net, e: TwoHubs.Event, i: nat)
    requires Inv(n) && Secured(n, i) && Internal(e) && Enabled(n, e) && MovesLink(e) && Actor(n, e) == Low
    requires !e.CheckKept? && !e.RegisterDial? && !e.RegisterArrival? && !e.ReportClosed?
    ensures Secured(TwoHubs.Step(n, e), i)
  {
    PlainAct(n, e);
  }

  lemma SecuredAtHigh(n: Net, e: TwoHubs.Event, i: nat)
    requires Inv(n) && Secured(n, i) && Internal(e) && Enabled(n, e) && MovesLink(e) && Actor(n, e) == High
    ensures Secured(TwoHubs.Step(n, e), i)
  {
    if e.RegisterArrival? {
      HighNeverReplaces(n, e.i);
    } else if e.CheckKept? || e.RegisterDial? {
      HighDialUnopposed(n, e.i);
    } else if !e.ReportClosed? {
      PlainAct(n, e);
    }
  }

  lemma SecuredStep(n: Net, e: TwoHubs.Event, i: nat)
    requires Inv(n) && Secured(n, i) && Internal(e) && Enabled(n, e)
    ensures Secured(TwoHubs.Step(n, e), i)
  {
    if MovesLink(e) && Actor(n, e) == Low {
      SecuredAtLow(n, e, i);
    } else if MovesLink(e) {
      SecuredAtHigh(n, e, i);
    }
  }

  lemma SecuredAndQuiet(n: Net, i: nat)
    requires Inv(n) && Secured(n, i) && Quiescent(n)
    ensures Entry(n.low.table, n.Peer(Low)) == Some(Conn(i, n.Peer(Low)))
    ensures Entry(n.high.table, n.Peer(High)) == Some(Conn(i, n.Peer(High)))
  {
    QuietEnds(n, Low, i);
    QuietEnds(n, High, i);
  }

  /** Nothing but a failure can take a secured link away: however the remaining
      steps interleave, both hubs end up with it. */
  lemma {:induction false} SecuredDialSurvives(n: Net, events: seq<TwoHubs.Event>, i: nat)
    requires Inv(n) && Secured(n, i) && Works(n, events)
    ensures var m := TwoHubs.Run(n, events);
            && Inv(m) && Secured(m, i)
            && (Quiescent(m) ==> Entry(m.low.table, m.Peer(Low)) == Some(Conn(i, m.Peer(Low)))
                                 && Entry(m.high.table, m.Peer(High)) == Some(Conn(i, m.Peer(High))))
  {
    if events != [] {
      var front, e := events[..|events| - 1], events[|events| - 1];
      WorksBefore(n, events);
      SecuredDialSurvives(n, front, i);
      SecuredStep(TwoHubs.Run(n, front), e, i);
      StepKeeps(TwoHubs.Run(n, front), e);
    }
    if Quiescent(TwoHubs.Run(n, events)) {
      SecuredAndQuiet(TwoHubs.Run(n, events), i);
    }
  }
}
