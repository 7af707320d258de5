/**
 Runs from a fresh connection to the states that the counterexamples start from, so
 that each of them stands on its own.
 */
module HandshakeRuns {
  import opened Basics
  import opened Handshake
  import A = AbortFinality
  import T = HelloTimers

  const SERVER := Fresh(Server, false, "")
  const CLIENT := Fresh(Client, false, "")

  // ------------------------------------------------------------ single steps

  lemma PutStep(c: Conn, others: seq<seq<Action>>, s: State, rest: seq<Action>)
    requires !c.closing && c.threads == others + [[Put(s)] + rest]
    ensures Step(c, Advance(|others|, YES)) == Enter(c, s, None, YES).(threads := others + [rest])
  {
    Acts(c, others, Put(s), rest, YES);
    assert [] + rest == rest;
  }

  lemma HandleStep(c: Conn, others: seq<seq<Action>>, input: Input)
    requires !c.closing && c.threads == others + [[Handle(input)]]
    ensures Step(c, Advance(|others|, YES)) == c.(threads := others + [Handler(c.state, c.role, c.shipId, input, YES)])
  {
    assert [Handle(input)] == [Handle(input)] + [];
    Acts(c, others, Handle(input), [], YES);
    assert Handler(c.state, c.role, c.shipId, input, YES) + [] == Handler(c.state, c.role, c.shipId, input, YES);
  }

  lemma ArmStep(c: Conn, others: seq<seq<Action>>)
    requires !c.closing && c.threads == others + [[ArmTimer]]
    ensures Step(c, Advance(|others|, YES)) == c.(armed := true, threads := others + [[]])
  {
    T.ArmStep(c, others, YES);
  }

  /** Neither an expiry nor an approval. */
  predicate Calm(events: seq<Event>) {
    Expire !in events && Approve !in events
  }

  lemma Chain(c: Conn, a: seq<Event>, b: seq<Event>)
    ensures Run(c, a + b) == Run(Run(c, a), b)
    ensures Calm(a) && Calm(b) ==> Calm(a + b)
  {
    RunConcat(c, a, b);
  }

  function Once(e: Event): seq<Event> {
    [e]
  }

  lemma HelloStep(c: Conn, others: seq<seq<Action>>)
    requires !c.closing && c.threads == others + [[SetAndHandle(Hello, Some(InitDone))]]
    ensures Step(c, Advance(|others|, YES))
         == c.(state := Hello, log := c.log + [InitDone], threads := others + [[Handle(Empty)]])
  {
    var next := SetAndHandle(Hello, Some(InitDone));
    assert [next] == [next] + [];
    Acts(c, others, next, [], YES);
    assert [Handle(Empty)] + [] == [Handle(Empty)];
  }

  /** A valid init message takes either side to hello. */
  lemma Evaluates(c: Conn, others: seq<seq<Action>>, s: State)
    requires !c.closing && c.threads == others
    requires (c.state == ServerWait && s == ServerEvaluate) || (c.state == ClientWait && s == ClientEvaluate)
    ensures var e := Advance(|others|, YES);
            Step(Step(Step(Step(c, Deliver(InitMessage(true))), e), e), e) ==
            c.(state := Hello, log := c.log + [InitDone], threads := others + [[Handle(Empty)]])
  {
    var e := Advance(|others|, YES);
    var c1 := Step(c, Deliver(InitMessage(true)));
    HandleStep(c1, others, InitMessage(true));
    var c2 := Step(c1, e);
    var next := SetAndHandle(Hello, Some(InitDone));
    assert HandleInit(c.state, c.role, InitMessage(true), YES) == [Put(s)] + [next];
    PutStep(c2, others, s, [next]);
    HelloStep(Step(c2, e), others);
  }

  lemma RunOnce(c: Conn, e: Event)
    ensures Run(c, Once(e)) == Step(c, e) && (e.Advance? ==> Calm(Once(e)))
  {
    assert [e][..0] == [];
  }

  function Thrice(e: Event): seq<Event> {
    [] + [e] + [e] + [e]
  }

  lemma RunThrice(c: Conn, e: Event)
    ensures Run(c, Thrice(e)) == Step(Step(Step(c, e), e), e) && (e.Advance? ==> Calm(Thrice(e)))
  {
    Extend(c, [], e);
    Extend(c, [] + [e], e);
    Extend(c, [] + [e] + [e], e);
  }

  /** A message, and three steps of a thread. */
  function Delivery(input: Input, e: Event): seq<Event> {
    Once(Deliver(input)) + Thrice(e)
  }

  lemma RunDelivery(c: Conn, input: Input, e: Event)
    ensures Run(c, Delivery(input, e)) == Step(Step(Step(Step(c, Deliver(input)), e), e), e)
    ensures e.Advance? ==> Calm(Delivery(input, e))
  {
    RunOnce(c, Deliver(input));
    RunThrice(Step(c, Deliver(input)), e);
    Chain(c, Once(Deliver(input)), Thrice(e));
  }

  // ------------------------------------------------------------- a server

  const WAITS := SERVER.(state := ServerWait, armed := true, threads := [[]])

  lemma ServerStarts()
    ensures var e := Advance(0, YES);
            Step(Step(Step(Step(SERVER, Deliver(Empty)), e), e), e) == WAITS
  {
    var e := Advance(0, YES);
    var c1 := Step(SERVER, Deliver(Empty));
    assert c1.threads == [] + [[Handle(Empty)]];
    HandleStep(c1, [], Empty);
    var c2 := Step(c1, e);
    assert HandleInit(InitStart, Server, Empty, YES) == [Put(ServerWait)] + [ArmTimer];
    assert c2.threads == [] + [[Put(ServerWait)] + [ArmTimer]];
    PutStep(c2, [], ServerWait, [ArmTimer]);
    ArmStep(Step(c2, e), []);
  }

  const GREETS := WAITS.(state := Hello, log := [InitDone], threads := [[], [Handle(Empty)]])

  lemma ServerEvaluates()
    ensures var e := Advance(1, YES);
            Step(Step(Step(Step(WAITS, Deliver(InitMessage(true))), e), e), e) == GREETS
  {
    Evaluates(WAITS, WAITS.threads, ServerEvaluate);
    assert WAITS.threads + [[Handle(Empty)]] == [[], [Handle(Empty)]] && [] + [InitDone] == [InitDone];
  }

  const ENTERS := GREETS.(state := PendingInit, log := [InitDone, HelloEntry(false)])

  lemma ServerDecides()
    ensures var e := Advance(1, YES);
            Step(Step(Step(GREETS, e), e), e) == ENTERS
  {
    var e, others: seq<seq<Action>> := Advance(1, YES), [[]];
    assert GREETS.threads == others + [[Handle(Empty)]];
    HandleStep(GREETS, others, Empty);
    var c1 := Step(GREETS, e);
    var rest := [Put(PendingInit)] + [Handle(Empty)];
    assert HandleHello(Server, Empty, YES) == [Note(HelloEntry(false))] + rest;
    assert c1.threads == others + [[Note(HelloEntry(false))] + rest];
    Acts(c1, others, Note(HelloEntry(false)), rest, YES);
    var c2 := Step(c1, e);
    assert [] + rest == rest && [InitDone] + [HelloEntry(false)] == [InitDone, HelloEntry(false)];
    PutStep(c2, others, PendingInit, [Handle(Empty)]);
  }

  lemma ServerSends()
    ensures Step(ENTERS, Advance(1, YES)) == ENTERS.(threads := [[], [Put(PendingListen)]])
  {
    var others: seq<seq<Action>> := [[]];
    assert ENTERS.threads == others + [[Handle(Empty)]];
    HandleStep(ENTERS, others, Empty);
    assert HandlePendingInit(YES) == [Put(PendingListen)];
  }

  lemma ServerListens(c: Conn)
    requires c == ENTERS.(threads := [[], [Put(PendingListen)]])
    ensures Step(c, Advance(1, YES)) == c.(state := PendingListen, threads := [[], []])
  {
    var others: seq<seq<Action>> := [[]];
    assert [Put(PendingListen)] == [Put(PendingListen)] + [];
    assert c.threads == others + [[Put(PendingListen)] + []];
    PutStep(c, others, PendingListen, []);
  }

  /** A server for an unknown remote sets its timer and is about to listen for trust. */
  lemma ReachesEntering() returns (events: seq<Event>)
    ensures Run(SERVER, events) == ENTERS.(threads := [[], [Put(PendingListen)]])
    ensures Calm(events)
  {
    var e0, e1 := Advance(0, YES), Advance(1, YES);
    var start, eval := Delivery(Empty, e0), Delivery(InitMessage(true), e1);
    RunDelivery(SERVER, Empty, e0);
    ServerStarts();
    RunDelivery(WAITS, InitMessage(true), e1);
    ServerEvaluates();
    Chain(SERVER, start, eval);
    RunThrice(GREETS, e1);
    ServerDecides();
    Chain(SERVER, start + eval, Thrice(e1));
    RunOnce(ENTERS, e1);
    ServerSends();
    Chain(SERVER, start + eval + Thrice(e1), Once(e1));
    events := start + eval + Thrice(e1) + Once(e1);
  }

  lemma NobodyAttends(c: Conn)
    requires c.threads == [[], [Put(PendingListen)]] || c.threads == [[], []]
    ensures !T.Attended(c)
  {
  }

  /** And then it waits for trust, quietly and with its timer armed. */
  lemma ReachesWaiting() returns (events: seq<Event>)
    ensures var c := Run(SERVER, events); A.AwaitsTrust(c) && T.WaitsQuietly(c)
    ensures Calm(events)
  {
    var first := ReachesEntering();
    var c, e := Run(SERVER, first), Advance(1, YES);
    ServerListens(c);
    RunOnce(c, e);
    Chain(SERVER, first, Once(e));
    events := first + Once(e);
    NobodyAttends(Run(SERVER, events));
  }

  // -------------------------------------------------------------- a client

  const SENT := CLIENT.(state := ClientWait, armed := true, threads := [[]])

  lemma ClientStarts()
    ensures var e := Advance(0, YES);
            Step(Step(Step(Step(Step(CLIENT, Deliver(Empty)), e), e), e), e) == SENT
  {
    var e := Advance(0, YES);
    var c1 := Step(CLIENT, Deliver(Empty));
    assert c1.threads == [] + [[Handle(Empty)]];
    HandleStep(c1, [], Empty);
    var c2 := Step(c1, e);
    assert [Put(ClientWait), ArmTimer] == [Put(ClientWait)] + [ArmTimer];
    assert HandleInit(InitStart, Client, Empty, YES) == [Put(ClientSend)] + ([Put(ClientWait)] + [ArmTimer]);
    assert c2.threads == [] + [[Put(ClientSend)] + ([Put(ClientWait)] + [ArmTimer])];
    PutStep(c2, [], ClientSend, [Put(ClientWait)] + [ArmTimer]);
    var c3 := Step(c2, e);
    PutStep(c3, [], ClientWait, [ArmTimer]);
    ArmStep(Step(c3, e), []);
  }

  const ANSWERED := SENT.(state := Hello, log := [InitDone], threads := [[], [Handle(Empty)]])

  lemma ClientEvaluates()
    ensures var e := Advance(1, YES);
            Step(Step(Step(Step(SENT, Deliver(InitMessage(true))), e), e), e) == ANSWERED
  {
    Evaluates(SENT, SENT.threads, ClientEvaluate);
    assert SENT.threads + [[Handle(Empty)]] == [[], [Handle(Empty)]] && [] + [InitDone] == [InitDone];
  }

  const OFFERS := ANSWERED.(state := ReadyInit, log := [InitDone, HelloEntry(true)])

  lemma ClientDecides()
    ensures var e := Advance(1, YES);
            Step(Step(Step(ANSWERED, e), e), e) == OFFERS
  {
    var e, others: seq<seq<Action>> := Advance(1, YES), [[]];
    assert ANSWERED.threads == others + [[Handle(Empty)]];
    HandleStep(ANSWERED, others, Empty);
    var c1 := Step(ANSWERED, e);
    var rest := [Put(ReadyInit)] + [Handle(Empty)];
    assert HandleHello(Client, Empty, YES) == [Note(HelloEntry(true))] + rest;
    assert c1.threads == others + [[Note(HelloEntry(true))] + rest];
    Acts(c1, others, Note(HelloEntry(true)), rest, YES);
    var c2 := Step(c1, e);
    assert [] + rest == rest && [InitDone] + [HelloEntry(true)] == [InitDone, HelloEntry(true)];
    PutStep(c2, others, ReadyInit, [Handle(Empty)]);
  }

  lemma ClientListens()
    ensures var e := Advance(1, YES);
            Step(Step(OFFERS, e), e) == OFFERS.(state := ReadyListen, threads := [[], []])
  {
    var e, others: seq<seq<Action>> := Advance(1, YES), [[]];
    assert OFFERS.threads == others + [[Handle(Empty)]];
    HandleStep(OFFERS, others, Empty);
    var c1 := Step(OFFERS, e);
    assert Handler(ReadyInit, Client, "", Empty, YES) == [Put(ReadyListen)] + [];
    assert c1.threads == others + [[Put(ReadyListen)] + []];
    PutStep(c1, others, ReadyListen, []);
  }

  lemma ReachesReady() returns (events: seq<Event>)
    ensures var c := Run(CLIENT, events); !c.closing && c.armed && c.state == ReadyListen
    ensures Calm(events)
  {
    var e0, e1 := Advance(0, YES), Advance(1, YES);
    var start, eval := Delivery(Empty, e0) + Once(e0), Delivery(InitMessage(true), e1);
    RunDelivery(CLIENT, Empty, e0);
    RunOnce(Run(CLIENT, Delivery(Empty, e0)), e0);
    Chain(CLIENT, Delivery(Empty, e0), Once(e0));
    ClientStarts();
    RunDelivery(SENT, InitMessage(true), e1);
    ClientEvaluates();
    Chain(CLIENT, start, eval);
    RunThrice(ANSWERED, e1);
    ClientDecides();
    Chain(CLIENT, start + eval, Thrice(e1));
    ClientListens();
    RunOnce(OFFERS, e1);
    RunOnce(Step(OFFERS, e1), e1);
    Chain(OFFERS, Once(e1), Once(e1));
    Chain(CLIENT, start + eval + Thrice(e1), Once(e1) + Once(e1));
    events := start + eval + Thrice(e1) + (Once(e1) + Once(e1));
  }

  // --------------------------------------------- the counterexamples, from the start

  /** An unpaired server leaves AbortDone by an approval that a timeout overtook. */
  lemma ServerLeavesAbort() returns (events: seq<Event>)
    ensures Run(SERVER, events).state == AbortDone && A.CanLeave(Run(SERVER, events))
  {
    var first := ReachesWaiting();
    var second := A.OvertakenApproval(Run(SERVER, first));
    RunConcat(SERVER, first, second);
    events := first + second;
  }

  /** So it does by one approval alone, with no timeout. */
  lemma ServerLeavesAbortAlone() returns (events: seq<Event>)
    ensures Expire !in events
    ensures Run(SERVER, events).state == AbortDone && A.CanLeave(Run(SERVER, events))
  {
    var first := ReachesWaiting();
    var second := A.LoneApproval(Run(SERVER, first));
    RunConcat(SERVER, first, second);
    events := first + second;
  }

  /** A client leaves it by a ready message, with no approval anywhere. */
  lemma ClientLeavesAbort() returns (events: seq<Event>)
    ensures Approve !in events
    ensures Run(CLIENT, events).state == AbortDone && A.CanLeave(Run(CLIENT, events))
  {
    var first := ReachesReady();
    var second := A.OvertakenReady(Run(CLIENT, first), None, None);
    RunConcat(CLIENT, first, second);
    events := first + second;
  }

  /** A server loses its timer to a pending message with any wait from one up to
      thirty seconds. */
  lemma ServerLosesTimer(wait: nat) returns (events: seq<Event>)
    requires PROLONG_MIN <= wait < PROLONG_THRESHOLD
    ensures T.Unwatched(Run(SERVER, events))
  {
    var first := ReachesWaiting();
    var c := Run(SERVER, first);
    var input, e := HelloMessage(Pending, Some(wait), None), Advance(|c.threads|, YES);
    T.PendingLeftWithoutTimer(c, wait, YES);
    RunDelivery(c, input, e);
    Chain(SERVER, first, Delivery(input, e));
    events := first + Delivery(input, e);
  }

  /** And to an expiry while it is about to listen. */
  lemma ServerEntersWithoutTimer() returns (events: seq<Event>)
    ensures T.Unwatched(Run(SERVER, events))
  {
    var first := ReachesEntering();
    var c := Run(SERVER, first);
    NobodyAttends(c);
    T.ExpiryWhileEntering(c);
    var e := Advance(|c.threads|, YES);
    Extend(SERVER, first, Expire);
    Extend(SERVER, first + [Expire], e);
    Extend(SERVER, first + [Expire] + [e], e);
    events := first + [Expire] + [e] + [e];
  }
}
