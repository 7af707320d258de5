/**
 When an aborted handshake stays aborted. setState looks only at the closing flags, so
 a thread that decided something before the abort can still carry it out afterwards.
 This module says exactly when AbortDone is final.
 */
module AbortFinality {
  import opened Basics
  import opened Handshake

  // -------------------------------------------------------- the exact condition

  /** approveHandshake would go through, once the approval has been requested. */
  predicate Completable(c: Conn) {
    !c.setupStarted && (c.required ==> c.commitStarted && !c.released)
  }

  /** A committed latch that only waits for the next approval call. */
  predicate LatchOpen(c: Conn) {
    c.required && c.callbackDone && Completable(c)
  }

  /** The action takes an open connection out of AbortDone. */
  predicate Exits(c: Conn, action: Action) {
    match action
    case Set(s, _) => s != AbortDone
    case SetAndHandle(s, _) => s != AbortDone
    case Install => true
    case TryComplete => Completable(c)
    case _ => false
  }

  /** The thread holds an exit that it reaches before it closes the connection. */
  predicate HoldsExit(c: Conn, thread: seq<Action>) {
    thread != [] && !thread[0].Close? && (Exits(c, thread[0]) || HoldsExit(c, thread[1..]))
  }

  ghost predicate CanLeave(c: Conn) {
    !c.closing && (LatchOpen(c) || exists t | 0 <= t < |c.threads| :: HoldsExit(c, c.threads[t]))
  }

  // ------------------------------------------------------- shapes of threads

  predicate Decides(action: Action) {
    action.ApproveLatch? || action.ApproveLook? || action.AbortDecision? || action.ErrorDecision?
  }

  /** Decisions stand alone, a commit is followed by the Approved state, and the end of
      its callbacks by the attempt to complete. */
  predicate HeadShaped(thread: seq<Action>)
    requires thread != []
  {
    && (Decides(thread[0]) ==> |thread| == 1)
    && (thread[0].Commit? ==> |thread| > 1 && thread[1] == Put(Approved))
    && (thread[0].CallbackDone? ==> |thread| > 1 && thread[1] == TryComplete)
  }

  predicate Shaped(thread: seq<Action>) {
    thread == [] || (HeadShaped(thread) && Shaped(thread[1..]))
  }

  ghost predicate AllShaped(c: Conn) {
    forall t | 0 <= t < |c.threads| :: Shaped(c.threads[t])
  }

  predicate Simple(action: Action) {
    !Decides(action) && !action.Commit? && !action.CallbackDone?
  }

  ghost predicate AllSimple(actions: seq<Action>) {
    forall i | 0 <= i < |actions| :: Simple(actions[i])
  }

  lemma {:induction false} SimpleShaped(first: seq<Action>, rest: seq<Action>)
    requires AllSimple(first) && Shaped(rest)
    ensures Shaped(first + rest)
  {
    if first == [] {
      assert first + rest == rest;
    } else {
      SimpleShaped(first[1..], rest);
      assert (first + rest)[1..] == first[1..] + rest;
      assert Simple(first[0]);
    }
  }

  lemma ShapedCons(x: Action, l: seq<Action>)
    requires Shaped(l) && HeadShaped([x] + l)
    ensures Shaped([x] + l)
  {
    assert ([x] + l)[1..] == l;
  }

  lemma HelloHandlersSimple(role: Role, input: Input, a: Answers)
    ensures AllSimple(HandleHello(role, input, a)) && AllSimple(HandleReadyListen(input, a)) && AllSimple(HandlePendingInit(a))
  {
  }

  lemma PendingHandlerSimple(input: Input, a: Answers)
    ensures AllSimple(HandlePendingListen(input, a))
  {
  }

  lemma InitHandlerSimple(s: State, role: Role, input: Input, a: Answers)
    ensures AllSimple(HandleInit(s, role, input, a))
  {
  }

  lemma ProtocolHandlerSimple(s: State, role: Role, input: Input, a: Answers)
    ensures AllSimple(HandleProtocol(s, role, input, a))
  {
  }

  lemma PinHandlerSimple(input: Input, a: Answers)
    ensures AllSimple(HandlePin(input, a))
  {
  }

  lemma HandlersSimple(s: State, role: Role, shipId: string, input: Input, a: Answers)
    requires s != AccessRequest
    ensures AllSimple(Handler(s, role, shipId, input, a))
  {
    match s
    case InitStart | ClientWait | ServerWait => InitHandlerSimple(s, role, input, a);
    case Hello | ReadyListen | PendingInit => HelloHandlersSimple(role, input, a);
    case PendingListen => PendingHandlerSimple(input, a);
    case HelloOk | ServerListenProposal | ServerListenConfirm | ClientListenChoice | ServerOk | ClientOk =>
      ProtocolHandlerSimple(s, role, input, a);
    case PinCheckListen | PinAskInit | PinAskProcess => PinHandlerSimple(input, a);
    case _ =>
  }

  lemma CommitShaped(id: string, rest: seq<Action>)
    requires Shaped(rest)
    ensures Shaped([Commit(id)] + ([Put(Approved)] + ([CallbackDone] + ([TryComplete] + rest))))
  {
    ShapedCons(TryComplete, rest);
    ShapedCons(CallbackDone, [TryComplete] + rest);
    ShapedCons(Put(Approved), [CallbackDone] + ([TryComplete] + rest));
    ShapedCons(Commit(id), [Put(Approved)] + ([CallbackDone] + ([TryComplete] + rest)));
  }

  lemma ReplyShaped(id: string, rest: seq<Action>)
    requires Shaped(rest)
    ensures Shaped([Store(id), StopTimer, Commit(id), Put(Approved), CallbackDone, TryComplete] + rest)
  {
    CommitShaped(id, rest);
    var l := [Commit(id)] + ([Put(Approved)] + ([CallbackDone] + ([TryComplete] + rest)));
    ShapedCons(StopTimer, l);
    ShapedCons(Store(id), [StopTimer] + l);
    assert [Store(id), StopTimer, Commit(id), Put(Approved), CallbackDone, TryComplete] + rest == [Store(id)] + ([StopTimer] + l);
  }

  lemma AccessShaped(shipId: string, input: Input, a: Answers, rest: seq<Action>)
    requires Shaped(rest)
    ensures Shaped(HandleAccess(input, shipId, a) + rest)
  {
    var actions := HandleAccess(input, shipId, a);
    if input.AccessMethods? && input.id.Some? && (shipId == "" || shipId == input.id.value) {
      ReplyShaped(input.id.value, rest);
    } else {
      SimpleShaped(actions, rest);
    }
  }

  /** One action of a thread whose shape is right leaves a thread whose shape is right. */
  lemma ActShapes(c: Conn, thread: seq<Action>, a: Answers)
    requires thread != [] && Shaped(thread)
    ensures Shaped(Act(c, thread[0], a).1 + thread[1..])
  {
    var first, rest := Act(c, thread[0], a).1, thread[1..];
    if thread[0].Handle? {
      HandleShapes(c, thread[0].input, a, rest);
    } else if thread[0].ApproveLatch? {
      assert rest == [] && first + rest == first;
      DecisionShapes(c);
    } else {
      OtherActsSimple(c, thread[0], a);
      SimpleShaped(first, rest);
    }
  }

  lemma HandleShapes(c: Conn, input: Input, a: Answers, rest: seq<Action>)
    requires Shaped(rest)
    ensures Shaped(Act(c, Handle(input), a).1 + rest)
  {
    if c.closing {
      SimpleShaped([], rest);
    } else if c.state == AccessRequest {
      AccessShaped(c.shipId, input, a, rest);
    } else {
      HandlersSimple(c.state, c.role, c.shipId, input, a);
      SimpleShaped(Handler(c.state, c.role, c.shipId, input, a), rest);
    }
  }

  lemma DecisionShapes(c: Conn)
    ensures Shaped(AfterLatch(c))
  {
    assert [ApproveLook][1..] == [] && [TryComplete][1..] == [];
  }

  lemma OtherActsSimple(c: Conn, action: Action, a: Answers)
    requires !action.Handle? && !action.ApproveLatch?
    ensures AllSimple(Act(c, action, a).1)
  {
  }

  lemma StepShapes(c: Conn, e: Event)
    requires AllShaped(c)
    ensures AllShaped(Step(c, e))
  {
    if e.Advance? && e.t < |c.threads| && c.threads[e.t] != [] {
      assert Shaped(c.threads[e.t]);
      ActShapes(c, c.threads[e.t], e.answers);
    } else if !e.Advance? {
      forall action: Action ensures Shaped([action]) || action.Commit? || action.CallbackDone? {
        assert [action][1..] == [];
      }
    }
  }

  lemma {:induction false} ShapedAlways(role: Role, required: bool, shipId: string, events: seq<Event>)
    ensures AllShaped(Run(Fresh(role, required, shipId), events))
  {
    if events != [] {
      ShapedAlways(role, required, shipId, events[..|events| - 1]);
      StepShapes(Run(Fresh(role, required, shipId), events[..|events| - 1]), events[|events| - 1]);
    }
  }

  // --------------------------------------------------- without an exit it stays

  lemma {:induction false} ExitOfConcat(c: Conn, a: seq<Action>, b: seq<Action>)
    requires HoldsExit(c, a + b)
    ensures HoldsExit(c, a) || HoldsExit(c, b)
  {
    if a == [] {
      assert a + b == b;
    } else if !Exits(c, a[0]) {
      assert (a + b)[1..] == a[1..] + b;
      ExitOfConcat(c, a[1..], b);
    }
  }

  lemma {:induction false} ExitMonotone(c: Conn, c': Conn, thread: seq<Action>)
    requires HoldsExit(c, thread) && (Completable(c) ==> Completable(c'))
    ensures HoldsExit(c', thread)
  {
    if !Exits(c, thread[0]) {
      ExitMonotone(c, c', thread[1..]);
    }
  }

  ghost predicate Stuck(c: Conn) {
    c.state == AbortDone && AllShaped(c) && !CanLeave(c)
  }

  /** The connection stays put, and so does the latch. */
  ghost predicate Unmoved(c: Conn, c': Conn) {
    && c'.state == c.state && c'.closing == c.closing && c'.threads == c.threads && c'.required == c.required
    && c'.setupStarted == c.setupStarted && c'.commitStarted == c.commitStarted && c'.released == c.released
    && c'.callbackDone == c.callbackDone && (c.requested ==> c'.requested)
  }

  lemma NoCommitAhead(c: Conn, thread: seq<Action>)
    requires thread != [] && Shaped(thread) && !HoldsExit(c, thread)
    ensures !thread[0].Commit? && (thread[0].CallbackDone? ==> !Completable(c))
  {
    if thread[0].Commit? || thread[0].CallbackDone? {
      assert thread[1..][0] == thread[1];
    }
  }

  lemma SettersUnmoved(c: Conn, action: Action, a: Answers)
    requires c.state == AbortDone && !c.closing && !Exits(c, action)
    requires action.Set? || action.SetAndHandle? || action.Install? || action.TryComplete?
    ensures Unmoved(c, Act(c, action, a).0)
  {
  }

  lemma DecisionsUnmoved(c: Conn, action: Action, a: Answers)
    requires action.Handle? || Decides(action)
    ensures Unmoved(c, Act(c, action, a).0)
  {
    if !action.ApproveLatch? {
      assert Act(c, action, a).0 == c;
    }
  }

  lemma StoreUnmoved(c: Conn, id: string, a: Answers)
    ensures Unmoved(c, Act(c, Store(id), a).0)
  {
    if c.shipId == "" {
      assert Act(c, Store(id), a).0 == c.(shipId := id);
    } else {
      assert Act(c, Store(id), a).0 == c;
    }
  }

  lemma NoteUnmoved(c: Conn, m: Mark, a: Answers)
    ensures Unmoved(c, Act(c, Note(m), a).0)
  {
  }

  lemma TimerUnmoved(c: Conn, a: Answers)
    ensures Unmoved(c, Act(c, ArmTimer, a).0) && Unmoved(c, Act(c, StopTimer, a).0)
  {
  }

  lemma MinorUnmoved(c: Conn, action: Action, a: Answers)
    requires action.Store? || action.Note? || action.ArmTimer? || action.StopTimer?
    ensures Unmoved(c, Act(c, action, a).0)
  {
    match action
    case Store(id) => StoreUnmoved(c, id, a);
    case Note(m) => NoteUnmoved(c, m, a);
    case ArmTimer => TimerUnmoved(c, a);
    case StopTimer => TimerUnmoved(c, a);
  }

  /** What one action can do in AbortDone when its thread holds no exit. */
  lemma ActStays(c: Conn, thread: seq<Action>, a: Answers)
    requires c.state == AbortDone && !c.closing && !LatchOpen(c)
    requires thread != [] && Shaped(thread) && !HoldsExit(c, thread)
    ensures var c' := Act(c, thread[0], a).0;
            c'.state == AbortDone && (c'.closing || (Completable(c') == Completable(c) && !LatchOpen(c')))
    ensures Act(c, thread[0], a).0.threads == c.threads
  {
    NoCommitAhead(c, thread);
    var x := thread[0];
    if x.Set? || x.SetAndHandle? || x.Install? || x.TryComplete? {
      SettersUnmoved(c, x, a);
    } else if x.Handle? || Decides(x) {
      DecisionsUnmoved(c, x, a);
    } else if !x.CallbackDone? && !x.Close? {
      MinorUnmoved(c, x, a);
    }
  }

  lemma ActBringsNoExit(c: Conn, action: Action, a: Answers)
    requires c.state == AbortDone && !c.closing && !LatchOpen(c) && !Exits(c, action) && !action.Close?
    ensures !HoldsExit(c, Act(c, action, a).1)
  {
    if action.ApproveLatch? {
      assert [TryComplete][1..] == [] && [ApproveLook][1..] == [];
    } else if action.SetAndHandle? {
      assert [Handle(Empty)][1..] == [];
    }
  }

  lemma AdvanceStaysStuck(c: Conn, t: nat, a: Answers)
    requires Stuck(c) && !c.closing && t < |c.threads| && c.threads[t] != []
    ensures Stuck(AdvanceThread(c, t, a))
  {
    var thread := c.threads[t];
    assert Shaped(thread) && !HoldsExit(c, thread);
    ActStays(c, thread, a);
    ActShapes(c, thread, a);
    var c1, first := Act(c, thread[0], a).0, Act(c, thread[0], a).1;
    var c' := AdvanceThread(c, t, a);
    if !c1.closing {
      ActBringsNoExit(c, thread[0], a);
      forall u | 0 <= u < |c'.threads| ensures !HoldsExit(c', c'.threads[u]) {
        if HoldsExit(c', c'.threads[u]) {
          ExitMonotone(c', c, c'.threads[u]);
          if u == t {
            ExitOfConcat(c, first, thread[1..]);
          }
        }
      }
    }
  }

  lemma ClosedStaysStuck(c: Conn, e: Event)
    requires c.closing && c.state == AbortDone
    ensures Step(c, e).closing && Step(c, e).state == AbortDone
  {
    if e.Advance? && e.t < |c.threads| && c.threads[e.t] != [] {
      ClosedActs(c, c.threads[e.t][0], e.answers);
    }
  }

  lemma StaysStuck(c: Conn, e: Event)
    requires Stuck(c)
    ensures Stuck(Step(c, e))
  {
    StepShapes(c, e);
    if c.closing {
      ClosedStaysStuck(c, e);
    } else if !e.Advance? {
      SpawnStaysStuck(c, e);
    } else if e.t < |c.threads| && c.threads[e.t] != [] {
      AdvanceStaysStuck(c, e.t, e.answers);
    }
  }

  lemma SpawnLeavesStuck(c: Conn, action: Action)
    requires c.state == AbortDone && !CanLeave(c) && !c.closing && (action.Handle? || Decides(action))
    ensures Spawn(c, action).state == AbortDone && !CanLeave(Spawn(c, action))
  {
    var c' := Spawn(c, action);
    assert [action][1..] == [];
    forall u | 0 <= u < |c'.threads| ensures !HoldsExit(c', c'.threads[u]) {
      if u < |c.threads| && HoldsExit(c', c'.threads[u]) {
        ExitMonotone(c', c, c.threads[u]);
      }
    }
  }

  lemma ExpireLeavesStuck(c: Conn)
    requires c.state == AbortDone && !CanLeave(c)
    ensures !CanLeave(c.(armed := false))
  {
    var c' := c.(armed := false);
    forall u | 0 <= u < |c'.threads| && HoldsExit(c', c'.threads[u]) ensures HoldsExit(c, c.threads[u]) {
      ExitMonotone(c', c, c.threads[u]);
    }
  }

  lemma SpawnStaysStuck(c: Conn, e: Event)
    requires Stuck(c) && !c.closing && !e.Advance?
    ensures Step(c, e).state == AbortDone && !CanLeave(Step(c, e))
  {
    if e.Deliver? {
      SpawnLeavesStuck(c, Handle(e.input));
    } else if e.Expire? {
      ExpireLeavesStuck(c);
      SpawnLeavesStuck(c.(armed := false), Handle(Timeout));
    } else if e.Approve? {
      SpawnLeavesStuck(c, ApproveLatch);
    } else if e.Abort? {
      SpawnLeavesStuck(c, AbortDecision);
    } else if e.ConnectionError? {
      SpawnLeavesStuck(c, ErrorDecision);
    }
  }

  lemma {:induction false} StuckForever(c: Conn, events: seq<Event>)
    requires Stuck(c)
    ensures Stuck(Run(c, events))
  {
    if events != [] {
      StuckForever(c, events[..|events| - 1]);
      StaysStuck(Run(c, events[..|events| - 1]), events[|events| - 1]);
    }
  }

  // ----------------------------------------------------- with an exit it can go

  /** The approval has been requested wherever that matters. */
  predicate Asked(c: Conn) {
    c.required && !c.released ==> c.requested
  }

  /** The steps of a thread, with a second one for every state it sets and handles. */
  function Length(thread: seq<Action>): nat {
    if thread == [] then 0 else Length(thread[1..]) + if thread[0].SetAndHandle? then 2 else 1
  }

  lemma CompletionLeaves(c: Conn, t: nat)
    requires !c.closing && t < |c.threads| && c.threads[t] != [] && c.threads[t][0] == TryComplete
    requires Completable(c) && Asked(c)
    ensures var e := Advance(t, YES); Step(Step(Step(c, e), e), e).state == Complete
  {
    var e, rest := Advance(t, YES), c.threads[t][1..];
    var c1 := Step(c, e);
    assert c1.threads[t] == [StopTimer, Install] + rest && !c1.closing;
    var c2 := Step(c1, e);
    assert c2.threads[t] == [Install] + rest by {
      assert ([StopTimer, Install] + rest)[1..] == [Install] + rest;
      assert [] + ([Install] + rest) == [Install] + rest;
    }
  }

  /** What an action that is no exit leaves of its thread. */
  lemma ThreadShortens(c: Conn, x: Action, rest: seq<Action>)
    requires c.state == AbortDone && !c.closing && !Exits(c, x) && !Decides(x)
    ensures var l := Act(c, x, YES).1 + rest;
            Length(l) < Length([x] + rest) && (l == rest || l == [Handle(Empty)] + rest)
  {
    assert ([x] + rest)[1..] == rest;
    if x.SetAndHandle? {
      assert ([Handle(Empty)] + rest)[1..] == rest;
    } else {
      NothingBrought(c, x);
      assert [] + rest == rest;
    }
  }

  lemma ExitKept(c: Conn, l: seq<Action>, rest: seq<Action>)
    requires HoldsExit(c, rest) && (l == rest || l == [Handle(Empty)] + rest)
    ensures HoldsExit(c, l)
  {
    assert ([Handle(Empty)] + rest)[1..] == rest;
  }

  /** An action that is no exit brings the thread nearer to the exit behind it. */
  lemma ExitComesNearer(c: Conn, t: nat)
    requires c.state == AbortDone && !c.closing && Asked(c) && t < |c.threads|
    requires Shaped(c.threads[t]) && HoldsExit(c, c.threads[t]) && !Exits(c, c.threads[t][0])
    ensures var c' := Step(c, Advance(t, YES));
            && c'.state == AbortDone && !c'.closing && Asked(c') && t < |c'.threads|
            && Shaped(c'.threads[t]) && HoldsExit(c', c'.threads[t]) && Length(c'.threads[t]) < Length(c.threads[t])
  {
    var thread := c.threads[t];
    var x, rest := thread[0], thread[1..];
    var c1, first := Act(c, x, YES).0, Act(c, x, YES).1;
    ActShapes(c, thread, YES);
    NearerFlags(c, x);
    ThreadShortens(c, x, rest);
    assert [x] + rest == thread;
    var c' := Step(c, Advance(t, YES));
    assert c' == c1.(threads := c.threads[t := first + rest]);
    ExitMonotone(c, c', rest);
    ExitKept(c', first + rest, rest);
  }

  lemma NearerFlags(c: Conn, x: Action)
    requires c.state == AbortDone && !c.closing && Asked(c) && !Exits(c, x) && !x.Close? && !Decides(x)
    ensures var c1 := Act(c, x, YES).0;
            c1.state == AbortDone && !c1.closing && Asked(c1) && (Completable(c) ==> Completable(c1)) && c1.threads == c.threads
  {
    if x.Handle? {
      DecisionsUnmoved(c, x, YES);
    } else if x.Set? || x.SetAndHandle? || x.Install? || x.TryComplete? {
      SettersUnmoved(c, x, YES);
    } else if !x.Commit? && !x.CallbackDone? {
      MinorUnmoved(c, x, YES);
    }
  }

  lemma NothingBrought(c: Conn, x: Action)
    requires c.state == AbortDone && !c.closing && !Exits(c, x) && !x.SetAndHandle? && !Decides(x)
    ensures Act(c, x, YES).1 == []
  {
  }

  lemma {:induction false} ExitIsTaken(c: Conn, t: nat) returns (events: seq<Event>)
    requires c.state == AbortDone && !c.closing && Asked(c) && t < |c.threads|
    requires Shaped(c.threads[t]) && HoldsExit(c, c.threads[t])
    ensures Run(c, events).state != AbortDone
    decreases Length(c.threads[t])
  {
    var e := Advance(t, YES);
    if c.threads[t][0].TryComplete? && Completable(c) {
      CompletionLeaves(c, t);
      events := [e] + ([e] + ([e] + []));
      RunFirst(c, e, [e] + ([e] + []));
      RunFirst(Step(c, e), e, [e] + []);
      RunFirst(Step(Step(c, e), e), e, []);
    } else if Exits(c, c.threads[t][0]) {
      events := [e] + [];
      RunFirst(c, e, []);
    } else {
      ExitComesNearer(c, t);
      var later := ExitIsTaken(Step(c, e), t);
      events := [e] + later;
      RunFirst(c, e, later);
    }
  }

  /** An approval call asks for the approval and does nothing else to the connection. */
  lemma AskingHelps(c: Conn)
    requires c.state == AbortDone && !c.closing && AllShaped(c)
    ensures var c' := Step(Step(c, Approve), Advance(|c.threads|, YES));
            && c'.state == AbortDone && !c'.closing && Asked(c') && Completable(c') == Completable(c)
            && c'.threads == c.threads + [AfterLatch(c)]
  {
    var c1 := Step(c, Approve);
    var n := |c.threads|;
    assert c1.threads[n] == [ApproveLatch] && [ApproveLatch][1..] == [];
    assert AfterLatch(c1) == AfterLatch(c) && AfterLatch(c) + [] == AfterLatch(c);
    assert (c.threads + [[ApproveLatch]])[n := AfterLatch(c)] == c.threads + [AfterLatch(c)];
  }

  lemma LeavingIsPossible(c: Conn) returns (events: seq<Event>)
    requires c.state == AbortDone && AllShaped(c) && CanLeave(c)
    ensures Run(c, events).state != AbortDone
  {
    AskingHelps(c);
    var n := |c.threads|;
    var c1 := Step(c, Approve);
    var c2 := Step(c1, Advance(n, YES));
    var t;
    if LatchOpen(c) {
      t := n;
      assert AfterLatch(c) == [TryComplete] && [TryComplete][1..] == [];
    } else {
      t :| 0 <= t < |c.threads| && HoldsExit(c, c.threads[t]);
      assert c2.threads[t] == c.threads[t];
      ExitMonotone(c, c2, c.threads[t]);
    }
    var later := ExitIsTaken(c2, t);
    events := [Approve] + ([Advance(n, YES)] + later);
    RunFirst(c, Approve, [Advance(n, YES)] + later);
    RunFirst(c1, Advance(n, YES), later);
  }

  /** In every reachable connection: AbortDone stays for good, whatever comes, if and
      only if the connection is closing, or no thread holds an exit and no committed
      latch waits for an approval. */
  lemma AbortDoneStaysIff(role: Role, required: bool, shipId: string, events: seq<Event>)
    requires Run(Fresh(role, required, shipId), events).state == AbortDone
    ensures var c := Run(Fresh(role, required, shipId), events);
            (forall more: seq<Event> :: Run(c, more).state == AbortDone) <==> !CanLeave(c)
  {
    var c := Run(Fresh(role, required, shipId), events);
    ShapedAlways(role, required, shipId, events);
    if CanLeave(c) {
      var more := LeavingIsPossible(c);
      assert Run(c, more).state != AbortDone;
    } else {
      forall more: seq<Event> ensures Run(c, more).state == AbortDone {
        StuckForever(c, more);
      }
    }
  }

  // -------------------------------------------------------- three ways out of it

  /** A timer expires while the connection listens for hello, and nobody waits longer. */
  lemma ExpiryDecides(c: Conn)
    requires !c.closing && c.armed && (c.state == PendingListen || c.state == ReadyListen)
    ensures var e := Advance(|c.threads|, NO);
            var c' := Step(Step(Step(c, Expire), e), e);
            !c'.closing && c'.state == HelloAbort && c'.threads == c.threads + [[Handle(Empty)]]
  {
    var e := Advance(|c.threads|, NO);
    var c1 := Step(c, Expire);
    assert [Handle(Timeout)] == [Handle(Timeout)] + [];
    Acts(c1, c.threads, Handle(Timeout), [], NO);
    var c2 := Step(c1, e);
    assert Handler(c.state, c.role, c.shipId, Timeout, NO) == [Go(HelloAbort)];
    assert [Go(HelloAbort)] + [] == [Go(HelloAbort)];
    Acts(c2, c.threads, Go(HelloAbort), [], NO);
    assert [Handle(Empty)] + [] == [Handle(Empty)];
  }

  lemma AbortProceeds(c: Conn, others: seq<seq<Action>>, rest: seq<Action>)
    requires !c.closing && c.state == HelloAbort && c.threads == others + [[Handle(Empty)] + rest]
    ensures var e := Advance(|others|, NO);
            var c' := Step(Step(Step(c, e), e), e);
            !c'.closing && c'.state == AbortDone && c'.threads == others + [[Handle(Empty)] + rest]
  {
    var e := Advance(|others|, NO);
    Acts(c, others, Handle(Empty), rest, NO);
    var c1 := Step(c, e);
    assert [StopTimer] + [Go(AbortDone)] + rest == [StopTimer] + ([Go(AbortDone)] + rest);
    Acts(c1, others, StopTimer, [Go(AbortDone)] + rest, NO);
    var c2 := Step(c1, e);
    assert [] + ([Go(AbortDone)] + rest) == [Go(AbortDone)] + rest;
    Acts(c2, others, Go(AbortDone), rest, NO);
  }

  /** Six steps that take a listening connection to AbortDone by a timeout. */
  lemma TimeoutAborts(c: Conn) returns (events: seq<Event>)
    requires !c.closing && c.armed && (c.state == PendingListen || c.state == ReadyListen)
    ensures var c' := Run(c, events);
            !c'.closing && c'.state == AbortDone && c'.threads == c.threads + [[Handle(Empty)]]
    ensures Approve !in events
  {
    var e := Advance(|c.threads|, NO);
    ExpiryDecides(c);
    var c3 := Step(Step(Step(c, Expire), e), e);
    assert [Handle(Empty)] + [] == [Handle(Empty)];
    AbortProceeds(c3, c.threads, []);
    var e3 := [] + [Expire] + [e] + [e];
    events := e3 + [e] + [e] + [e];
    Extend(c, [], Expire);
    Extend(c, [] + [Expire], e);
    Extend(c, [] + [Expire] + [e], e);
    Extend(c, e3, e);
    Extend(c, e3 + [e], e);
    Extend(c, e3 + [e] + [e], e);
  }

  /** Whoever decided before the timeout to set another state holds an exit. */
  lemma OvertakenHoldsExit(c: Conn, s: State, mark: Option<Mark>, rest: seq<Action>, t: nat)
    requires !c.closing && t < |c.threads| && s != AbortDone
    requires c.threads[t] == [Set(s, mark)] + rest || c.threads[t] == [SetAndHandle(s, mark)] + rest
    ensures CanLeave(c)
  {
    assert HoldsExit(c, c.threads[t]);
  }

  ghost predicate AwaitsTrust(c: Conn) {
    !c.closing && !c.required && !(c.commitStarted && !c.callbackDone) && c.state == PendingListen
  }

  const PASS_HELLO := SetAndHandle(HelloOk, Some(HelloPassed))

  /** An approval call gets as far as the state ReadyInit being next. */
  lemma ApprovalLooks(c: Conn)
    requires AwaitsTrust(c)
    ensures var e := Advance(|c.threads|, YES);
            var c' := Step(Step(Step(c, Approve), e), e);
            AwaitsTrust(c') && c'.armed == c.armed
            && c'.threads == c.threads + [[Note(ApprovalCall)] + ([StopTimer] + ([Go(ReadyInit)] + [PASS_HELLO]))]
  {
    var e := Advance(|c.threads|, YES);
    var c1 := Step(c, Approve);
    assert [ApproveLatch] == [ApproveLatch] + [];
    Acts(c1, c.threads, ApproveLatch, [], YES);
    var c2 := Step(c1, e);
    assert [ApproveLook] + [] == [ApproveLook];
    Acts(c2, c.threads, ApproveLook, [], YES);
    assert AfterLook(PendingListen) + [] == [Note(ApprovalCall)] + ([StopTimer] + ([Go(ReadyInit)] + [PASS_HELLO]));
  }

  lemma ExitBehind(c: Conn, thread: seq<Action>, a: Action, b: Action, x: Action, rest: seq<Action>)
    requires thread == [a] + ([b] + ([x] + rest)) && !a.Close? && !b.Close? && !x.Close? && Exits(c, x)
    ensures HoldsExit(c, thread)
  {
    assert thread[1..] == [b] + ([x] + rest) && thread[1..][1..] == [x] + rest;
    assert HoldsExit(c, thread[1..][1..]);
    assert HoldsExit(c, thread[1..]);
  }

  /** An approval call and two steps of its thread. */
  function Asking(e: Event): seq<Event> {
    [] + [Approve] + [e] + [e]
  }

  lemma RunAsking(c: Conn, e: Event)
    ensures Run(c, Asking(e)) == Step(Step(Step(c, Approve), e), e)
    ensures e != Expire ==> Expire !in Asking(e)
  {
    Extend(c, [], Approve);
    Extend(c, [] + [Approve], e);
    Extend(c, [] + [Approve] + [e], e);
  }

  /** An approval that saw PendingListen before a timeout aborted. */
  lemma OvertakenApproval(c: Conn) returns (events: seq<Event>)
    requires AwaitsTrust(c) && c.armed
    ensures Run(c, events).state == AbortDone && CanLeave(Run(c, events))
  {
    var e := Advance(|c.threads|, YES);
    ApprovalLooks(c);
    var first := Asking(e);
    RunAsking(c, e);
    var c3 := Run(c, first);
    var second := TimeoutAborts(c3);
    events := first + second;
    RunConcat(c, first, second);
    var c' := Run(c, events);
    assert c'.threads[|c.threads|] == c3.threads[|c.threads|];
    ExitBehind(c', c'.threads[|c.threads|], Note(ApprovalCall), StopTimer, Go(ReadyInit), [PASS_HELLO]);
  }

  lemma ReadyIsRead(c: Conn, input: Input, e: Event)
    requires !c.closing && c.state == ReadyListen && input.HelloMessage? && input.phase == Ready && e == Advance(|c.threads|, YES)
    ensures var events := [] + [Deliver(input)] + [e];
            Run(c, events) == c.(threads := c.threads + [[Set(HelloOk, Some(HelloPassed))] + [Handle(Empty)]]) && Approve !in events
  {
    Extend(c, [], Deliver(input));
    Extend(c, [] + [Deliver(input)], e);
    assert [Handle(input)] == [Handle(input)] + [];
    Acts(Step(c, Deliver(input)), c.threads, Handle(input), [], YES);
    assert HandleReadyListen(input, YES) + [] == [Set(HelloOk, Some(HelloPassed))] + [Handle(Empty)];
  }

  /** A ready message whose handler had read ReadyListen: no approval is involved. */
  lemma OvertakenReady(c: Conn, waiting: Option<nat>, prolongation: Option<bool>) returns (events: seq<Event>)
    requires !c.closing && c.armed && c.state == ReadyListen
    ensures Run(c, events).state == AbortDone && CanLeave(Run(c, events))
    ensures Approve !in events
  {
    var input := HelloMessage(Ready, waiting, prolongation);
    var e := Advance(|c.threads|, YES);
    ReadyIsRead(c, input, e);
    var first := [] + [Deliver(input)] + [e];
    var c2 := Run(c, first);
    var second := TimeoutAborts(c2);
    events := first + second;
    RunConcat(c, first, second);
    var c' := Run(c, events);
    assert c'.threads[|c.threads|] == c2.threads[|c.threads|];
    OvertakenHoldsExit(c', HelloOk, Some(HelloPassed), [Handle(Empty)], |c.threads|);
  }

  /** The approval goes on to ReadyInit, and its hello message cannot be sent. */
  lemma ApprovalFailsToSend(c: Conn, others: seq<seq<Action>>)
    requires !c.closing
    requires c.threads == others + [[Note(ApprovalCall)] + ([StopTimer] + ([Go(ReadyInit)] + [PASS_HELLO]))]
    ensures var e := Advance(|others|, UNSENT);
            var c' := Step(Step(Step(Step(c, e), e), e), e);
            !c'.closing && c'.state == ReadyInit && c'.threads == others + [[Go(HelloAbort)] + [PASS_HELLO]]
  {
    var e := Advance(|others|, UNSENT);
    Acts(c, others, Note(ApprovalCall), [StopTimer] + ([Go(ReadyInit)] + [PASS_HELLO]), UNSENT);
    var c1 := Step(c, e);
    assert [] + ([StopTimer] + ([Go(ReadyInit)] + [PASS_HELLO])) == [StopTimer] + ([Go(ReadyInit)] + [PASS_HELLO]);
    Acts(c1, others, StopTimer, [Go(ReadyInit)] + [PASS_HELLO], UNSENT);
    var c2 := Step(c1, e);
    assert [] + ([Go(ReadyInit)] + [PASS_HELLO]) == [Go(ReadyInit)] + [PASS_HELLO];
    Acts(c2, others, Go(ReadyInit), [PASS_HELLO], UNSENT);
    var c3 := Step(c2, e);
    Acts(c3, others, Handle(Empty), [PASS_HELLO], UNSENT);
  }

  function Four(e: Event): seq<Event> {
    [] + [e] + [e] + [e] + [e]
  }

  lemma RunFour(c: Conn, e: Event)
    ensures Run(c, Four(e)) == Step(Step(Step(Step(c, e), e), e), e)
    ensures e != Expire ==> Expire !in Four(e)
  {
    Extend(c, [], e);
    Extend(c, [] + [e], e);
    Extend(c, [] + [e] + [e], e);
    Extend(c, [] + [e] + [e] + [e], e);
  }

  lemma AbortAfterFailure(c: Conn, others: seq<seq<Action>>)
    requires !c.closing && c.threads == others + [[Go(HelloAbort)] + [PASS_HELLO]]
    ensures var e := Advance(|others|, NO);
            var c' := Step(Step(Step(Step(c, e), e), e), e);
            c'.state == AbortDone && CanLeave(c')
  {
    var e := Advance(|others|, NO);
    Acts(c, others, Go(HelloAbort), [PASS_HELLO], NO);
    var c1 := Step(c, e);
    AbortProceeds(c1, others, [PASS_HELLO]);
    var c' := Step(Step(Step(c1, e), e), e);
    var thread := [Handle(Empty)] + [PASS_HELLO];
    assert c'.threads[|others|] == thread && thread[1..] == [PASS_HELLO];
    assert HoldsExit(c', thread[1..]) && HoldsExit(c', thread);
  }

  /** One approval with nobody else around: its hello message cannot be sent, the abort
      message can, and then the same call still holds the passing of hello. */
  lemma LoneApproval(c: Conn) returns (events: seq<Event>)
    requires AwaitsTrust(c)
    ensures Run(c, events).state == AbortDone && CanLeave(Run(c, events))
    ensures Expire !in events
  {
    var t := |c.threads|;
    var y, u, n := Advance(t, YES), Advance(t, UNSENT), Advance(t, NO);
    var first := Asking(y);
    RunAsking(c, y);
    ApprovalLooks(c);
    var c3 := Run(c, first);
    RunFour(c3, u);
    ApprovalFailsToSend(c3, c.threads);
    var c7 := Run(c3, Four(u));
    RunFour(c7, n);
    AbortAfterFailure(c7, c.threads);
    events := first + Four(u) + Four(n);
    RunConcat(c, first, Four(u));
    RunConcat(c, first + Four(u), Four(n));
  }
}
