/**
 The timer of a connection that waits for trust. A server in PendingListen counts on a
 timer to ask for prolongation or to give up. This module says exactly when such a
 connection is left with no timer and nobody about to arm one, to leave or to close.
 */
module HelloTimers {
  import opened Basics
  import opened Handshake
  import A = AbortFinality

  /** A pending message whose wait is from one up to thirty seconds. */
  predicate ShortPending(input: Input) {
    && input.HelloMessage? && input.phase == Pending && input.prolongation.None?
    && input.waiting.Some? && PROLONG_MIN <= input.waiting.value < PROLONG_THRESHOLD
  }

  /** In PendingListen the message leads to an armed timer or out of the state. */
  predicate Answered(input: Input) {
    !ShortPending(input) && !(input.HelloMessage? && input.phase == Pending && input.waiting.None? && input.prolongation == Some(true))
  }

  /** Taken in PendingListen, the action arms a timer, leaves or closes, or leads to that. */
  predicate Attends(action: Action) {
    match action
    case ArmTimer => true
    case Close => true
    case Install => true
    case Set(s, _) => s != PendingListen
    case SetAndHandle(s, _) => s != PendingListen
    case Handle(input) => Answered(input)
    case ApproveLook => true
    case AbortDecision => true
    case ErrorDecision => true
    case _ => false
  }

  ghost predicate Attending(thread: seq<Action>) {
    exists i | 0 <= i < |thread| :: Attends(thread[i])
  }

  ghost predicate Attended(c: Conn) {
    exists t | 0 <= t < |c.threads| :: Attending(c.threads[t])
  }

  /** Open, waiting for trust, without a timer, and nobody does anything about it. */
  ghost predicate Unwatched(c: Conn) {
    !c.closing && c.state == PendingListen && !c.armed && !Attended(c)
  }

  // -------------------------------------------------- the handler of PendingListen

  /** A message is answered whatever the surroundings say, or it can go unanswered. */
  lemma AnsweredIff(input: Input)
    ensures Answered(input) <==> forall a: Answers :: Attending(HandlePendingListen(input, a))
  {
    if Answered(input) {
      forall a: Answers ensures Attending(HandlePendingListen(input, a)) {
        AnswerAttends(input, a);
      }
    } else {
      assert !Attending(HandlePendingListen(input, YES));
    }
  }

  lemma AnswerAttends(input: Input, a: Answers)
    requires Answered(input)
    ensures Attending(HandlePendingListen(input, a))
  {
    var actions := HandlePendingListen(input, a);
    assert Attends(actions[|actions| - 1]);
  }

  lemma AttendingRest(thread: seq<Action>, first: seq<Action>)
    requires thread != [] && Attending(thread) && !Attends(thread[0])
    ensures Attending(thread[1..]) && Attending(first + thread[1..])
  {
    var i :| 0 <= i < |thread| && Attends(thread[i]);
    assert thread[1..][i - 1] == thread[i];
    assert (first + thread[1..])[|first| + i - 1] == thread[i];
  }

  lemma AttendingFirst(first: seq<Action>, rest: seq<Action>)
    requires Attending(first)
    ensures Attending(first + rest)
  {
    var i :| 0 <= i < |first| && Attends(first[i]);
    assert (first + rest)[i] == first[i];
  }

  // -------------------------------------------------- the step that leaves it so

  /** The step that leaves a connection unwatched: PendingListen is entered with the
      timer gone already, or its timer is stopped; and nobody attends to it. */
  ghost predicate Abandons(c: Conn, e: Event) {
    && e.Advance? && e.t < |c.threads| && c.threads[e.t] != [] && !c.closing
    && (Enters(c, c.threads[e.t][0]) || Stops(c, c.threads[e.t][0]))
    && !Attending(c.threads[e.t][1..])
    && forall u | 0 <= u < |c.threads| && u != e.t :: !Attending(c.threads[u])
  }

  predicate Enters(c: Conn, x: Action) {
    x.Set? && x.state == PendingListen && c.state != PendingListen && !c.armed
  }

  predicate Stops(c: Conn, x: Action) {
    x == StopTimer && c.state == PendingListen && c.armed
  }

  /** What one action may do if the connection is unwatched but for the other threads. */
  ghost predicate Watched(c: Conn, x: Action, c': Conn, first: seq<Action>) {
    !c'.closing && c'.state == PendingListen && !c'.armed && !Attending(first) ==>
      || (Enters(c, x) && first == []) || (Stops(c, x) && first == [])
      || (c.state == PendingListen && !c.armed && !Attends(x))
  }

  lemma HandleWatches(c: Conn, input: Input, a: Answers)
    requires !c.closing
    ensures Watched(c, Handle(input), Act(c, Handle(input), a).0, Act(c, Handle(input), a).1)
  {
    if c.state == PendingListen && Answered(input) {
      AnswerAttends(input, a);
    }
  }

  lemma DecisionWatches(c: Conn, x: Action, a: Answers)
    requires !c.closing && A.Decides(x)
    ensures Watched(c, x, Act(c, x, a).0, Act(c, x, a).1)
  {
    if c.state == PendingListen {
      assert Attends(AfterLook(PendingListen)[2]) && Attends(AfterAbort(PendingListen)[1]);
      assert Attends(AfterError(c)[0]);
    }
  }

  lemma SetterWatches(c: Conn, x: Action, a: Answers)
    requires !c.closing && (x.Set? || x.SetAndHandle? || x.Install? || x.TryComplete?)
    ensures Watched(c, x, Act(c, x, a).0, Act(c, x, a).1)
  {
    assert Attends([Handle(Empty)][0]) && Attends([StopTimer, Install][1]);
  }

  lemma TimerWatches(c: Conn, a: Answers)
    requires !c.closing
    ensures Watched(c, ArmTimer, Act(c, ArmTimer, a).0, Act(c, ArmTimer, a).1)
    ensures Watched(c, StopTimer, Act(c, StopTimer, a).0, Act(c, StopTimer, a).1)
  {
  }

  lemma OtherWatches(c: Conn, x: Action, a: Answers)
    requires !c.closing && (x.Note? || x.Store? || x.Commit? || x.CallbackDone? || x.Close?)
    ensures Watched(c, x, Act(c, x, a).0, Act(c, x, a).1)
  {
  }

  lemma ActWatches(c: Conn, x: Action, a: Answers)
    requires !c.closing
    ensures Watched(c, x, Act(c, x, a).0, Act(c, x, a).1)
  {
    if x.Handle? {
      HandleWatches(c, x.input, a);
    } else if A.Decides(x) {
      DecisionWatches(c, x, a);
    } else if x.Set? || x.SetAndHandle? || x.Install? || x.TryComplete? {
      SetterWatches(c, x, a);
    } else if x.ArmTimer? || x.StopTimer? {
      TimerWatches(c, a);
    } else {
      OtherWatches(c, x, a);
    }
  }

  lemma ActKeepsThreads(c: Conn, x: Action, a: Answers)
    ensures Act(c, x, a).0.threads == c.threads && (c.closing ==> Act(c, x, a).0.closing)
  {
    if x.Handle? || A.Decides(x) {
      A.DecisionsUnmoved(c, x, a);
    } else if x.Store? || x.Note? || x.ArmTimer? || x.StopTimer? {
      A.MinorUnmoved(c, x, a);
    } else if x.Set? || x.SetAndHandle? || x.Install? {
      SettingKeepsThreads(c, x, a);
    } else {
      LatchKeepsThreads(c, x, a);
    }
  }

  lemma SettingKeepsThreads(c: Conn, x: Action, a: Answers)
    requires x.Set? || x.SetAndHandle? || x.Install?
    ensures Act(c, x, a).0.threads == c.threads && (c.closing ==> Act(c, x, a).0.closing)
  {
  }

  lemma LatchKeepsThreads(c: Conn, x: Action, a: Answers)
    requires x.Commit? || x.CallbackDone? || x.TryComplete? || x.Close?
    ensures Act(c, x, a).0.threads == c.threads && (c.closing ==> Act(c, x, a).0.closing)
  {
  }

  // ------------------------------------------------------- the exact condition

  lemma AdvanceAbandons(c: Conn, t: nat, a: Answers)
    requires t < |c.threads| && c.threads[t] != [] && !Unwatched(c) && Unwatched(AdvanceThread(c, t, a))
    ensures Abandons(c, Advance(t, a))
  {
    var x, rest, first := c.threads[t][0], c.threads[t][1..], Act(c, c.threads[t][0], a).1;
    var c' := AdvanceThread(c, t, a);
    ActKeepsThreads(c, x, a);
    assert !c.closing;
    assert c'.threads[t] == first + rest;
    assert !Attending(first) by { if Attending(first) { AttendingFirst(first, rest); } }
    ActWatches(c, x, a);
    forall u | 0 <= u < |c.threads| && u != t ensures !Attending(c.threads[u]) {
      assert c'.threads[u] == c.threads[u];
    }
    assert first == [] ==> first + rest == rest;
    if Attending(c.threads[t]) && !Attends(x) {
      AttendingRest(c.threads[t], first);
    }
  }

  /** A new thread takes nobody's attention away. */
  lemma SpawnAttends(c: Conn, x: Action)
    requires Attended(c) || Attends(x)
    ensures Attended(Spawn(c, x))
  {
    var c' := Spawn(c, x);
    if Attends(x) {
      assert c'.threads[|c.threads|] == [x] && Attends([x][0]);
    } else {
      var t :| 0 <= t < |c.threads| && Attending(c.threads[t]);
      assert c'.threads[t] == c.threads[t];
    }
  }

  lemma SpawnNotUnwatched(c: Conn, x: Action)
    requires !Unwatched(c)
    ensures !Unwatched(Spawn(c, x))
  {
    if Attended(c) {
      SpawnAttends(c, x);
    }
  }

  lemma SpawnedAttends(c: Conn, e: Event)
    requires !e.Advance? && !Unwatched(c)
    ensures !Unwatched(Step(c, e))
  {
    match e
    case Deliver(input) => SpawnNotUnwatched(c, Handle(input));
    case Expire => if c.armed { SpawnAttends(c.(armed := false), Handle(Timeout)); }
    case Approve => SpawnNotUnwatched(c, ApproveLatch);
    case Abort => SpawnNotUnwatched(c, AbortDecision);
    case ConnectionError => SpawnNotUnwatched(c, ErrorDecision);
    case CloseNow =>
  }

  lemma AbandonedIsUnwatched(c: Conn, e: Event)
    requires Abandons(c, e)
    ensures !Unwatched(c) && Unwatched(Step(c, e))
  {
    var c', rest := Step(c, e), c.threads[e.t][1..];
    assert [] + rest == rest;
    forall u | 0 <= u < |c'.threads| ensures !Attending(c'.threads[u]) {
      assert u != e.t ==> c'.threads[u] == c.threads[u];
    }
  }

  /** A step leaves a connection unwatched if and only if a thread enters PendingListen
      with the timer gone already, or stops its timer there, and nobody attends. */
  lemma UnwatchedIff(c: Conn, e: Event)
    ensures !Unwatched(c) && Unwatched(Step(c, e)) <==> Abandons(c, e)
  {
    if Abandons(c, e) {
      AbandonedIsUnwatched(c, e);
    } else if !Unwatched(c) {
      if e.Advance? {
        if e.t < |c.threads| && c.threads[e.t] != [] && Unwatched(Step(c, e)) {
          AdvanceAbandons(c, e.t, e.answers);
        }
      } else {
        SpawnedAttends(c, e);
      }
    }
  }

  // ------------------------------------------------------------- over whole runs

  /** Every stop of the timer has somebody to attend after it, and no short pending
      message is on its way to a handler. */
  ghost predicate Clean(thread: seq<Action>) {
    thread == [] ||
    (&& !(thread[0].Handle? && ShortPending(thread[0].input))
     && (thread[0] == StopTimer ==> Attending(thread[1..]))
     && Clean(thread[1..]))
  }

  lemma {:induction false} CleanConcat(first: seq<Action>, rest: seq<Action>)
    requires Clean(first) && Clean(rest)
    ensures Clean(first + rest)
  {
    if first == [] {
      assert first + rest == rest;
    } else {
      CleanConcat(first[1..], rest);
      assert (first + rest)[1..] == first[1..] + rest;
      if first[0] == StopTimer {
        AttendingFirst(first[1..], rest);
      }
    }
  }

  /** No stop at all, or an attending action at the end. */
  ghost predicate EndsWell(actions: seq<Action>) {
    && (forall i | 0 <= i < |actions| :: !(actions[i].Handle? && ShortPending(actions[i].input)))
    && ((forall i | 0 <= i < |actions| :: actions[i] != StopTimer) || Attends(actions[|actions| - 1]))
  }

  lemma {:induction false} EndsWellClean(actions: seq<Action>)
    requires EndsWell(actions)
    ensures Clean(actions)
  {
    if actions != [] {
      var rest := actions[1..];
      if rest != [] {
        assert rest[|rest| - 1] == actions[|actions| - 1];
      }
      if actions[0] == StopTimer {
        assert Attends(actions[|actions| - 1]);
        assert rest != [] && Attends(rest[|rest| - 1]);
      }
      assert EndsWell(rest);
      EndsWellClean(rest);
    }
  }

  lemma HelloHandlersEndWell(s: State, role: Role, shipId: string, input: Input, a: Answers)
    requires (s == Hello || s == ReadyListen || s == PendingInit) && !ShortPending(input)
    ensures EndsWell(Handler(s, role, shipId, input, a))
  {
  }

  lemma NoShortFromPending(input: Input, a: Answers)
    ensures var actions := HandlePendingListen(input, a);
            forall i | 0 <= i < |actions| :: !(actions[i].Handle? && ShortPending(actions[i].input))
  {
  }

  lemma AnswersLast(input: Input, a: Answers)
    requires !ShortPending(input)
    ensures var actions := HandlePendingListen(input, a);
            actions == [] || Attends(actions[|actions| - 1])
  {
  }

  lemma PendingHandlerEndsWell(role: Role, shipId: string, input: Input, a: Answers)
    requires !ShortPending(input)
    ensures EndsWell(Handler(PendingListen, role, shipId, input, a))
  {
    NoShortFromPending(input, a);
    AnswersLast(input, a);
  }

  lemma InitHandlerEndsWell(s: State, role: Role, shipId: string, input: Input, a: Answers)
    requires s == InitStart || s == ClientWait || s == ServerWait
    ensures EndsWell(Handler(s, role, shipId, input, a))
  {
  }

  lemma ProtocolHandlerEndsWell(s: State, role: Role, shipId: string, input: Input, a: Answers)
    requires InProtocol(s)
    ensures EndsWell(Handler(s, role, shipId, input, a))
  {
    ProtocolHandlerLeaves(s, role, input, a);
  }

  lemma ProtocolHandlerLeaves(s: State, role: Role, input: Input, a: Answers)
    requires InProtocol(s)
    ensures var actions := HandleProtocol(s, role, input, a);
            actions != [] && Attends(actions[|actions| - 1]) && forall i | 0 <= i < |actions| :: !actions[i].Handle?
  {
  }

  lemma PinHandlerEndsWell(s: State, role: Role, shipId: string, input: Input, a: Answers)
    requires InPin(s)
    ensures EndsWell(Handler(s, role, shipId, input, a))
  {
  }

  lemma SendersEndWell(s: State, role: Role, shipId: string, input: Input, a: Answers)
    requires Sends(s)
    ensures EndsWell(Handler(s, role, shipId, input, a))
  {
  }

  lemma HandlersEndWell(s: State, role: Role, shipId: string, input: Input, a: Answers)
    requires s != AccessRequest && !ShortPending(input)
    ensures EndsWell(Handler(s, role, shipId, input, a))
  {
    if s == InitStart || s == ClientWait || s == ServerWait {
      InitHandlerEndsWell(s, role, shipId, input, a);
    } else if s == Hello || s == ReadyListen || s == PendingInit {
      HelloHandlersEndWell(s, role, shipId, input, a);
    } else if s == PendingListen {
      PendingHandlerEndsWell(role, shipId, input, a);
    } else if InProtocol(s) {
      ProtocolHandlerEndsWell(s, role, shipId, input, a);
    } else if InPin(s) {
      PinHandlerEndsWell(s, role, shipId, input, a);
    } else if Sends(s) {
      SendersEndWell(s, role, shipId, input, a);
    } else {
      IdleHandlers(s, role, shipId, input, a);
    }
  }

  lemma ReplyClean(id: string)
    ensures Clean([Store(id), StopTimer, Commit(id), Put(Approved), CallbackDone, TryComplete])
  {
    var first, last := [Store(id), StopTimer, Commit(id), Put(Approved)], [CallbackDone, TryComplete];
    EndsWellClean(first);
    EndsWellClean(last);
    CleanConcat(first, last);
    assert first + last == [Store(id), StopTimer, Commit(id), Put(Approved), CallbackDone, TryComplete];
  }

  lemma AccessClean(shipId: string, input: Input, a: Answers)
    ensures Clean(HandleAccess(input, shipId, a))
  {
    var actions := HandleAccess(input, shipId, a);
    if input.AccessMethods? && input.id.Some? && (shipId == "" || shipId == input.id.value) {
      var id := input.id.value;
      ReplyClean(id);
    } else {
      EndsWellClean(actions);
    }
  }

  lemma HandlersClean(s: State, role: Role, shipId: string, input: Input, a: Answers)
    requires !ShortPending(input)
    ensures Clean(Handler(s, role, shipId, input, a))
  {
    if s == AccessRequest {
      AccessClean(shipId, input, a);
    } else {
      HandlersEndWell(s, role, shipId, input, a);
      EndsWellClean(Handler(s, role, shipId, input, a));
    }
  }

  lemma HandleBringsClean(c: Conn, input: Input, a: Answers)
    requires !ShortPending(input)
    ensures Clean(Act(c, Handle(input), a).1)
  {
    HandlersClean(c.state, c.role, c.shipId, input, a);
  }

  lemma OthersBringClean(c: Conn, x: Action, a: Answers)
    requires !x.Handle?
    ensures Clean(Act(c, x, a).1)
  {
    OthersEndWell(c, x, a);
    EndsWellClean(Act(c, x, a).1);
  }

  lemma OthersEndWell(c: Conn, x: Action, a: Answers)
    requires !x.Handle?
    ensures EndsWell(Act(c, x, a).1)
  {
    if x.ApproveLook? {
      assert EndsWell(AfterLook(c.state));
    } else if x.AbortDecision? {
      assert EndsWell(AfterAbort(c.state));
    } else if x.ErrorDecision? {
      assert EndsWell(AfterError(c));
    } else if x.ApproveLatch? {
      assert EndsWell(AfterLatch(c));
    }
  }

  ghost predicate AllClean(c: Conn) {
    forall u | 0 <= u < |c.threads| :: Clean(c.threads[u])
  }

  lemma StopsAreAttended(c: Conn, t: nat)
    requires AllClean(c) && t < |c.threads| && c.threads[t] != [] && !Attending(c.threads[t][1..])
    ensures c.threads[t][0] != StopTimer
  {
    assert Clean(c.threads[t]);
  }

  lemma AdvanceKeepsClean(c: Conn, t: nat, a: Answers)
    requires AllClean(c) && t < |c.threads| && c.threads[t] != []
    ensures AllClean(AdvanceThread(c, t, a))
  {
    var x := c.threads[t][0];
    assert Clean(c.threads[t]);
    if x.Handle? {
      HandleBringsClean(c, x.input, a);
    } else {
      OthersBringClean(c, x, a);
    }
    CleanConcat(Act(c, x, a).1, c.threads[t][1..]);
  }

  predicate Delivered(events: seq<Event>) {
    exists i | 0 <= i < |events| :: events[i].Deliver? && ShortPending(events[i].input)
  }

  lemma CleanSingle(x: Action)
    requires x.Handle? ==> !ShortPending(x.input)
    requires x != StopTimer
    ensures Clean([x])
  {
    assert [x][1..] == [];
  }

  lemma SpawnKeepsClean(c: Conn, e: Event)
    requires AllClean(c) && !e.Advance? && !(e.Deliver? && ShortPending(e.input))
    ensures AllClean(Step(c, e))
  {
    if e.Deliver? {
      CleanSingle(Handle(e.input));
    }
    CleanSingle(Handle(Timeout));
    CleanSingle(ApproveLatch);
    CleanSingle(AbortDecision);
    CleanSingle(ErrorDecision);
  }

  /** Only a short pending message brings a stop that nobody attends to. */
  lemma {:induction false} CleanUnlessDelivered(role: Role, required: bool, shipId: string, events: seq<Event>)
    requires !Delivered(events)
    ensures AllClean(Run(Fresh(role, required, shipId), events))
  {
    if events != [] {
      var front, e := events[..|events| - 1], events[|events| - 1];
      forall i | 0 <= i < |front| ensures !(front[i].Deliver? && ShortPending(front[i].input)) {
        assert front[i] == events[i];
      }
      CleanUnlessDelivered(role, required, shipId, front);
      var c := Run(Fresh(role, required, shipId), front);
      if e.Advance? {
        if e.t < |c.threads| && c.threads[e.t] != [] {
          AdvanceKeepsClean(c, e.t, e.answers);
        }
      } else {
        SpawnKeepsClean(c, e);
      }
    }
  }

  lemma LastStepAbandons(role: Role, required: bool, shipId: string, front: seq<Event>, e: Event)
    requires var c := Run(Fresh(role, required, shipId), front); !Unwatched(c) && Unwatched(Step(c, e))
    ensures var c := Run(Fresh(role, required, shipId), front);
            Abandons(c, e) && (Enters(c, c.threads[e.t][0]) || Delivered(front))
  {
    var c := Run(Fresh(role, required, shipId), front);
    UnwatchedIff(c, e);
    if !Delivered(front) {
      CleanUnlessDelivered(role, required, shipId, front);
      StopsAreAttended(c, e.t);
    }
  }

  lemma UnwatchedToTheEnd(c: Conn, events: seq<Event>, k: nat)
    requires k < |events| && Unwatched(Run(c, events))
    requires var front := events[..|events| - 1]; forall j | k < j <= |front| :: Unwatched(Run(c, front[..j]))
    ensures forall j | k < j <= |events| :: Unwatched(Run(c, events[..j]))
  {
    var front := events[..|events| - 1];
    forall j | k < j <= |events| ensures Unwatched(Run(c, events[..j])) {
      if j <= |front| {
        assert front[..j] == events[..j] && Unwatched(Run(c, front[..j]));
      } else {
        assert events[..j] == events;
      }
    }
  }

  /** Every unwatched connection of every run goes back to one step: PendingListen was
      entered after the timer had been claimed or stopped, or the timer was stopped
      there, and that only after a short pending message had been delivered. Since
      that step nobody has attended. */
  lemma {:induction false} UnwatchedHasCause(role: Role, required: bool, shipId: string, events: seq<Event>) returns (k: nat)
    requires Unwatched(Run(Fresh(role, required, shipId), events))
    ensures k < |events| && Abandons(Run(Fresh(role, required, shipId), events[..k]), events[k])
    ensures forall j | k < j <= |events| :: Unwatched(Run(Fresh(role, required, shipId), events[..j]))
    ensures var c := Run(Fresh(role, required, shipId), events[..k]);
            Enters(c, c.threads[events[k].t][0]) || Delivered(events[..k])
  {
    assert events != [];
    var front, e := events[..|events| - 1], events[|events| - 1];
    var c := Run(Fresh(role, required, shipId), front);
    assert events[..|events|] == events;
    if Unwatched(c) {
      k := UnwatchedHasCause(role, required, shipId, front);
      assert front[..k] == events[..k];
      UnwatchedToTheEnd(Fresh(role, required, shipId), events, k);
    } else {
      k := |front|;
      LastStepAbandons(role, required, shipId, front, e);
    }
  }

  // ------------------------------------------- both causes, and a ready message

  ghost predicate WaitsQuietly(c: Conn) {
    !c.closing && c.armed && c.state == PendingListen && !Attended(c)
  }

  lemma QuietWith(others: seq<seq<Action>>, c: Conn)
    requires c.threads == others + [[]] && forall u | 0 <= u < |others| :: !Attending(others[u])
    ensures !Attended(c)
  {
  }

  lemma DeliverStep(c: Conn, input: Input, a: Answers)
    requires !c.closing && !input.Timeout?
    ensures Step(Step(c, Deliver(input)), Advance(|c.threads|, a))
         == c.(threads := c.threads + [Handler(c.state, c.role, c.shipId, input, a)])
  {
    var c1 := Step(c, Deliver(input));
    assert [Handle(input)] == [Handle(input)] + [];
    Acts(c1, c.threads, Handle(input), [], a);
    assert Handler(c.state, c.role, c.shipId, input, a) + [] == Handler(c.state, c.role, c.shipId, input, a);
  }

  lemma StopStep(c: Conn, others: seq<seq<Action>>, rest: seq<Action>, a: Answers)
    requires c.threads == others + [[StopTimer] + rest]
    ensures Step(c, Advance(|others|, a)) == c.(armed := false, threads := others + [rest])
  {
    Acts(c, others, StopTimer, rest, a);
    assert [] + rest == rest;
  }

  lemma ArmStep(c: Conn, others: seq<seq<Action>>, a: Answers)
    requires !c.closing && c.threads == others + [[ArmTimer]]
    ensures Step(c, Advance(|others|, a)) == c.(armed := true, threads := others + [[]])
  {
    var none: seq<Action> := [];
    assert [ArmTimer] == [ArmTimer] + none && none + none == none;
    Acts(c, others, ArmTimer, none, a);
  }

  lemma AbortStep(c: Conn, others: seq<seq<Action>>, rest: seq<Action>, a: Answers)
    requires !c.closing && c.threads == others + [[Go(HelloAbort)] + rest]
    ensures var c' := Step(c, Advance(|others|, a));
            !c'.closing && c'.state == HelloAbort && c'.threads == others + [[Handle(Empty)] + rest]
  {
    Acts(c, others, Go(HelloAbort), rest, a);
  }

  /** A thread that has nothing left to do does nothing. */
  lemma IdleStep(c: Conn, others: seq<seq<Action>>, a: Answers)
    requires c.threads == others + [[]]
    ensures Step(c, Advance(|others|, a)) == c
  {
  }

  ghost predicate Unattending(threads: seq<seq<Action>>) {
    forall u | 0 <= u < |threads| :: !Attending(threads[u])
  }

  lemma Rearmed(c: Conn, others: seq<seq<Action>>, a: Answers)
    requires !c.closing && c.state == PendingListen && Unattending(others) && c.threads == others + [[StopTimer, ArmTimer]]
    ensures var e := Advance(|others|, a);
            var c' := Step(Step(c, e), e);
            WaitsQuietly(c') && c'.threads == others + [[]]
  {
    var e := Advance(|others|, a);
    assert [StopTimer, ArmTimer] == [StopTimer] + [ArmTimer];
    StopStep(c, others, [ArmTimer], a);
    ArmStep(Step(c, e), others, a);
    QuietWith(others, Step(Step(c, e), e));
  }

  lemma StoppedOnly(c: Conn, others: seq<seq<Action>>, a: Answers)
    requires !c.closing && c.state == PendingListen && Unattending(others) && c.threads == others + [[StopTimer]]
    ensures var e := Advance(|others|, a);
            Unwatched(Step(Step(c, e), e))
  {
    assert [StopTimer] == [StopTimer] + [];
    StopStep(c, others, [], a);
    var c1 := Step(c, Advance(|others|, a));
    QuietWith(others, c1);
    IdleStep(c1, others, a);
  }

  lemma StoppedAndAborted(c: Conn, others: seq<seq<Action>>, rest: seq<Action>, a: Answers)
    requires !c.closing && c.threads == others + [[StopTimer] + ([Go(HelloAbort)] + rest)]
    ensures var e := Advance(|others|, a);
            var c' := Step(Step(c, e), e);
            !c'.closing && c'.state == HelloAbort && c'.threads == others + [[Handle(Empty)] + rest]
  {
    StopStep(c, others, [Go(HelloAbort)] + rest, a);
    AbortStep(Step(c, Advance(|others|, a)), others, rest, a);
  }

  /** A pending message to a connection that waits quietly is handled in three steps. It
      leaves the connection unwatched exactly if its wait is from one up to thirty
      seconds; otherwise the timer is armed again or the handshake is aborted. */
  lemma PendingLeftWithoutTimer(c: Conn, wait: nat, a: Answers)
    requires WaitsQuietly(c)
    ensures var e := Advance(|c.threads|, a);
            var c' := Step(Step(Step(Step(c, Deliver(HelloMessage(Pending, Some(wait), None))), e), e), e);
            && (Unwatched(c') <==> PROLONG_MIN <= wait < PROLONG_THRESHOLD)
            && (wait >= PROLONG_THRESHOLD ==> WaitsQuietly(c')) && (wait < PROLONG_MIN ==> c'.state == HelloAbort)
  {
    var input, e := HelloMessage(Pending, Some(wait), None), Advance(|c.threads|, a);
    DeliverStep(c, input, a);
    var c1 := Step(Step(c, Deliver(input)), e);
    assert Unattending(c.threads);
    if wait >= PROLONG_THRESHOLD {
      Rearmed(c1, c.threads, a);
    } else if wait < PROLONG_MIN {
      assert [StopTimer, Go(HelloAbort)] == [StopTimer] + ([Go(HelloAbort)] + []);
      StoppedAndAborted(c1, c.threads, [], a);
    } else {
      StoppedOnly(c1, c.threads, a);
    }
  }

  lemma ReadyShort(c: Conn, others: seq<seq<Action>>, a: Answers)
    requires !c.closing && c.state == PendingListen && c.threads == others + [[StopTimer, Handle(Empty)]]
    ensures var e := Advance(|others|, a);
            Step(Step(Step(c, e), e), e).state == HelloAbort
  {
    var e := Advance(|others|, a);
    assert [StopTimer, Handle(Empty)] == [StopTimer] + [Handle(Empty)];
    StopStep(c, others, [Handle(Empty)], a);
    var c1 := Step(c, e);
    assert [Handle(Empty)] == [Handle(Empty)] + [];
    Acts(c1, others, Handle(Empty), [], a);
    assert [Go(HelloAbort)] + [] == [Go(HelloAbort)];
    AbortStep(Step(c1, e), others, [], a);
  }

  /** The abort message is about to be sent, and the state stays for the moment. */
  function AfterStop(a: Answers): seq<Action> {
    if a.sent then [Go(AbortDone)] else FAIL
  }

  lemma AbortStops(c: Conn, others: seq<seq<Action>>, rest: seq<Action>, a: Answers)
    requires !c.closing && c.state == HelloAbort && c.threads == others + [[Handle(Empty)] + rest]
    ensures Step(c, Advance(|others|, a)) == c.(threads := others + [[StopTimer] + (AfterStop(a) + rest)])
  {
    Acts(c, others, Handle(Empty), rest, a);
    assert Handler(HelloAbort, c.role, c.shipId, Empty, a) == [StopTimer] + AfterStop(a);
    assert [StopTimer] + AfterStop(a) + rest == [StopTimer] + (AfterStop(a) + rest);
  }

  lemma AbortHolds(c: Conn, others: seq<seq<Action>>, rest: seq<Action>, a: Answers)
    requires !c.closing && c.state == HelloAbort && c.threads == others + [[Handle(Empty)] + rest]
    ensures var e := Advance(|others|, a);
            Step(c, e).state == HelloAbort && Step(Step(c, e), e).state == HelloAbort
  {
    AbortStops(c, others, rest, a);
    StopStep(Step(c, Advance(|others|, a)), others, AfterStop(a) + rest, a);
  }

  lemma ReadyWithout(c: Conn, others: seq<seq<Action>>, a: Answers)
    requires !c.closing && c.state == PendingListen && c.threads == others + [[Go(HelloAbort)]]
    ensures var e := Advance(|others|, a);
            Step(Step(Step(c, e), e), e).state == HelloAbort
  {
    assert [Go(HelloAbort)] == [Go(HelloAbort)] + [];
    AbortStep(c, others, [], a);
    AbortHolds(Step(c, Advance(|others|, a)), others, [], a);
  }

  lemma ReadyTiny(c: Conn, others: seq<seq<Action>>, a: Answers)
    requires !c.closing && c.threads == others + [[StopTimer, Go(HelloAbort), Handle(Empty)]]
    ensures var e := Advance(|others|, a);
            Step(Step(Step(c, e), e), e).state == HelloAbort
  {
    var e := Advance(|others|, a);
    assert [StopTimer, Go(HelloAbort), Handle(Empty)] == [StopTimer] + ([Go(HelloAbort)] + [Handle(Empty)]);
    StoppedAndAborted(c, others, [Handle(Empty)], a);
    AbortHolds(Step(Step(c, e), e), others, [Handle(Empty)], a);
  }

  lemma ReadyLong(c: Conn, others: seq<seq<Action>>, a: Answers)
    requires !c.closing && c.state == PendingListen && Unattending(others) && c.threads == others + [[StopTimer, ArmTimer]]
    ensures var e := Advance(|others|, a);
            WaitsQuietly(Step(Step(Step(c, e), e), e))
  {
    var e := Advance(|others|, a);
    Rearmed(c, others, a);
    IdleStep(Step(Step(c, e), e), others, a);
  }

  /** A ready message to a connection that waits quietly: after four steps it still waits,
      with its timer armed again, exactly if the wait is thirty seconds or more; with
      any shorter wait, or none, the handshake has been aborted. */
  lemma ReadyWaitKeepsPending(c: Conn, waiting: Option<nat>, prolongation: Option<bool>, a: Answers)
    requires WaitsQuietly(c)
    ensures var e := Advance(|c.threads|, a);
            var c' := Step(Step(Step(Step(Step(c, Deliver(HelloMessage(Ready, waiting, prolongation))), e), e), e), e);
            && (WaitsQuietly(c') <==> waiting.Some? && waiting.value >= PROLONG_THRESHOLD)
            && (!WaitsQuietly(c') ==> c'.state == HelloAbort)
  {
    var input, e := HelloMessage(Ready, waiting, prolongation), Advance(|c.threads|, a);
    DeliverStep(c, input, a);
    var c1 := Step(Step(c, Deliver(input)), e);
    assert Unattending(c.threads);
    if waiting.None? {
      ReadyWithout(c1, c.threads, a);
    } else if waiting.value >= PROLONG_THRESHOLD {
      ReadyLong(c1, c.threads, a);
    } else if waiting.value >= PROLONG_MIN {
      ReadyShort(c1, c.threads, a);
    } else {
      ReadyTiny(c1, c.threads, a);
    }
  }

  lemma EntryStep(c: Conn, others: seq<seq<Action>>, a: Answers)
    requires !c.closing && !c.armed && Unattending(others) && c.threads == others + [[Put(PendingListen)]]
    ensures Unwatched(Step(c, Advance(|others|, a)))
  {
    var none: seq<Action> := [];
    assert [Put(PendingListen)] == [Put(PendingListen)] + none && none + none == none;
    Acts(c, others, Put(PendingListen), none, a);
    var c' := Step(c, Advance(|others|, a));
    assert c'.threads == others + [[]];
    QuietWith(others, c');
  }

  /** The other cause: a timer that expires while PendingInit is being handled. Its
      handler only enters PendingListen, and the one timer has been claimed. */
  lemma ExpiryWhileEntering(c: Conn)
    requires !c.closing && c.armed && c.state == PendingInit && !Attended(c)
    ensures var e := Advance(|c.threads|, YES);
            Unwatched(Step(Step(Step(c, Expire), e), e))
  {
    var c1 := Step(c, Expire);
    assert [Handle(Timeout)] == [Handle(Timeout)] + [];
    Acts(c1, c.threads, Handle(Timeout), [], YES);
    assert HandlePendingInit(YES) + [] == [Put(PendingListen)];
    EntryStep(Step(c1, Advance(|c.threads|, YES)), c.threads, YES);
  }
}
