/**
 The SHIP handshake state machine (sections 13.4.3 to 13.4.6 of SHIP 1.0.1). The read
 pump, timeouts, approval and abort calls and connection errors run in threads of
 their own. A handler reads the state once and then goes through its actions, each
 a critical section of its own, while other threads may change the state in between.
 */
module Handshake {
  import opened Basics

  datatype Role = Client | Server

  datatype State =
    | InitStart | ClientSend | ClientWait | ClientEvaluate | ServerWait | ServerEvaluate
    | Hello | ReadyInit | ReadyListen | PendingInit | PendingListen
    | HelloOk | HelloAbort | AbortDone | RemoteAbortDone | Rejected
    | ServerInit | ServerListenProposal | ServerListenConfirm | ServerOk
    | ClientInit | ClientListenChoice | ClientOk
    | PinCheckInit | PinCheckListen | PinAskInit | PinAskProcess | PinAskRestricted | PinAskOk | PinCheckOk
    | AccessRequest | Approved | Complete | Error

  datatype HelloPhase = Ready | Pending | Aborted | OtherPhase
  datatype ProtKind = AnnounceMax | SelectProtocol | OtherKind
  datatype Format = Utf8 | OtherFormat
  datatype PinState = PinNone | PinOk | PinRequired | PinOptional | PinOther
  datatype Permission = Busy | PermissionOk | OtherPermission

  /** What a handler is called with. `Empty` is the nil message; a wait is in milliseconds. */
  datatype Input =
    | Timeout
    | Empty
    | InitMessage(valid: bool)
    | HelloMessage(phase: HelloPhase, waiting: Option<nat>, prolongation: Option<bool>)
    | ProtocolMessage(kind: ProtKind, major: nat, minor: nat, formats: seq<Format>)
    | PinStateMessage(pin: PinState, permission: Option<Permission>)
    | PinErrorMessage
    | AccessMethodsRequest
    | AccessMethods(id: Option<string>)
    | Unreadable

  /** Everything a handler asks its surroundings while it runs. */
  datatype Answers = Answers(sent: bool, trusted: bool, allowed: bool, prolongTimer: bool,
                             pinSent: bool, pinError: bool, pinProvided: bool)

  /** Milestones and other remarkable moments, in order. */
  datatype Mark =
    | InitDone | HelloPassed | ProtocolSelected | PinPassed | AccessMatched(id: string)
    | HelloEntry(admitted: bool) | ApprovalCall | Completed

  /** One action of a handler. `Set` is setState, `SetAndHandle` is setAndHandleState,
      `Handle` calls handleState again. A mark is logged when the state is really set. */
  datatype Action =
    | Set(state: State, mark: Option<Mark>)
    | SetAndHandle(state: State, mark: Option<Mark>)
    | Handle(input: Input)
    | Note(moment: Mark)
    | Store(id: string)
    | Commit(id: string)
    | CallbackDone
    | TryComplete
    | Install
    | ApproveLatch
    | ApproveLook
    | AbortDecision
    | ErrorDecision
    | Close
    | ArmTimer
    | StopTimer

  const PROLONG_THRESHOLD := 30000
  const PROLONG_MIN := 1000

  /** `endHandshakeWithError` and `abortProtocolHandshake`. */
  const FAIL := [StopTimer, Set(Error, None), Close]

  function Go(s: State): Action {
    SetAndHandle(s, None)
  }

  function Put(s: State): Action {
    Set(s, None)
  }

  // -------------------------------------------------------------- handlers

  /** hs_init.go. An empty message passes as a valid init message. */
  predicate ValidInit(input: Input) {
    input.Empty? || (input.InitMessage? && input.valid)
  }

  function HandleInit(s: State, role: Role, input: Input, a: Answers): seq<Action> {
    if s == InitStart then
      if role == Client
      then [Put(ClientSend)] + (if a.sent then [Put(ClientWait), ArmTimer] else FAIL)
      else [Put(ServerWait), ArmTimer]
    else if input.Timeout? then FAIL
    else
      [Put(if s == ClientWait then ClientEvaluate else ServerEvaluate)]
      + (if ValidInit(input) && (s == ClientWait || a.sent) then [SetAndHandle(Hello, Some(InitDone))] else FAIL)
  }

  function HandleHello(role: Role, input: Input, a: Answers): seq<Action> {
    if a.trusted || role == Client
    then [Note(HelloEntry(true)), Put(ReadyInit), Handle(input)]
    else [Note(HelloEntry(false)), Put(PendingInit), Handle(input)]
  }

  function HandleReadyListen(input: Input, a: Answers): seq<Action> {
    match input
    case HelloMessage(phase, _, prolongation) =>
      (match phase
       case Ready => [Set(HelloOk, Some(HelloPassed)), Handle(Empty)]
       case Pending =>
         if prolongation == Some(true)
         then (if a.allowed then [ArmTimer] else []) + (if a.sent then [] else FAIL)
         else []
       case Aborted => [Go(RemoteAbortDone)]
       case OtherPhase => [Go(HelloAbort)])
    case _ => [Go(HelloAbort)]
  }

  function HandlePendingInit(a: Answers): seq<Action> {
    if !a.sent then FAIL
    else [Put(PendingListen)] + (if a.allowed then [] else [Go(HelloAbort)])
  }

  function HandlePendingTimeout(a: Answers): seq<Action> {
    if !a.allowed && !a.prolongTimer then [Go(HelloAbort)]
    else if a.sent then [ArmTimer]
    else FAIL
  }

  function HandlePendingListen(input: Input, a: Answers): seq<Action> {
    match input
    case Timeout => HandlePendingTimeout(a)
    case HelloMessage(phase, waiting, prolongation) =>
      (match phase
       case Ready =>
         if waiting.None? then [Go(HelloAbort)]
         else if waiting.value >= PROLONG_THRESHOLD then [StopTimer, ArmTimer]
         else if waiting.value < PROLONG_MIN then [StopTimer, Go(HelloAbort), Handle(Empty)]
         else [StopTimer, Handle(Empty)]
       case Pending =>
         if waiting.Some? && prolongation.None? then
           if waiting.value >= PROLONG_THRESHOLD then [StopTimer, ArmTimer]
           else if waiting.value < PROLONG_MIN then [StopTimer, Go(HelloAbort)]
           else [StopTimer]
         else if waiting.None? && prolongation == Some(true) then if a.sent then [] else FAIL
         else [Go(HelloAbort), Handle(Empty)]
       case Aborted => [Go(RemoteAbortDone)]
       case OtherPhase => [Go(HelloAbort)])
    case _ => [Go(HelloAbort)]
  }

  function HandleProtocol(s: State, role: Role, input: Input, a: Answers): seq<Action> {
    match s
    case HelloOk =>
      if role == Server then [Put(ServerInit), ArmTimer, Put(ServerListenProposal)]
      else [Put(ClientInit), Put(ClientInit)] + (if a.sent then [Put(ClientListenChoice)] else FAIL)
    case ServerListenProposal =>
      if input.ProtocolMessage? && input.kind == AnnounceMax
      then [StopTimer] + (if a.sent then [] else FAIL) + [ArmTimer, Put(ServerListenConfirm)]
      else FAIL
    case ServerListenConfirm =>
      if input.ProtocolMessage? && input.kind == SelectProtocol
      then [StopTimer, SetAndHandle(ServerOk, Some(ProtocolSelected))]
      else FAIL
    case ClientListenChoice =>
      if input.ProtocolMessage? && input.kind == SelectProtocol && input.major == 1 && input.minor == 0
         && input.formats == [Utf8]
      then [StopTimer] + (if a.sent then [SetAndHandle(ClientOk, Some(ProtocolSelected))] else FAIL)
      else [StopTimer] + FAIL
    case _ => [Go(PinCheckInit)]
  }

  function HandlePin(input: Input, a: Answers): seq<Action> {
    match input
    case PinStateMessage(pin, permission) =>
      (match pin
       case PinNone => if permission.None? then [SetAndHandle(PinCheckOk, Some(PinPassed))] else FAIL
       case PinOk => if permission.None? then [SetAndHandle(PinCheckOk, Some(PinPassed))] else FAIL
       case PinOther => FAIL
       case _ =>
         if permission == Some(Busy) then [Put(PinAskProcess)]
         else if permission != Some(PermissionOk) then FAIL
         else if a.pinSent then [Put(PinAskProcess)]
         else [Put(PinAskProcess)] +
              (if a.pinError then FAIL
               else if a.pinProvided then [ArmTimer]
               else if pin == PinOptional then [SetAndHandle(PinAskRestricted, Some(PinPassed))]
               else FAIL))
    case _ => FAIL
  }

  /** `shipId` is the stored SHIP ID of the remote, empty when unknown. */
  function HandleAccess(input: Input, shipId: string, a: Answers): seq<Action> {
    match input
    case AccessMethodsRequest => if a.sent then [] else FAIL
    case AccessMethods(id) =>
      if id.None? || (shipId != "" && shipId != id.value) then FAIL
      else [Store(id.value), StopTimer, Commit(id.value), Put(Approved), CallbackDone, TryComplete]
    case _ => FAIL
  }

  /** `handleState` on the state it found. */
  function Handler(s: State, role: Role, shipId: string, input: Input, a: Answers): seq<Action> {
    match s
    case InitStart => HandleInit(s, role, input, a)
    case ClientWait => HandleInit(s, role, input, a)
    case ServerWait => HandleInit(s, role, input, a)
    case Hello => HandleHello(role, input, a)
    case ReadyInit => if a.sent then [Put(ReadyListen)] else [Go(HelloAbort)]
    case ReadyListen => HandleReadyListen(input, a)
    case PendingInit => HandlePendingInit(a)
    case PendingListen => HandlePendingListen(input, a)
    case HelloAbort => [StopTimer] + (if a.sent then [Go(AbortDone)] else FAIL)
    case HelloOk => HandleProtocol(s, role, input, a)
    case ServerListenProposal => HandleProtocol(s, role, input, a)
    case ServerListenConfirm => HandleProtocol(s, role, input, a)
    case ClientListenChoice => HandleProtocol(s, role, input, a)
    case ServerOk => HandleProtocol(s, role, input, a)
    case ClientOk => HandleProtocol(s, role, input, a)
    case PinCheckInit => [Put(PinCheckInit)] + (if a.sent then [Put(PinAskInit)] else FAIL)
    case PinCheckListen => HandlePin(input, a)
    case PinAskInit => HandlePin(input, a)
    case PinAskProcess => HandlePin(input, a)
    case PinCheckOk => if a.sent then [ArmTimer, Put(AccessRequest)] else FAIL
    case PinAskRestricted => if a.sent then [ArmTimer, Put(AccessRequest)] else FAIL
    case PinAskOk => if a.sent then [ArmTimer, Put(AccessRequest)] else FAIL
    case AccessRequest => HandleAccess(input, shipId, a)
    case _ => []
  }

  // ------------------------------------------------------------ connections

  datatype Conn = Conn(
    role: Role, required: bool, state: State, armed: bool, shipId: string, closing: bool,
    requested: bool, released: bool, commitStarted: bool, callbackDone: bool, setupStarted: bool,
    threads: seq<seq<Action>>, log: seq<Mark>)

  function Fresh(role: Role, required: bool, shipId: string): Conn {
    Conn(role, required, InitStart, false, shipId, false, false, false, false, false, false, [], [])
  }

  /** Whether a timer runs after setState; some states arm it, some stop it. */
  predicate ArmedAfter(c: Conn, s: State, a: Answers) {
    if s in {ReadyInit, PendingInit, ClientListenChoice, PinAskInit} then true
    else if s == PinAskProcess && (a.pinSent || c.state != PinAskProcess) then true
    else if s in {HelloOk, HelloAbort, AbortDone, RemoteAbortDone, Rejected, ClientOk, PinCheckOk, PinAskRestricted, PinAskOk}
    then false
    else c.armed
  }

  /** setState while the connection is open. */
  function Enter(c: Conn, s: State, mark: Option<Mark>, a: Answers): Conn {
    c.(state := s, armed := ArmedAfter(c, s, a), log := if mark.Some? then c.log + [mark.value] else c.log)
  }

  /** `ApprovePendingHandshake`, first `requestPairingApproval`: what the calling thread
      does after its look at the latch. */
  function AfterLatch(c: Conn): seq<Action> {
    if c.commitStarted && !c.callbackDone && !c.closing then []
    else if !c.required then [ApproveLook]
    else if !c.closing && !c.released && c.commitStarted && c.callbackDone then [TryComplete]
    else []
  }

  /** And then, if the latch is not concerned, what it does after its look at the state. */
  function AfterLook(s: State): seq<Action> {
    if s == Approved then [TryComplete]
    else if s == PendingListen
    then [Note(ApprovalCall), StopTimer, Go(ReadyInit), SetAndHandle(HelloOk, Some(HelloPassed))]
    else []
  }

  predicate TakesRequest(c: Conn) {
    !c.closing && ((c.commitStarted && !c.callbackDone) || (c.required && !c.released))
  }

  /** `AbortPendingHandshake`. */
  function AfterAbort(s: State): seq<Action> {
    if s == Approved then [Close]
    else if s == PendingListen || s == ReadyListen then [StopTimer, Go(HelloAbort)]
    else []
  }

  /** `ReportConnectionError`. */
  function AfterError(c: Conn): seq<Action> {
    if c.closing then []
    else if c.state == ReadyListen then [Put(Rejected), Close]
    else if c.state in {RemoteAbortDone, HelloAbort, AbortDone} then [Close]
    else [Put(Error), Close]
  }

  predicate MayComplete(c: Conn) {
    !c.closing && !c.setupStarted && (c.required ==> c.commitStarted && c.requested && !c.released)
  }

  /** One action: the new connection and what its thread does before the rest. */
  function Act(c: Conn, action: Action, a: Answers): (Conn, seq<Action>) {
    match action
    case Set(s, mark) => (if c.closing then c else Enter(c, s, mark, a), [])
    case SetAndHandle(s, mark) => if c.closing then (c, []) else (Enter(c, s, mark, a), [Handle(Empty)])
    case Handle(input) => (c, if c.closing then [] else Handler(c.state, c.role, c.shipId, input, a))
    case Store(id) => (if c.shipId == "" then c.(shipId := id) else c, [])
    case Note(mark) => (if c.closing then c else c.(log := c.log + [mark]), [])
    case Commit(id) =>
      if c.closing then (c, [])
      else (c.(commitStarted := true, callbackDone := false, log := c.log + [AccessMatched(id)]), [])
    case CallbackDone => (if c.closing then c else c.(callbackDone := true), [])
    case TryComplete =>
      if !MayComplete(c) then (c, [])
      else (c.(setupStarted := true, released := c.released || c.required), [StopTimer, Install])
    case Install => (if c.closing then c else Enter(c, Complete, Some(Completed), a), [])
    case ApproveLatch => (c.(requested := c.requested || TakesRequest(c)), AfterLatch(c))
    case ApproveLook => (c, AfterLook(c.state))
    case AbortDecision => (c, AfterAbort(c.state))
    case ErrorDecision => (c, AfterError(c))
    case Close => (c.(closing := true), [])
    case ArmTimer => (if c.closing then c else c.(armed := true), [])
    case StopTimer => (c.(armed := false), [])
  }

  datatype Event =
    | Deliver(input: Input)
    | Expire
    | Approve
    | Abort
    | ConnectionError
    | CloseNow
    | Advance(t: nat, answers: Answers)

  function Spawn(c: Conn, action: Action): Conn {
    c.(threads := c.threads + [[action]])
  }

  function AdvanceThread(c: Conn, t: nat, answers: Answers): Conn {
    if t >= |c.threads| || c.threads[t] == [] then c
    else
      var (c', first) := Act(c, c.threads[t][0], answers);
      c'.(threads := c.threads[t := first + c.threads[t][1..]])
  }

  function Step(c: Conn, e: Event): Conn {
    match e
    case Deliver(input) => if input.Timeout? then c else Spawn(c, Handle(input))
    case Expire => if c.armed then Spawn(c.(armed := false), Handle(Timeout)) else c
    case Approve => Spawn(c, ApproveLatch)
    case Abort => Spawn(c, AbortDecision)
    case ConnectionError => Spawn(c, ErrorDecision)
    case CloseNow => c.(closing := true)
    case Advance(t, answers) => AdvanceThread(c, t, answers)
  }

  function Run(c: Conn, events: seq<Event>): Conn {
    if events == [] then c else Step(Run(c, events[..|events| - 1]), events[|events| - 1])
  }

  // ------------------------------------------------------ milestones in order

  /** The place of a mark in the handshake; 0 for the others. */
  function Place(m: Mark): nat {
    match m
    case InitDone => 1
    case HelloPassed => 2
    case ProtocolSelected => 3
    case PinPassed => 4
    case AccessMatched(_) => 5
    case _ => 0
  }

  /** How many milestones have been passed one after the other. */
  function Progress(log: seq<Mark>): nat {
    if log == [] then 0
    else
      var p := Progress(log[..|log| - 1]);
      if Place(log[|log| - 1]) == p + 1 then p + 1 else p
  }

  /** Somebody vouched for the remote: trust at hello entry, or an approval. */
  predicate Admitted(log: seq<Mark>) {
    HelloEntry(true) in log || ApprovalCall in log
  }

  /** The milestones behind every run that ever set this state. */
  function Level(s: State): nat {
    match s
    case InitStart => 0 case ClientSend => 0 case ClientWait => 0 case ClientEvaluate => 0
    case ServerWait => 0 case ServerEvaluate => 0 case Error => 0
    case Hello => 1 case ReadyInit => 1 case ReadyListen => 1 case PendingInit => 1 case PendingListen => 1
    case HelloAbort => 1 case AbortDone => 1 case RemoteAbortDone => 1 case Rejected => 1
    case HelloOk => 2 case ServerInit => 2 case ServerListenProposal => 2 case ServerListenConfirm => 2
    case ClientInit => 2 case ClientListenChoice => 2
    case ServerOk => 3 case ClientOk => 3 case PinCheckInit => 3 case PinCheckListen => 3
    case PinAskInit => 3 case PinAskProcess => 3
    case PinAskRestricted => 4 case PinAskOk => 4 case PinCheckOk => 4 case AccessRequest => 4
    case Approved => 5 case Complete => 5
  }

  predicate NeedsAdmission(s: State) {
    Level(s) >= 2 || s == ReadyInit || s == ReadyListen
  }

  /** A thread that has this action next may take it, given the progress made. */
  predicate Due(p: nat, admitted: bool, action: Action) {
    match action
    case Set(s, mark) => SetDue(p, admitted, s, mark)
    case SetAndHandle(s, mark) => SetDue(p, admitted, s, mark)
    case Note(m) => Place(m) == 0 && m != Completed
    case Commit(_) => p >= 4 && admitted
    case TryComplete => p >= 5 && admitted
    case Install => p >= 5 && admitted
    case _ => true
  }

  predicate SetDue(p: nat, admitted: bool, s: State, mark: Option<Mark>) {
    && s != Complete && (NeedsAdmission(s) ==> admitted)
    && match mark
       case None => Level(s) <= p
       case Some(m) => Place(m) == Level(s) && 1 <= Level(s) <= p + 1 && m != Completed
  }

  function ProgressAfter(p: nat, action: Action): nat {
    if action.Commit? && p < 5 then 5
    else if (action.Set? || action.SetAndHandle?) && action.mark.Some? && Place(action.mark.value) > p
    then Place(action.mark.value)
    else p
  }

  predicate AdmittedAfter(admitted: bool, action: Action) {
    admitted || (action.Note? && (action.moment == HelloEntry(true) || action.moment == ApprovalCall))
  }

  /** The same for everything a thread still has to do. */
  predicate AllDue(p: nat, admitted: bool, actions: seq<Action>)
    decreases |actions|
  {
    actions == [] || (Due(p, admitted, actions[0]) && AllDue(ProgressAfter(p, actions[0]), AdmittedAfter(admitted, actions[0]), actions[1..]))
  }

  // -------------------------------------------------------------- invariants

  /** Hello is passed only with admission, completion only after all five milestones. */
  ghost predicate LogSound(log: seq<Mark>) {
    log == [] ||
    (var front, m := log[..|log| - 1], log[|log| - 1];
     LogSound(front) && (m == HelloPassed ==> Admitted(front)) && (m == Completed ==> Progress(front) == 5))
  }

  lemma {:induction false} LogSoundAt(log: seq<Mark>, k: nat)
    requires LogSound(log) && k < |log|
    ensures log[k] == HelloPassed ==> Admitted(log[..k])
    ensures log[k] == Completed ==> Progress(log[..k]) == 5
  {
    var n := |log| - 1;
    if k < n {
      LogSoundAt(log[..n], k);
      assert log[..n][..k] == log[..k] && log[..n][k] == log[k];
    }
  }

  ghost predicate ThreadsDue(c: Conn) {
    forall t | 0 <= t < |c.threads| :: AllDue(Progress(c.log), Admitted(c.log), c.threads[t])
  }

  ghost predicate StateReached(c: Conn) {
    && Level(c.state) <= Progress(c.log) && (NeedsAdmission(c.state) ==> Admitted(c.log))
    && (c.commitStarted ==> Progress(c.log) >= 5 && Admitted(c.log))
  }

  /** A closing connection sets no state any more, so its threads are harmless. */
  ghost predicate Inv(c: Conn) {
    LogSound(c.log) && (c.state == Complete ==> Completed in c.log) && (c.closing || (StateReached(c) && ThreadsDue(c)))
  }

  lemma {:induction false} ProgressBounded(log: seq<Mark>)
    ensures Progress(log) <= 5
  {
    if log != [] {
      ProgressBounded(log[..|log| - 1]);
    }
  }

  lemma LogAppend(log: seq<Mark>, m: Mark)
    ensures Progress(log + [m]) == if Place(m) == Progress(log) + 1 then Progress(log) + 1 else Progress(log)
    ensures Admitted(log + [m]) <==> Admitted(log) || m == HelloEntry(true) || m == ApprovalCall
    ensures LogSound(log) && (m == HelloPassed ==> Admitted(log)) && (m == Completed ==> Progress(log) == 5) ==> LogSound(log + [m])
  {
    assert (log + [m])[..|log|] == log;
  }

  lemma {:induction false} DueMonotone(p: nat, a: bool, q: nat, b: bool, actions: seq<Action>)
    requires p <= q && (a ==> b) && AllDue(p, a, actions)
    ensures AllDue(q, b, actions)
    decreases |actions|
  {
    if actions != [] {
      DueMonotone(ProgressAfter(p, actions[0]), AdmittedAfter(a, actions[0]),
                  ProgressAfter(q, actions[0]), AdmittedAfter(b, actions[0]), actions[1..]);
    }
  }

  lemma {:induction false} DueConcat(p: nat, a: bool, first: seq<Action>, rest: seq<Action>)
    requires AllDue(p, a, first) && AllDue(p, a, rest)
    ensures AllDue(p, a, first + rest)
    decreases |first|
  {
    if first == [] {
      assert first + rest == rest;
    } else {
      DueMonotone(p, a, ProgressAfter(p, first[0]), AdmittedAfter(a, first[0]), rest);
      DueConcat(ProgressAfter(p, first[0]), AdmittedAfter(a, first[0]), first[1..], rest);
      assert (first + rest)[1..] == first[1..] + rest;
    }
  }

  /** Actions that are each due now are due one after the other. */
  lemma {:induction false} DueEach(p: nat, a: bool, actions: seq<Action>)
    requires forall i | 0 <= i < |actions| :: Due(p, a, actions[i])
    ensures AllDue(p, a, actions)
    decreases |actions|
  {
    if actions != [] {
      DueEach(p, a, actions[1..]);
      DueMonotone(p, a, ProgressAfter(p, actions[0]), AdmittedAfter(a, actions[0]), actions[1..]);
    }
  }

  /** The first action makes the others due. */
  lemma DueThen(p: nat, a: bool, x: Action, rest: seq<Action>)
    requires Due(p, a, x)
    requires forall i | 0 <= i < |rest| :: Due(ProgressAfter(p, x), AdmittedAfter(a, x), rest[i])
    ensures AllDue(p, a, [x] + rest)
  {
    DueEach(ProgressAfter(p, x), AdmittedAfter(a, x), rest);
    assert ([x] + rest)[1..] == rest;
  }

  lemma HelloDue(p: nat, a: bool, role: Role, input: Input, answers: Answers)
    requires p >= 1
    ensures AllDue(p, a, HandleHello(role, input, answers))
  {
    var actions := HandleHello(role, input, answers);
    assert actions == [actions[0]] + [actions[1], actions[2]];
    DueThen(p, a, actions[0], [actions[1], actions[2]]);
  }

  lemma AccessDue(p: nat, input: Input, shipId: string, answers: Answers)
    requires p >= 4
    ensures AllDue(p, true, HandleAccess(input, shipId, answers))
  {
    var actions := HandleAccess(input, shipId, answers);
    if input.AccessMethods? && input.id.Some? && (shipId == "" || shipId == input.id.value) {
      var rest := [Put(Approved), CallbackDone, TryComplete];
      DueThen(p, true, Commit(input.id.value), rest);
      var first := [Store(input.id.value), StopTimer];
      assert actions == first + ([Commit(input.id.value)] + rest);
      DueEach(p, true, first);
      DueConcat(p, true, first, [Commit(input.id.value)] + rest);
    } else {
      DueEach(p, true, actions);
    }
  }

  /** Whatever handler a state leads to, its actions are due. */
  lemma HandlerDue(p: nat, a: bool, s: State, role: Role, shipId: string, input: Input, answers: Answers)
    requires Level(s) <= p && (NeedsAdmission(s) ==> a)
    ensures AllDue(p, a, Handler(s, role, shipId, input, answers))
  {
    if s == Hello {
      HelloDue(p, a, role, input, answers);
    } else if s == AccessRequest {
      AccessDue(p, input, shipId, answers);
    } else {
      OtherHandlersDue(p, a, s, role, shipId, input, answers);
      DueEach(p, a, Handler(s, role, shipId, input, answers));
    }
  }

  ghost predicate EachDue(p: nat, a: bool, actions: seq<Action>) {
    forall i | 0 <= i < |actions| :: Due(p, a, actions[i])
  }

  lemma InitDue(p: nat, a: bool, s: State, role: Role, input: Input, answers: Answers)
    ensures EachDue(p, a, HandleInit(s, role, input, answers))
  {
  }

  lemma ReadyListenDue(p: nat, input: Input, answers: Answers)
    requires p >= 1
    ensures EachDue(p, true, HandleReadyListen(input, answers))
  {
  }

  lemma PendingListenDue(p: nat, a: bool, input: Input, answers: Answers)
    requires p >= 1
    ensures EachDue(p, a, HandlePendingListen(input, answers))
  {
    if input.Timeout? {
      PendingTimeoutDue(p, a, answers);
    }
  }

  lemma PendingTimeoutDue(p: nat, a: bool, answers: Answers)
    requires p >= 1
    ensures EachDue(p, a, HandlePendingTimeout(answers))
  {
  }

  lemma PendingInitDue(p: nat, a: bool, answers: Answers)
    requires p >= 1
    ensures EachDue(p, a, HandlePendingInit(answers))
  {
  }

  /** The states whose handlers send one message. */
  predicate Sends(s: State) {
    s == ReadyInit || s == HelloAbort || s == PinCheckInit || s == PinCheckOk || s == PinAskRestricted || s == PinAskOk
  }

  /** The states in which a message is not handled. */
  predicate Idle(s: State) {
    || s == ClientSend || s == ClientEvaluate || s == ServerEvaluate || s == AbortDone || s == RemoteAbortDone || s == Rejected
    || s == ServerInit || s == ClientInit || s == Approved || s == Complete || s == Error
  }

  lemma IdleHandlers(s: State, role: Role, shipId: string, input: Input, a: Answers)
    requires Idle(s)
    ensures Handler(s, role, shipId, input, a) == []
  {
  }

  lemma HelloSendersDue(p: nat, a: bool, s: State, role: Role, shipId: string, input: Input, answers: Answers)
    requires Level(s) <= p && (NeedsAdmission(s) ==> a) && (s == ReadyInit || s == HelloAbort)
    ensures EachDue(p, a, Handler(s, role, shipId, input, answers))
  {
  }

  lemma PinSendersDue(p: nat, a: bool, s: State, role: Role, shipId: string, input: Input, answers: Answers)
    requires Level(s) <= p && (NeedsAdmission(s) ==> a)
    requires s == PinCheckInit || s == PinCheckOk || s == PinAskRestricted || s == PinAskOk
    ensures EachDue(p, a, Handler(s, role, shipId, input, answers))
  {
  }

  lemma ProtocolDue(p: nat, s: State, role: Role, input: Input, answers: Answers)
    requires Level(s) <= p && s in {HelloOk, ServerListenProposal, ServerListenConfirm, ClientListenChoice, ServerOk, ClientOk}
    ensures EachDue(p, true, HandleProtocol(s, role, input, answers))
  {
  }

  lemma PinDue(p: nat, input: Input, answers: Answers)
    requires p >= 3
    ensures EachDue(p, true, HandlePin(input, answers))
  {
  }

  lemma OtherHandlersDue(p: nat, a: bool, s: State, role: Role, shipId: string, input: Input, answers: Answers)
    requires Level(s) <= p && (NeedsAdmission(s) ==> a) && s != Hello && s != AccessRequest
    ensures EachDue(p, a, Handler(s, role, shipId, input, answers))
  {
    match s
    case InitStart | ClientWait | ServerWait => InitDue(p, a, s, role, input, answers);
    case ReadyListen => ReadyListenDue(p, input, answers);
    case PendingListen => PendingListenDue(p, a, input, answers);
    case PendingInit => PendingInitDue(p, a, answers);
    case HelloOk | ServerListenProposal | ServerListenConfirm | ClientListenChoice | ServerOk | ClientOk =>
      ProtocolDue(p, s, role, input, answers);
    case PinCheckListen | PinAskInit | PinAskProcess => PinDue(p, input, answers);
    case ReadyInit | HelloAbort => HelloSendersDue(p, a, s, role, shipId, input, answers);
    case PinCheckInit | PinCheckOk | PinAskRestricted | PinAskOk => PinSendersDue(p, a, s, role, shipId, input, answers);
    case _ => IdleHandlers(s, role, shipId, input, answers);
  }

  lemma LatchDue(c: Conn)
    requires StateReached(c) && !c.closing
    ensures AllDue(Progress(c.log), Admitted(c.log), AfterLatch(c))
  {
    DueEach(Progress(c.log), Admitted(c.log), AfterLatch(c));
  }

  lemma LookDue(p: nat, a: bool, s: State)
    requires Level(s) <= p && (NeedsAdmission(s) ==> a)
    ensures AllDue(p, a, AfterLook(s))
  {
    if s == PendingListen {
      var rest := [StopTimer, Go(ReadyInit), SetAndHandle(HelloOk, Some(HelloPassed))];
      DueThen(p, a, Note(ApprovalCall), rest);
      assert AfterLook(s) == [Note(ApprovalCall)] + rest;
    } else {
      DueEach(p, a, AfterLook(s));
    }
  }

  // ------------------------------------------------------- every step keeps it

  /** What one due action of an open connection leaves behind. */
  ghost predicate Follows(c: Conn, action: Action, c': Conn, first: seq<Action>) {
    var p, a := Progress(c.log), Admitted(c.log);
    && LogSound(c'.log) && c'.threads == c.threads && (c'.state == Complete ==> c.state == Complete || Completed in c'.log)
    && (Completed in c.log ==> Completed in c'.log)
    && (c'.closing || (StateReached(c') && AllDue(Progress(c'.log), Admitted(c'.log), first)))
    && (!c'.closing ==> Progress(c'.log) >= ProgressAfter(p, action) && (AdmittedAfter(a, action) ==> Admitted(c'.log)))
  }

  lemma EnterReaches(c: Conn, s: State, mark: Option<Mark>, a: Answers)
    requires LogSound(c.log) && StateReached(c) && SetDue(Progress(c.log), Admitted(c.log), s, mark)
    ensures var c' := Enter(c, s, mark, a);
            && LogSound(c'.log) && StateReached(c') && (Completed in c.log ==> Completed in c'.log)
            && Progress(c'.log) >= Progress(c.log) && (mark.Some? ==> Progress(c'.log) >= Place(mark.value))
            && (Admitted(c.log) ==> Admitted(c'.log))
  {
    if mark.Some? {
      LogAppend(c.log, mark.value);
    }
  }

  lemma EnterFollows(c: Conn, s: State, mark: Option<Mark>, first: seq<Action>, a: Answers)
    requires LogSound(c.log) && StateReached(c) && !c.closing
    requires SetDue(Progress(c.log), Admitted(c.log), s, mark) && (first == [] || first == [Handle(Empty)])
    ensures Follows(c, Set(s, mark), Enter(c, s, mark, a), first)
    ensures Follows(c, SetAndHandle(s, mark), Enter(c, s, mark, a), first)
  {
    EnterReaches(c, s, mark, a);
    var c' := Enter(c, s, mark, a);
    DueEach(Progress(c'.log), Admitted(c'.log), first);
  }

  lemma CommitFollows(c: Conn, id: string)
    requires LogSound(c.log) && StateReached(c) && !c.closing && Progress(c.log) >= 4 && Admitted(c.log)
    ensures Follows(c, Commit(id), c.(commitStarted := true, callbackDone := false, log := c.log + [AccessMatched(id)]), [])
  {
    LogAppend(c.log, AccessMatched(id));
    ProgressBounded(c.log);
  }

  lemma InstallFollows(c: Conn, a: Answers)
    requires LogSound(c.log) && StateReached(c) && !c.closing && Progress(c.log) >= 5 && Admitted(c.log)
    ensures Follows(c, Install, Enter(c, Complete, Some(Completed), a), [])
  {
    LogAppend(c.log, Completed);
    ProgressBounded(c.log);
    var c' := Enter(c, Complete, Some(Completed), a);
    assert c'.log == c.log + [Completed] && c'.log[|c.log|] == Completed;
  }

  lemma HandleFollows(c: Conn, input: Input, answers: Answers)
    requires LogSound(c.log) && StateReached(c) && !c.closing
    ensures Follows(c, Handle(input), Act(c, Handle(input), answers).0, Act(c, Handle(input), answers).1)
  {
    HandlerDue(Progress(c.log), Admitted(c.log), c.state, c.role, c.shipId, input, answers);
  }

  lemma AbortDue(p: nat, a: bool, s: State)
    requires Level(s) <= p
    ensures AllDue(p, a, AfterAbort(s))
  {
    DueEach(p, a, AfterAbort(s));
  }

  lemma ErrorDue(p: nat, a: bool, c: Conn)
    requires Level(c.state) <= p
    ensures AllDue(p, a, AfterError(c))
  {
    DueEach(p, a, AfterError(c));
  }

  lemma DecisionFollows(c: Conn, action: Action, answers: Answers)
    requires LogSound(c.log) && StateReached(c) && !c.closing
    requires action.ApproveLatch? || action.ApproveLook? || action.AbortDecision? || action.ErrorDecision?
    ensures Follows(c, action, Act(c, action, answers).0, Act(c, action, answers).1)
  {
    var p, a := Progress(c.log), Admitted(c.log);
    if action.ApproveLatch? {
      LatchDue(c);
    } else if action.ApproveLook? {
      LookDue(p, a, c.state);
    } else if action.AbortDecision? {
      AbortDue(p, a, c.state);
    } else {
      ErrorDue(p, a, c);
    }
  }

  lemma NoteFollows(c: Conn, m: Mark, answers: Answers)
    requires LogSound(c.log) && StateReached(c) && !c.closing && Place(m) == 0 && m != Completed
    ensures Follows(c, Note(m), Act(c, Note(m), answers).0, Act(c, Note(m), answers).1)
  {
    LogAppend(c.log, m);
  }

  lemma TryCompleteFollows(c: Conn, answers: Answers)
    requires LogSound(c.log) && StateReached(c) && !c.closing && Progress(c.log) >= 5 && Admitted(c.log)
    ensures Follows(c, TryComplete, Act(c, TryComplete, answers).0, Act(c, TryComplete, answers).1)
  {
    DueEach(Progress(c.log), Admitted(c.log), [StopTimer, Install]);
  }

  /** Nothing that the invariant speaks of has changed. */
  ghost predicate Alike(c: Conn, c': Conn) {
    && c'.state == c.state && c'.log == c.log && c'.closing == c.closing && c'.threads == c.threads
    && c'.commitStarted == c.commitStarted
  }

  lemma AlikeFollows(c: Conn, action: Action, c': Conn)
    requires LogSound(c.log) && StateReached(c) && Alike(c, c')
    requires !action.Commit? && !action.Set? && !action.SetAndHandle? && !action.Note?
    ensures Follows(c, action, c', [])
  {
  }

  lemma StoreFollows(c: Conn, id: string, answers: Answers)
    requires LogSound(c.log) && StateReached(c)
    ensures Follows(c, Store(id), Act(c, Store(id), answers).0, Act(c, Store(id), answers).1)
  {
    AlikeFollows(c, Store(id), c);
    AlikeFollows(c, Store(id), c.(shipId := id));
  }

  lemma MinorFollows(c: Conn, action: Action, answers: Answers)
    requires LogSound(c.log) && StateReached(c) && !c.closing
    requires action.Store? || action.CallbackDone? || action.Close? || action.ArmTimer? || action.StopTimer?
    ensures Follows(c, action, Act(c, action, answers).0, Act(c, action, answers).1)
  {
    match action
    case Close =>
    case Store(id) => StoreFollows(c, id, answers);
    case _ => AlikeFollows(c, action, Act(c, action, answers).0);
  }

  lemma ActFollows(c: Conn, action: Action, answers: Answers)
    requires LogSound(c.log) && StateReached(c) && !c.closing && Due(Progress(c.log), Admitted(c.log), action)
    ensures Follows(c, action, Act(c, action, answers).0, Act(c, action, answers).1)
  {
    if action.Set? {
      EnterFollows(c, action.state, action.mark, [], answers);
    } else if action.SetAndHandle? {
      EnterFollows(c, action.state, action.mark, [Handle(Empty)], answers);
    } else if action.Handle? {
      HandleFollows(c, action.input, answers);
    } else if action.Commit? {
      CommitFollows(c, action.id);
    } else if action.Install? {
      InstallFollows(c, answers);
    } else if action.ApproveLatch? || action.ApproveLook? || action.AbortDecision? || action.ErrorDecision? {
      DecisionFollows(c, action, answers);
    } else if action.Note? {
      NoteFollows(c, action.moment, answers);
    } else if action.TryComplete? {
      TryCompleteFollows(c, answers);
    } else {
      MinorFollows(c, action, answers);
    }
  }

  lemma ClosedActs(c: Conn, action: Action, answers: Answers)
    requires c.closing
    ensures Act(c, action, answers).0.closing && Act(c, action, answers).0.log == c.log && Act(c, action, answers).0.state == c.state
  {
    match action
    case Store(_) =>
    case ApproveLatch =>
    case Close =>
    case StopTimer =>
    case _ => assert Act(c, action, answers).0 == c;
  }

  lemma ThreadsStayDue(c: Conn, t: nat, first: seq<Action>, q: nat, b: bool)
    requires ThreadsDue(c) && t < |c.threads| && c.threads[t] != [] && AllDue(q, b, first)
    requires var p, a, action := Progress(c.log), Admitted(c.log), c.threads[t][0];
             p <= q && (a ==> b) && ProgressAfter(p, action) <= q && (AdmittedAfter(a, action) ==> b)
    ensures var threads := c.threads[t := first + c.threads[t][1..]];
            forall u | 0 <= u < |threads| :: AllDue(q, b, threads[u])
  {
    var p, a, action := Progress(c.log), Admitted(c.log), c.threads[t][0];
    var threads := c.threads[t := first + c.threads[t][1..]];
    forall u | 0 <= u < |threads| ensures AllDue(q, b, threads[u]) {
      assert AllDue(p, a, c.threads[u]);
      if u == t {
        DueMonotone(ProgressAfter(p, action), AdmittedAfter(a, action), q, b, c.threads[t][1..]);
        DueConcat(q, b, first, c.threads[t][1..]);
      } else {
        DueMonotone(p, a, q, b, c.threads[u]);
      }
    }
  }

  lemma AdvanceKeeps(c: Conn, t: nat, answers: Answers)
    requires Inv(c) && t < |c.threads| && c.threads[t] != []
    ensures Inv(AdvanceThread(c, t, answers))
  {
    var action := c.threads[t][0];
    if c.closing {
      ClosedActs(c, action, answers);
    } else {
      assert AllDue(Progress(c.log), Admitted(c.log), c.threads[t]);
      ActFollows(c, action, answers);
      var c1, first := Act(c, action, answers).0, Act(c, action, answers).1;
      if !c1.closing {
        ThreadsStayDue(c, t, first, Progress(c1.log), Admitted(c1.log));
      }
    }
  }

  lemma SpawnKeeps(c: Conn, action: Action)
    requires Inv(c) && (action.Handle? || action.ApproveLatch? || action.AbortDecision? || action.ErrorDecision?)
    ensures Inv(Spawn(c, action))
  {
    DueEach(Progress(c.log), Admitted(c.log), [action]);
  }

  lemma CloseKeeps(c: Conn)
    requires Inv(c)
    ensures Inv(c.(closing := true))
  {
  }

  lemma StepKeeps(c: Conn, e: Event)
    requires Inv(c)
    ensures Inv(Step(c, e))
  {
    if e.Advance? {
      if e.t < |c.threads| && c.threads[e.t] != [] {
        AdvanceKeeps(c, e.t, e.answers);
      }
    } else if e.Deliver? {
      SpawnKeeps(c, Handle(e.input));
    } else if e.Expire? {
      SpawnKeeps(c.(armed := false), Handle(Timeout));
    } else if e.Approve? {
      SpawnKeeps(c, ApproveLatch);
    } else if e.Abort? {
      SpawnKeeps(c, AbortDecision);
    } else if e.ConnectionError? {
      SpawnKeeps(c, ErrorDecision);
    } else {
      CloseKeeps(c);
    }
  }

  lemma {:induction false} Reachable(role: Role, required: bool, shipId: string, events: seq<Event>)
    ensures Inv(Run(Fresh(role, required, shipId), events))
  {
    if events != [] {
      Reachable(role, required, shipId, events[..|events| - 1]);
      StepKeeps(Run(Fresh(role, required, shipId), events[..|events| - 1]), events[|events| - 1]);
    }
  }

  // ------------------------------------------------------------ main theorems

  /** The milestones up to place `n` occur one after the other. */
  ghost predicate PassedInOrder(log: seq<Mark>, at: seq<nat>) {
    && (forall i | 0 <= i < |at| :: at[i] < |log| && Place(log[at[i]]) == i + 1)
    && (forall i, j | 0 <= i < j < |at| :: at[i] < at[j])
  }

  lemma OrderExtends(log: seq<Mark>, at: seq<nat>)
    requires log != [] && PassedInOrder(log[..|log| - 1], at)
    ensures PassedInOrder(log, at)
    ensures Place(log[|log| - 1]) == |at| + 1 ==> PassedInOrder(log, at + [|log| - 1])
  {
    var front := log[..|log| - 1];
    forall i | 0 <= i < |at| ensures at[i] < |front| && front[at[i]] == log[at[i]] && Place(log[at[i]]) == i + 1 {}
  }

  lemma {:induction false} ProgressMeansOrder(log: seq<Mark>) returns (at: seq<nat>)
    ensures |at| == Progress(log) && PassedInOrder(log, at)
  {
    at := [];
    if log != [] {
      at := ProgressMeansOrder(log[..|log| - 1]);
      OrderExtends(log, at);
      if Place(log[|log| - 1]) == |at| + 1 {
        at := at + [|log| - 1];
      }
    }
  }

  /** Under every interleaving of messages, timeouts, approvals, aborts, errors and
      closes: before the Complete state is set, init, hello, protocol selection, PIN
      and access methods have been passed, in this order. */
  lemma CompleteOnlyInOrder(role: Role, required: bool, shipId: string, events: seq<Event>, k: nat) returns (at: seq<nat>)
    requires var log := Run(Fresh(role, required, shipId), events).log; k < |log| && log[k] == Completed
    ensures |at| == 5 && PassedInOrder(Run(Fresh(role, required, shipId), events).log[..k], at)
  {
    Reachable(role, required, shipId, events);
    LogSoundAt(Run(Fresh(role, required, shipId), events).log, k);
    at := ProgressMeansOrder(Run(Fresh(role, required, shipId), events).log[..k]);
  }

  /** The connection is in the Complete state only if that was logged. */
  lemma CompleteIsLogged(role: Role, required: bool, shipId: string, events: seq<Event>)
    requires Run(Fresh(role, required, shipId), events).state == Complete
    ensures Completed in Run(Fresh(role, required, shipId), events).log
  {
    Reachable(role, required, shipId, events);
  }

  /** Nobody passes hello unless the remote was trusted, auto-accepted or dialled when
      hello began, or somebody called ApprovePendingHandshake. */
  lemma HelloNeedsTrustOrApproval(role: Role, required: bool, shipId: string, events: seq<Event>, k: nat)
    requires var log := Run(Fresh(role, required, shipId), events).log; k < |log| && log[k] == HelloPassed
    ensures var log := Run(Fresh(role, required, shipId), events).log;
            exists j | 0 <= j < k :: log[j] == HelloEntry(true) || log[j] == ApprovalCall
  {
    Reachable(role, required, shipId, events);
    var log := Run(Fresh(role, required, shipId), events).log;
    LogSoundAt(log, k);
    var m :| m in log[..k] && (m == HelloEntry(true) || m == ApprovalCall);
    var j :| 0 <= j < k && log[..k][j] == m;
    assert log[j] == m;
  }

  // -------------------------------------------------------- the stored SHIP ID

  /** The action matches nothing but this SHIP ID. */
  predicate MatchesOnly(action: Action, id: string) {
    match action
    case Commit(other) => other == id
    case Set(_, mark) => mark.Some? ==> !mark.value.AccessMatched?
    case SetAndHandle(_, mark) => mark.Some? ==> !mark.value.AccessMatched?
    case Note(m) => !m.AccessMatched?
    case _ => true
  }

  ghost predicate AllMatch(actions: seq<Action>, id: string) {
    forall i | 0 <= i < |actions| :: MatchesOnly(actions[i], id)
  }

  /** Every commit made or under way is for the stored SHIP ID. */
  ghost predicate Matching(c: Conn, stored: string) {
    && c.shipId == stored
    && (forall t | 0 <= t < |c.threads| :: AllMatch(c.threads[t], stored))
    && (forall k | 0 <= k < |c.log| :: c.log[k].AccessMatched? ==> c.log[k].id == stored)
  }

  lemma HelloHandlersMatch(role: Role, input: Input, answers: Answers, id: string)
    ensures AllMatch(HandleHello(role, input, answers), id)
    ensures AllMatch(HandleReadyListen(input, answers), id)
    ensures AllMatch(HandlePendingInit(answers), id)
  {
  }

  lemma PendingHandlerMatches(input: Input, answers: Answers, id: string)
    ensures AllMatch(HandlePendingListen(input, answers), id)
  {
  }

  lemma ProtocolHandlersMatch(s: State, role: Role, input: Input, answers: Answers, id: string)
    ensures AllMatch(HandleProtocol(s, role, input, answers), id)
    ensures AllMatch(HandleInit(s, role, input, answers), id)
  {
  }

  lemma PinHandlerMatches(input: Input, answers: Answers, id: string)
    ensures AllMatch(HandlePin(input, answers), id)
  {
  }

  lemma HandlerMatches(s: State, role: Role, shipId: string, input: Input, answers: Answers)
    requires shipId != ""
    ensures AllMatch(Handler(s, role, shipId, input, answers), shipId)
  {
    HelloHandlersMatch(role, input, answers, shipId);
    PendingHandlerMatches(input, answers, shipId);
    ProtocolHandlersMatch(s, role, input, answers, shipId);
    PinHandlerMatches(input, answers, shipId);
  }

  lemma ActMatches(c: Conn, action: Action, answers: Answers, stored: string)
    requires stored != "" && Matching(c, stored) && MatchesOnly(action, stored)
    ensures Matching(Act(c, action, answers).0, stored) && AllMatch(Act(c, action, answers).1, stored)
    ensures Act(c, action, answers).0.threads == c.threads
  {
    if action.Handle? {
      HandlerMatches(c.state, c.role, c.shipId, action.input, answers);
    }
  }

  lemma AdvanceMatches(c: Conn, t: nat, answers: Answers, stored: string)
    requires stored != "" && Matching(c, stored) && t < |c.threads| && c.threads[t] != []
    ensures Matching(AdvanceThread(c, t, answers), stored)
  {
    assert AllMatch(c.threads[t], stored);
    ActMatches(c, c.threads[t][0], answers, stored);
  }

  lemma SpawnMatches(c: Conn, action: Action, stored: string)
    requires Matching(c, stored) && MatchesOnly(action, stored)
    ensures Matching(Spawn(c, action), stored)
  {
  }

  lemma StepMatches(c: Conn, e: Event, stored: string)
    requires stored != "" && Matching(c, stored)
    ensures Matching(Step(c, e), stored)
  {
    if e.Advance? {
      if e.t < |c.threads| && c.threads[e.t] != [] {
        AdvanceMatches(c, e.t, e.answers, stored);
      }
    } else if e.Deliver? {
      SpawnMatches(c, Handle(e.input), stored);
    } else if e.Expire? {
      SpawnMatches(c.(armed := false), Handle(Timeout), stored);
    } else if e.Approve? {
      SpawnMatches(c, ApproveLatch, stored);
    } else if e.Abort? {
      SpawnMatches(c, AbortDecision, stored);
    } else if e.ConnectionError? {
      SpawnMatches(c, ErrorDecision, stored);
    }
  }

  /** If the SHIP ID of the remote was stored before, every access-methods reply that
      the handshake passed carried exactly that ID. */
  lemma {:induction false} StoredShipIdMatched(role: Role, required: bool, shipId: string, events: seq<Event>)
    requires shipId != ""
    ensures Matching(Run(Fresh(role, required, shipId), events), shipId)
  {
    if events != [] {
      StoredShipIdMatched(role, required, shipId, events[..|events| - 1]);
      StepMatches(Run(Fresh(role, required, shipId), events[..|events| - 1]), events[|events| - 1], shipId);
    }
  }

  // ------------------------------------------------ what passes a milestone

  /** The message that passes a milestone in a state, stated without the handlers. */
  function Milestone(s: State, role: Role, shipId: string, input: Input, a: Answers): Option<Mark> {
    if s == ClientWait && ValidInit(input) then Some(InitDone)
    else if s == ServerWait && ValidInit(input) && a.sent then Some(InitDone)
    else if s == ReadyListen && input.HelloMessage? && input.phase == Ready then Some(HelloPassed)
    else if s == ServerListenConfirm && input.ProtocolMessage? && input.kind == SelectProtocol then Some(ProtocolSelected)
    else if s == ClientListenChoice && input.ProtocolMessage? && input.kind == SelectProtocol
            && (input.major, input.minor) == (1, 0) && input.formats == [Utf8] && a.sent then Some(ProtocolSelected)
    else if s in {PinCheckListen, PinAskInit, PinAskProcess} && input.PinStateMessage? && PinExit(input.pin, input.permission, a)
         then Some(PinPassed)
    else if s == AccessRequest && input.AccessMethods? && input.id.Some? && (shipId == "" || shipId == input.id.value)
         then Some(AccessMatched(input.id.value))
    else None
  }

  /** No PIN, a PIN accepted, or an optional PIN that is asked for and not provided. */
  predicate PinExit(pin: PinState, permission: Option<Permission>, a: Answers) {
    || ((pin == PinNone || pin == PinOk) && permission == None)
    || (pin == PinOptional && permission == Some(PermissionOk) && !a.pinSent && !a.pinError && !a.pinProvided)
  }

  predicate Passes(action: Action, m: Mark) {
    match action
    case Set(_, mark) => mark == Some(m)
    case SetAndHandle(_, mark) => mark == Some(m)
    case Commit(id) => m == AccessMatched(id)
    case _ => false
  }

  /** The actions pass exactly this milestone, or none. */
  ghost predicate PassesOnly(actions: seq<Action>, milestone: Option<Mark>) {
    && (forall i, m | 0 <= i < |actions| && Passes(actions[i], m) :: milestone == Some(m))
    && (milestone.Some? ==> exists i | 0 <= i < |actions| :: Passes(actions[i], milestone.value))
  }

  lemma InitPasses(s: State, role: Role, shipId: string, input: Input, a: Answers)
    requires s == InitStart || s == ClientWait || s == ServerWait
    ensures PassesOnly(Handler(s, role, shipId, input, a), Milestone(s, role, shipId, input, a))
  {
    if Milestone(s, role, shipId, input, a).Some? {
      assert Passes(HandleInit(s, role, input, a)[1], InitDone);
    }
  }

  lemma ReadyPasses(role: Role, shipId: string, input: Input, a: Answers)
    ensures PassesOnly(Handler(ReadyListen, role, shipId, input, a), Milestone(ReadyListen, role, shipId, input, a))
  {
    if input.HelloMessage? && input.phase == Ready {
      assert Passes(HandleReadyListen(input, a)[0], HelloPassed);
    }
  }

  lemma PendingPassesNothing(s: State, role: Role, shipId: string, input: Input, a: Answers)
    requires s == Hello || s == PendingInit || s == PendingListen
    ensures PassesOnly(Handler(s, role, shipId, input, a), Milestone(s, role, shipId, input, a))
  {
    assert Milestone(s, role, shipId, input, a) == None;
  }

  predicate InProtocol(s: State) {
    || s == HelloOk || s == ServerListenProposal || s == ServerListenConfirm || s == ClientListenChoice
    || s == ServerOk || s == ClientOk
  }

  lemma ListenersPass(s: State, role: Role, shipId: string, input: Input, a: Answers)
    requires s == ServerListenConfirm || s == ClientListenChoice
    ensures PassesOnly(HandleProtocol(s, role, input, a), Milestone(s, role, shipId, input, a))
  {
    if Milestone(s, role, shipId, input, a).Some? {
      assert Passes(HandleProtocol(s, role, input, a)[1], ProtocolSelected);
    }
  }

  lemma ProtocolUnmarked(s: State, role: Role, input: Input, a: Answers)
    requires s == HelloOk || s == ServerListenProposal || s == ServerOk || s == ClientOk
    ensures forall action | action in HandleProtocol(s, role, input, a) :: Unmarked(action)
  {
  }

  lemma ProtocolPasses(s: State, role: Role, shipId: string, input: Input, a: Answers)
    requires InProtocol(s)
    ensures PassesOnly(Handler(s, role, shipId, input, a), Milestone(s, role, shipId, input, a))
  {
    if s == ServerListenConfirm || s == ClientListenChoice {
      ListenersPass(s, role, shipId, input, a);
    } else {
      ProtocolUnmarked(s, role, input, a);
      UnmarkedPassNothing(HandleProtocol(s, role, input, a));
    }
  }

  predicate InPin(s: State) {
    s == PinCheckListen || s == PinAskInit || s == PinAskProcess
  }

  lemma PinPasses(s: State, role: Role, shipId: string, input: Input, a: Answers)
    requires InPin(s)
    ensures PassesOnly(Handler(s, role, shipId, input, a), Milestone(s, role, shipId, input, a))
  {
    if Milestone(s, role, shipId, input, a).Some? {
      assert Passes(HandlePin(input, a)[|HandlePin(input, a)| - 1], PinPassed);
    }
  }

  lemma AccessPasses(role: Role, shipId: string, input: Input, a: Answers)
    ensures PassesOnly(Handler(AccessRequest, role, shipId, input, a), Milestone(AccessRequest, role, shipId, input, a))
  {
    if Milestone(AccessRequest, role, shipId, input, a).Some? {
      assert Passes(HandleAccess(input, shipId, a)[2], AccessMatched(input.id.value));
    }
  }

  predicate Unmarked(action: Action) {
    match action
    case Set(_, mark) => mark.None?
    case SetAndHandle(_, mark) => mark.None?
    case Commit(_) => false
    case _ => true
  }

  lemma SendersUnmarked(s: State, role: Role, shipId: string, input: Input, a: Answers)
    requires Sends(s)
    ensures forall action | action in Handler(s, role, shipId, input, a) :: Unmarked(action)
  {
  }

  lemma NoMilestone(s: State, role: Role, shipId: string, input: Input, a: Answers)
    requires Sends(s) || Idle(s)
    ensures Milestone(s, role, shipId, input, a) == None
  {
  }

  lemma UnmarkedPassNothing(actions: seq<Action>)
    requires forall action | action in actions :: Unmarked(action)
    ensures PassesOnly(actions, None)
  {
    forall i, m | 0 <= i < |actions| && Passes(actions[i], m) ensures None == Some(m) {
      assert actions[i] in actions;
    }
  }

  lemma OthersPassNothing(s: State, role: Role, shipId: string, input: Input, a: Answers)
    requires Sends(s) || Idle(s)
    ensures PassesOnly(Handler(s, role, shipId, input, a), Milestone(s, role, shipId, input, a))
  {
    NoMilestone(s, role, shipId, input, a);
    if Sends(s) {
      SendersUnmarked(s, role, shipId, input, a);
    } else {
      IdleHandlers(s, role, shipId, input, a);
    }
    UnmarkedPassNothing(Handler(s, role, shipId, input, a));
  }

  /** Whatever the state and the message: the handler passes a milestone if and only
      if the message is the one the milestone stands for, and never another one. */
  lemma HandlersPassExactly(s: State, role: Role, shipId: string, input: Input, a: Answers)
    ensures PassesOnly(Handler(s, role, shipId, input, a), Milestone(s, role, shipId, input, a))
  {
    if s == InitStart || s == ClientWait || s == ServerWait {
      InitPasses(s, role, shipId, input, a);
    } else if s == ReadyListen {
      ReadyPasses(role, shipId, input, a);
    } else if s == Hello || s == PendingInit || s == PendingListen {
      PendingPassesNothing(s, role, shipId, input, a);
    } else if InProtocol(s) {
      ProtocolPasses(s, role, shipId, input, a);
    } else if InPin(s) {
      PinPasses(s, role, shipId, input, a);
    } else if s == AccessRequest {
      AccessPasses(role, shipId, input, a);
    } else {
      OthersPassNothing(s, role, shipId, input, a);
    }
  }

  // --------------------------------------------------------------- schedules

  const YES := Answers(true, false, true, false, false, false, false)
  const NO := Answers(true, false, false, false, false, false, false)
  const UNSENT := Answers(false, false, true, false, false, false, false)

  lemma Extend(c: Conn, events: seq<Event>, e: Event)
    ensures Run(c, events + [e]) == Step(Run(c, events), e)
  {
    assert (events + [e])[..|events|] == events;
  }

  lemma {:induction false} RunFirst(c: Conn, e: Event, later: seq<Event>)
    ensures Run(c, [e] + later) == Run(Step(c, e), later)
  {
    var all := [e] + later;
    if later == [] {
      assert all[..0] == [] && Run(c, []) == c;
    } else {
      RunFirst(c, e, later[..|later| - 1]);
      assert all[..|all| - 1] == [e] + later[..|later| - 1];
    }
  }

  lemma {:induction false} RunConcat(c: Conn, a: seq<Event>, b: seq<Event>)
    ensures Run(c, a + b) == Run(Run(c, a), b)
  {
    if b == [] {
      assert a + b == a;
    } else {
      RunConcat(c, a, b[..|b| - 1]);
      assert (a + b)[..|a + b| - 1] == a + b[..|b| - 1];
    }
  }

  /** One action of the youngest thread. */
  lemma Acts(c: Conn, others: seq<seq<Action>>, action: Action, rest: seq<Action>, answers: Answers)
    requires c.threads == others + [[action] + rest]
    ensures Step(c, Advance(|others|, answers))
         == Act(c, action, answers).0.(threads := others + [Act(c, action, answers).1 + rest])
  {
    assert ([action] + rest)[1..] == rest;
    var x := Act(c, action, answers).1 + rest;
    assert c.threads[|others| := x] == others + [x];
  }
}
