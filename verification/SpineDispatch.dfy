/**
 SPINE payloads on one SHIP connection: the bounded buffer that holds them until the
 device is set up, the hand-over to the reader, and the dispatch queue with its
 single drainer. Arrivals, the hand-over, draining and closing interleave freely.
 */
module SpineDispatch {
  import opened Basics
  import opened SerialQueue

  type Payload = string

  const MAX_MESSAGES := 16
  const MAX_BYTES := 16384

  /** What the dispatch queue does: report the Complete state, or hand over a payload. */
  datatype Task = Complete | Hand(payload: Payload)

  /** `passed`: the current task has found the connection open and is about to call the
      reader; it holds no lock then. */
  datatype Spine = Spine(
    required: bool, released: bool, closing: bool, terminal: bool, reader: bool,
    buffer: seq<Payload>, bytes: nat, q: Queue<Task>, passed: bool)

  function Fresh(required: bool): Spine {
    Spine(required, false, false, false, false, [], 0, Empty(), false)
  }

  predicate Terminated(s: Spine) {
    s.closing || s.terminal
  }

  function Dispatch(s: Spine, tasks: seq<Task>): Spine {
    s.(q := Enqueue(s.q, tasks))
  }

  datatype Route = Dropped | Dispatched | Buffered | TooEarly | TooMuch

  /** The decisions of `routeOrBufferSpinePayload`. */
  function RouteOf(s: Spine, p: Payload): Route {
    if Terminated(s) then Dropped
    else if s.reader then Dispatched
    else if s.required && !s.released then TooEarly
    else if |s.buffer| >= MAX_MESSAGES || |p| > MAX_BYTES - s.bytes then TooMuch
    else Buffered
  }

  /** The critical section of `HandleIncomingWebsocketMessage` for a SPINE payload. */
  function Arrive(s: Spine, p: Payload): Spine {
    match RouteOf(s, p)
    case Dropped => s
    case Dispatched => Dispatch(s, [Hand(p)])
    case Buffered => s.(buffer := s.buffer + [p], bytes := s.bytes + |p|)
    case TooEarly => s.(terminal := true)
    case TooMuch => s.(terminal := true)
  }

  function Hands(payloads: seq<Payload>): seq<Task> {
    seq(|payloads|, i requires 0 <= i < |payloads| => Hand(payloads[i]))
  }

  /** The last critical section of `approveHandshake`, which happens once. */
  function Install(s: Spine): Spine {
    if Terminated(s) then s
    else Dispatch(s.(reader := true, buffer := [], bytes := 0), [Complete] + Hands(s.buffer))
  }

  /** `spineDispatchTerminated` at the start of a task: it goes on or is dropped. */
  function Check(s: Spine): Spine {
    if s.q.current.None? || s.passed then s
    else if Terminated(s) then s.(q := Finish(s.q))
    else s.(passed := true)
  }

  // ------------------------------------------------------------------- runs

  datatype Event =
    | Payload(bytes: Payload)
    | Release
    | HandOver
    | TakeTask
    | CheckTask
    | RunTask
    | CloseClaimed
    | TerminalClose
    | DiscardBuffer
    | DiscardQueue

  /** With what has been accepted and what has been done so far. */
  datatype World = World(s: Spine, accepted: seq<Payload>, done: seq<Task>)

  function Step(w: World, e: Event): World {
    match e
    case Payload(p) =>
      World(Arrive(w.s, p), if RouteOf(w.s, p) in {Dispatched, Buffered} then w.accepted + [p] else w.accepted, w.done)
    case Release => w.(s := w.s.(released := true))
    case HandOver => if w.s.reader then w else w.(s := Install(w.s))
    case TakeTask => w.(s := w.s.(q := Take(w.s.q)))
    case CheckTask => w.(s := Check(w.s))
    case RunTask =>
      if w.s.q.current.None? || !w.s.passed then w
      else World(w.s.(q := Finish(w.s.q), passed := false), w.accepted, w.done + [w.s.q.current.value])
    case CloseClaimed => w.(s := w.s.(closing := true))
    case TerminalClose => w.(s := w.s.(closing := true, terminal := true))
    case DiscardBuffer => if w.s.terminal then w.(s := w.s.(buffer := [], bytes := 0)) else w
    case DiscardQueue => if w.s.terminal then w.(s := w.s.(q := w.s.q.(items := []))) else w
  }

  function Run(required: bool, events: seq<Event>): World {
    if events == [] then World(Fresh(required), [], [])
    else Step(Run(required, events[..|events| - 1]), events[|events| - 1])
  }

  // ------------------------------------------------------------- invariants

  function Total(payloads: seq<Payload>): nat {
    if payloads == [] then 0 else Total(payloads[..|payloads| - 1]) + |payloads[|payloads| - 1]|
  }

  ghost predicate BufferBounded(s: Spine) {
    |s.buffer| <= MAX_MESSAGES && s.bytes <= MAX_BYTES && s.bytes == Total(s.buffer)
  }

  /** Everything the reader is to see, in order. */
  function Script(payloads: seq<Payload>): seq<Task> {
    [Complete] + Hands(payloads)
  }

  /** The task that has passed its check and will run whatever happens. */
  function Committed(s: Spine): seq<Task> {
    if s.passed && s.q.current.Some? then [s.q.current.value] else []
  }

  ghost predicate InOrder(w: World) {
    && (w.s.passed ==> w.s.q.current.Some?)
    && (!w.s.reader ==> w.done == [] && Outstanding(w.s.q) == [] && (!Terminated(w.s) ==> w.s.buffer == w.accepted))
    && (w.s.reader ==> w.s.buffer == [])
    && (w.s.reader && !Terminated(w.s) ==> w.done + Outstanding(w.s.q) == Script(w.accepted))
    && w.done + Committed(w.s) <= Script(w.accepted)
  }

  ghost predicate Inv(w: World) {
    BufferBounded(w.s) && OneDrainer(w.s.q) && InOrder(w)
  }

  lemma ScriptGrows(payloads: seq<Payload>, p: Payload)
    ensures Script(payloads + [p]) == Script(payloads) + [Hand(p)]
    ensures Script(payloads) <= Script(payloads + [p])
  {
    assert Hands(payloads + [p]) == Hands(payloads) + [Hand(p)];
  }

  lemma TotalGrows(payloads: seq<Payload>, p: Payload)
    ensures Total(payloads + [p]) == Total(payloads) + |p|
  {
    assert (payloads + [p])[..|payloads|] == payloads;
  }

  lemma DispatchKeeps(w: World, p: Payload)
    requires Inv(w) && RouteOf(w.s, p) == Dispatched
    ensures Inv(Step(w, Payload(p)))
  {
    ScriptGrows(w.accepted, p);
    EnqueueAppends(w.s.q, [Hand(p)]);
    assert w.done + (Outstanding(w.s.q) + [Hand(p)]) == (w.done + Outstanding(w.s.q)) + [Hand(p)];
    assert Committed(Dispatch(w.s, [Hand(p)])) == Committed(w.s);
  }

  lemma ArriveKeeps(w: World, p: Payload)
    requires Inv(w)
    ensures Inv(Step(w, Payload(p)))
  {
    if RouteOf(w.s, p) == Dispatched {
      DispatchKeeps(w, p);
    } else {
      ScriptGrows(w.accepted, p);
      TotalGrows(w.s.buffer, p);
      assert Committed(Step(w, Payload(p)).s) == Committed(w.s);
    }
  }

  lemma HandOverKeeps(w: World)
    requires Inv(w)
    ensures Inv(Step(w, HandOver))
  {
    if !w.s.reader && !Terminated(w.s) {
      EnqueueAppends(w.s.q, Script(w.s.buffer));
      assert [] + Script(w.accepted) == Script(w.accepted);
      assert !w.s.passed;
      assert Committed(Install(w.s)) == [];
    }
  }

  lemma TakeTaskKeeps(w: World)
    requires Inv(w)
    ensures Inv(Step(w, TakeTask))
  {
    TakeKeeps(w.s.q);
    assert Committed(Step(w, TakeTask).s) == Committed(w.s);
  }

  /** A task that passes its check is the next one of the script. */
  lemma CheckKeeps(w: World)
    requires Inv(w)
    ensures Inv(Step(w, CheckTask))
  {
    if w.s.q.current.Some? && !w.s.passed {
      FinishPops(w.s.q);
      if !Terminated(w.s) {
        assert w.done + ([w.s.q.current.value] + w.s.q.items) == (w.done + [w.s.q.current.value]) + w.s.q.items;
      }
    }
  }

  lemma RunTaskKeeps(w: World)
    requires Inv(w)
    ensures Inv(Step(w, RunTask))
  {
    if w.s.passed {
      FinishPops(w.s.q);
      var t := [w.s.q.current.value];
      assert w.done + (t + Outstanding(Finish(w.s.q))) == (w.done + t) + Outstanding(Finish(w.s.q));
      assert (w.done + t) + [] == w.done + t;
    }
  }

  lemma DiscardKeeps(w: World)
    requires Inv(w)
    ensures Inv(Step(w, DiscardQueue)) && Inv(Step(w, DiscardBuffer))
  {
    assert Committed(w.s.(q := w.s.q.(items := []))) == Committed(w.s);
    assert Committed(w.s.(buffer := [], bytes := 0)) == Committed(w.s);
  }

  lemma FlagKeeps(w: World, e: Event)
    requires Inv(w) && (e.Release? || e.CloseClaimed? || e.TerminalClose?)
    ensures Inv(Step(w, e))
  {
    assert Committed(Step(w, e).s) == Committed(w.s);
  }

  lemma StepKeeps(w: World, e: Event)
    requires Inv(w)
    ensures Inv(Step(w, e))
  {
    match e
    case Payload(p) => ArriveKeeps(w, p);
    case HandOver => HandOverKeeps(w);
    case TakeTask => TakeTaskKeeps(w);
    case CheckTask => CheckKeeps(w);
    case RunTask => RunTaskKeeps(w);
    case DiscardBuffer => DiscardKeeps(w);
    case DiscardQueue => DiscardKeeps(w);
    case _ => FlagKeeps(w, e);
  }

  lemma {:induction false} Reachable(required: bool, events: seq<Event>)
    ensures Inv(Run(required, events))
  {
    if events != [] {
      Reachable(required, events[..|events| - 1]);
      StepKeeps(Run(required, events[..|events| - 1]), events[|events| - 1]);
    }
  }

  // ----------------------------------------------------------- main theorems

  /** The payloads handed to the reader so far. */
  function Handed(done: seq<Task>): seq<Payload> {
    if done == [] then []
    else Handed(done[..|done| - 1]) + if done[|done| - 1].Hand? then [done[|done| - 1].payload] else []
  }

  lemma {:induction false} HandedOfScript(payloads: seq<Payload>, done: seq<Task>)
    requires done <= Script(payloads)
    ensures Handed(done) <= payloads
    ensures |Handed(done)| == if done == [] then 0 else |done| - 1
    ensures done != [] ==> done[0] == Complete && forall i | 1 <= i < |done| :: done[i].Hand?
  {
    if done != [] {
      var n := |done| - 1;
      HandedOfScript(payloads, done[..n]);
      assert done[n] == Script(payloads)[n];
      if n > 0 {
        assert done[n] == Hand(payloads[n - 1]);
        assert payloads[..n - 1] + [payloads[n - 1]] == payloads[..n];
      }
    }
  }

  /** Under every interleaving, what the reader has been handed is a prefix of what was
      accepted, in arrival order, nothing lost or doubled, and the Complete report
      came before it. */
  lemma HandedInArrivalOrder(required: bool, events: seq<Event>)
    ensures var w := Run(required, events);
            && Handed(w.done) <= w.accepted
            && (w.done != [] ==> w.done[0] == Complete)
            && (forall i | 1 <= i < |w.done| :: w.done[i].Hand?)
  {
    Reachable(required, events);
    var w := Run(required, events);
    assert w.done <= w.done + Committed(w.s);
    HandedOfScript(w.accepted, w.done);
  }

  /** Nothing is held back: once the reader is installed and the queue is drained, an
      open connection has handed over everything it accepted. */
  lemma NothingHeldBack(required: bool, events: seq<Event>)
    requires var w := Run(required, events);
             w.s.reader && !Terminated(w.s) && w.s.q.current.None? && !w.s.q.draining
    ensures Handed(Run(required, events).done) == Run(required, events).accepted
  {
    Reachable(required, events);
    var w := Run(required, events);
    assert Outstanding(w.s.q) == [];
    assert w.done + [] == w.done;
    HandedOfScript(w.accepted, w.done);
  }

  /** The buffer bounds hold in every reachable state, and there is never more than
      one drainer. */
  lemma BufferAlwaysBounded(required: bool, events: seq<Event>)
    ensures var s := Run(required, events).s;
            |s.buffer| <= MAX_MESSAGES && s.bytes == Total(s.buffer) <= MAX_BYTES && s.q.drainers <= 1
  {
    Reachable(required, events);
  }

  // ---------------------------------------------------------- after a close

  /** Since `w0`, only the task that had passed its check then may have run. */
  ghost predicate Late(w0: World, w: World) {
    && Terminated(w.s)
    && (w.done == w0.done || w.done == w0.done + Committed(w0.s))
    && (w.s.passed ==> w0.s.passed && w.done == w0.done && w.s.q.current == w0.s.q.current && w.s.q.current.Some?)
  }

  lemma StaysLate(w0: World, w: World, e: Event)
    requires Late(w0, w)
    ensures Late(w0, Step(w, e))
  {
  }

  lemma {:induction false} LateOverRuns(required: bool, before: seq<Event>, after: seq<Event>)
    requires Terminated(Run(required, before).s)
    ensures Late(Run(required, before), Run(required, before + after))
  {
    if after == [] {
      Reachable(required, before);
      assert before + after == before;
    } else {
      LateOverRuns(required, before, after[..|after| - 1]);
      var all := before + after;
      assert all[..|all| - 1] == before + after[..|after| - 1];
      StaysLate(Run(required, before), Run(required, all[..|all| - 1]), all[|all| - 1]);
    }
  }

  /** After closing has begun at most one more task takes effect, in any continuation:
      the one that had already passed its check. */
  lemma AtMostOneAfterClose(required: bool, before: seq<Event>, after: seq<Event>)
    requires Terminated(Run(required, before).s)
    ensures var w, w' := Run(required, before), Run(required, before + after);
            w'.done == w.done || w'.done == w.done + Committed(w.s)
  {
    LateOverRuns(required, before, after);
  }

  /** And one does take effect, in some continuation, exactly when a check had passed
      before the close. */
  lemma OneAfterCloseIffPassed(required: bool, before: seq<Event>)
    requires Terminated(Run(required, before).s)
    ensures (exists after: seq<Event> :: Run(required, before + after).done != Run(required, before).done)
        <==> Run(required, before).s.passed
  {
    Reachable(required, before);
    var w := Run(required, before);
    if w.s.passed {
      Extend(required, before, RunTask);
      assert Run(required, before + [RunTask]).done != w.done;
    }
    if after: seq<Event> :| Run(required, before + after).done != w.done {
      LateOverRuns(required, before, after);
    }
  }

  lemma Extend(required: bool, events: seq<Event>, e: Event)
    ensures Run(required, events + [e]) == Step(Run(required, events), e)
  {
    assert (events + [e])[..|events|] == events;
  }

  /** The Complete report runs, the payload is taken out and passes its check, and only
      then does the close begin. */
  function RacingClose(p: Payload): seq<Event> {
    [] + [HandOver] + [Payload(p)] + [TakeTask] + [CheckTask] + [RunTask] + [TakeTask] + [CheckTask] + [CloseClaimed]
  }

  lemma ReportRuns(w: World, p: Payload)
    requires w == World(Fresh(false), [], [])
    ensures var w' := Step(Step(Step(Step(Step(w, HandOver), Payload(p)), TakeTask), CheckTask), RunTask);
            w'.s == Fresh(false).(reader := true, q := Queue([Hand(p)], true, 1, None)) && w'.done == [Complete]
  {
    var w1 := Step(w, HandOver);
    assert Hands([]) == [] && w1.s == Fresh(false).(reader := true, q := Queue([Complete], true, 1, None));
    var w2 := Step(w1, Payload(p));
    assert w2.s.q == Queue([Complete, Hand(p)], true, 1, None);
    var w3 := Step(w2, TakeTask);
    assert w3.s.q == Queue([Hand(p)], true, 1, Some(Complete));
  }

  /** Such a run exists for every payload: the reader gets it after closing began. */
  lemma HandedAfterClose(p: Payload)
    ensures var w := Run(false, RacingClose(p));
            w.s.closing && w.done == [Complete] && Step(w, RunTask).done == [Complete, Hand(p)]
  {
    var e0: seq<Event> := [];
    var e5 := e0 + [HandOver] + [Payload(p)] + [TakeTask] + [CheckTask] + [RunTask];
    Extend(false, e0, HandOver);
    Extend(false, e0 + [HandOver], Payload(p));
    Extend(false, e0 + [HandOver] + [Payload(p)], TakeTask);
    Extend(false, e0 + [HandOver] + [Payload(p)] + [TakeTask], CheckTask);
    Extend(false, e0 + [HandOver] + [Payload(p)] + [TakeTask] + [CheckTask], RunTask);
    Extend(false, e5, TakeTask);
    Extend(false, e5 + [TakeTask], CheckTask);
    Extend(false, e5 + [TakeTask] + [CheckTask], CloseClaimed);
    ReportRuns(World(Fresh(false), [], []), p);
    var w6 := Run(false, e5 + [TakeTask]);
    assert w6.s.q == Queue([], true, 1, Some(Hand(p)));
  }

  // ------------------------------------------------------- the live connection

  /** The fields guarded by spineDispatchMux, pairingApprovalMux and bufferMux. `done`
      records what the reader and the hub have been called with. */
  class SpineChannel {
    const required: bool
    var released: bool
    var closing: bool
    var terminal: bool
    var reader: bool
    var spineBuffer: seq<Payload>
    var spineBufferBytes: nat
    var spineDispatchQueue: seq<Task>
    var spineDispatching: bool
    var done: seq<Task>

    /** Seen between two calls, so no drainer is at work. */
    ghost function View(): Spine
      reads this
    {
      Spine(required, released, closing, terminal, reader, spineBuffer, spineBufferBytes,
            Queue(spineDispatchQueue, spineDispatching, if spineDispatching then 1 else 0, None), false)
    }

    ghost predicate Valid()
      reads this
    {
      BufferBounded(View())
    }

    constructor (required: bool)
      ensures View() == Fresh(required) && done == [] && Valid()
    {
      this.required := required;
      released, closing, terminal, reader := false, false, false, false;
      spineBuffer, spineBufferBytes, spineDispatchQueue, spineDispatching, done := [], 0, [], false, [];
    }

    method EnqueueSpineDispatch(tasks: seq<Task>) returns (shouldDrain: bool)
      requires Valid()
      modifies this`spineDispatchQueue, this`spineDispatching
      ensures Valid() && View() == Dispatch(old(View()), tasks) && shouldDrain == !old(spineDispatching)
    {
      spineDispatchQueue := spineDispatchQueue + tasks;
      shouldDrain := !spineDispatching;
      spineDispatching := true;
    }

    method RouteOrBuffer(p: Payload) returns (route: Route)
      requires Valid()
      modifies this`terminal, this`spineBuffer, this`spineBufferBytes
      ensures Valid() && route == RouteOf(old(View()), p)
      ensures terminal == (old(terminal) || route == TooEarly || route == TooMuch)
      ensures spineBuffer == if route == Buffered then old(spineBuffer) + [p] else old(spineBuffer)
    {
      if closing || terminal { return Dropped; }
      if reader { return Dispatched; }
      if required && !released {
        terminal := true;
        return TooEarly;
      }
      if |spineBuffer| >= MAX_MESSAGES || |p| > MAX_BYTES - spineBufferBytes {
        terminal := true;
        return TooMuch;
      }
      TotalGrows(spineBuffer, p);
      spineBuffer, spineBufferBytes := spineBuffer + [p], spineBufferBytes + |p|;
      return Buffered;
    }

    /** The drain loop with nobody interfering: every queued task runs in order, unless
        the connection has been terminated, and the drainer leaves. */
    method DrainSpineDispatchQueue()
      requires Valid() && spineDispatching
      modifies this`spineDispatchQueue, this`spineDispatching, this`done
      ensures Valid() && spineDispatchQueue == [] && !spineDispatching
      ensures done == if closing || terminal then old(done) else old(done) + old(spineDispatchQueue)
    {
      ghost var all := spineDispatchQueue;
      ghost var ran := 0;
      while spineDispatchQueue != []
        invariant 0 <= ran <= |all| && spineDispatchQueue == all[ran..]
        invariant done == if closing || terminal then old(done) else old(done) + all[..ran]
        invariant Valid()
        decreases |spineDispatchQueue|
      {
        var task := spineDispatchQueue[0];
        spineDispatchQueue := spineDispatchQueue[1..];
        if !(closing || terminal) { done := done + [task]; }
        assert all[..ran + 1] == all[..ran] + [task];
        ran := ran + 1;
      }
      spineDispatching := false;
      assert all[..|all|] == all;
    }

    method HandleIncomingSpine(p: Payload)
      requires Valid() && !spineDispatching && spineDispatchQueue == []
      modifies this
      ensures Valid() && !spineDispatching && spineDispatchQueue == []
      ensures released == old(released) && closing == old(closing) && reader == old(reader)
      ensures done == if RouteOf(old(View()), p).Dispatched? then old(done) + [Hand(p)] else old(done)
      ensures spineBuffer == if RouteOf(old(View()), p).Buffered? then old(spineBuffer) + [p] else old(spineBuffer)
    {
      var route := RouteOrBuffer(p);
      if route.Dispatched? {
        var shouldDrain := EnqueueSpineDispatch([Hand(p)]);
        if shouldDrain { DrainSpineDispatchQueue(); }
      }
    }

    /** The hand-over in `approveHandshake` once the reader exists. */
    method CompleteHandshake()
      requires Valid() && !spineDispatching && spineDispatchQueue == []
      modifies this
      ensures Valid() && !spineDispatching && spineDispatchQueue == []
      ensures released == old(released) && closing == old(closing) && terminal == old(terminal)
      ensures reader == (old(reader) || !Terminated(old(View())))
      ensures done == if Terminated(old(View())) then old(done) else old(done) + Script(old(spineBuffer))
    {
      if closing || terminal { return; }
      var tasks := HandOverTasks(spineBuffer);
      reader, spineBuffer, spineBufferBytes := true, [], 0;
      var shouldDrain := EnqueueSpineDispatch(tasks);
      if shouldDrain { DrainSpineDispatchQueue(); }
    }
  }

  method HandOverTasks(buffered: seq<Payload>) returns (tasks: seq<Task>)
    ensures tasks == Script(buffered)
  {
    tasks := [Complete];
    var i := 0;
    while i < |buffered|
      invariant 0 <= i <= |buffered| && tasks == Script(buffered[..i])
    {
      ScriptGrows(buffered[..i], buffered[i]);
      assert buffered[..i + 1] == buffered[..i] + [buffered[i]];
      tasks := tasks + [Hand(buffered[i])];
      i := i + 1;
    }
    assert buffered[..i] == buffered;
  }
}
