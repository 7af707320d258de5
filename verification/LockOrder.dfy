/**
 The hub's four locks: muxReg, muxCon and muxConAttempt are mutexes, muxAttemptGate
 is a read-write lock whose waiting writer keeps new readers out. muxCon and
 muxAttemptGate are nested in both orders. Any number of threads run any sequences
 of the hub's critical sections; no wait cycle can arise.
 */
module LockOrder {

  datatype Lock = Reg | Con | Attempt | GateRead | GateWrite

  predicate IsGate(l: Lock) {
    l == GateRead || l == GateWrite
  }

  datatype Op = Acquire(lock: Lock) | Release(lock: Lock)

  // --------------------------------------------------------- the discipline

  /** muxReg is only taken with empty hands; any other lock with empty hands or under
      muxReg; no lock is taken twice. */
  predicate Allowed(held: set<Lock>, op: Op) {
    match op
    case Release(l) => l in held
    case Acquire(l) =>
      && (held == {} || (Reg in held && l != Reg)) && l !in held
      && (IsGate(l) ==> GateRead !in held && GateWrite !in held)
  }

  function After(held: set<Lock>, op: Op): set<Lock> {
    match op
    case Release(l) => held - {l}
    case Acquire(l) => held + {l}
  }

  /** From these locks on, the program obeys the discipline and ends with `end` held. */
  predicate Leads(held: set<Lock>, ops: seq<Op>, end: set<Lock>)
    decreases |ops|
  {
    if ops == [] then held == end
    else Allowed(held, ops[0]) && Leads(After(held, ops[0]), ops[1..], end)
  }

  predicate Checked(held: set<Lock>, ops: seq<Op>) {
    Leads(held, ops, {})
  }

  lemma {:induction false} LeadsOn(held: set<Lock>, a: seq<Op>, middle: set<Lock>, b: seq<Op>, end: set<Lock>)
    requires Leads(held, a, middle) && Leads(middle, b, end)
    ensures Leads(held, a + b, end)
    decreases |a|
  {
    if a == [] {
      assert a + b == b;
    } else {
      LeadsOn(After(held, a[0]), a[1..], middle, b, end);
      assert (a + b)[1..] == a[1..] + b;
    }
  }

  function Under(l: Lock, inner: seq<Op>): seq<Op> {
    [Acquire(l)] + inner + [Release(l)]
  }

  lemma UnderLeads(held: set<Lock>, l: Lock, inner: seq<Op>)
    requires Allowed(held, Acquire(l)) && Leads(held + {l}, inner, held + {l})
    ensures Leads(held, Under(l, inner), held)
  {
    assert held + {l} - {l} == held;
    assert [Release(l)][1..] == [] && [Acquire(l)][1..] == [];
    assert Leads(held + {l}, [Release(l)], held);
    assert Leads(held, [Acquire(l)], held + {l});
    LeadsOn(held + {l}, inner, held + {l}, [Release(l)], held);
    LeadsOn(held, [Acquire(l)], held + {l}, inner + [Release(l)], held);
    assert Under(l, inner) == [Acquire(l)] + (inner + [Release(l)]);
  }

  // --------------------------------------------- the hub's critical sections

  /** One constructor per lock pattern; early returns of an operation show up as the
      shallower patterns. */
  datatype Section =
    | Registry             // ServiceForSKI, WithTransientPIN, DiscardTransientPIN, RegisterRemoteSKI, finishTrustedRemoteRetry
    | Connections          // connectFoundService..., registerInbound/OutgoingConnection, claimClosedConnectionState
    | Attempts             // setConnectionAttemptRunning and the attempt counters
    | Gate                 // gate snapshot, launch registration, bind, release
    | GateShared           // blockOutboundAttemptCallbacks, first half of the ownership check
    | Admission            // admitPairingCandidate, connectPairingCandidate, outboundReconnectAuthority
    | Removal(closing: nat) // revoke, gate change, retirement, snapshot: then remove that many table entries
    | Update               // handleInternalShipHandshakeStateUpdate, publishCurrentPairingDetailAfterDelay
    | Retirement           // finishPairingCandidateRetirements
    | Reserve              // reserve/registerReservedInboundPairingConnection
    | ClosedAttempt        // claimClosedOutboundAttempt: muxCon inside muxAttemptGate
    | RetryCheck           // trustedRemoteRetryStillCurrent: muxAttemptGate inside muxCon
    | RetryBusy            // RetryTrustedRemote that finds a running attempt
    | RetryStart           // RetryTrustedRemote to the end

  function EntryRemovals(n: nat): seq<Op> {
    if n == 0 then [] else Under(Con, []) + EntryRemovals(n - 1)
  }

  function Locks(s: Section): seq<Op> {
    match s
    case Registry => Under(Reg, [])
    case Connections => Under(Con, [])
    case Attempts => Under(Attempt, [])
    case Gate => Under(GateWrite, [])
    case GateShared => Under(GateRead, [])
    case Admission => Under(Reg, Under(GateWrite, []))
    case Removal(n) => Under(Reg, Under(GateWrite, []) + EntryRemovals(n))
    case Update => Under(Reg, Under(GateRead, []))
    case Retirement => Under(Reg, Under(GateRead, Under(Attempt, [])))
    case Reserve => Under(Reg, Under(Con, []))
    case ClosedAttempt => Under(Reg, Under(GateWrite, Under(Con, [])))
    case RetryCheck => Under(Reg, Under(Con, Under(GateWrite, [])))
    case RetryBusy => Under(Reg, Under(Con, Under(Attempt, [])))
    case RetryStart => Under(Reg, Under(Con, Under(Attempt, Under(GateWrite, []))))
  }

  /** What a thread does: critical sections one after the other. */
  function Program(sections: seq<Section>): seq<Op> {
    if sections == [] then [] else Locks(sections[0]) + Program(sections[1..])
  }

  lemma {:induction false} RemovalsLead(n: nat)
    ensures Leads({Reg}, EntryRemovals(n), {Reg})
  {
    if n > 0 {
      UnderLeads({Reg}, Con, []);
      RemovalsLead(n - 1);
      LeadsOn({Reg}, Under(Con, []), {Reg}, EntryRemovals(n - 1), {Reg});
    }
  }

  lemma NestedLeads(held: set<Lock>, first: Lock, second: Lock, inner: seq<Op>)
    requires Allowed(held, Acquire(first)) && Allowed(held + {first}, Acquire(second))
    requires Leads(held + {first} + {second}, inner, held + {first} + {second})
    ensures Leads(held, Under(first, Under(second, inner)), held)
  {
    UnderLeads(held + {first}, second, inner);
    UnderLeads(held, first, Under(second, inner));
  }

  lemma SectionChecked(s: Section)
    ensures Checked({}, Locks(s))
  {
    assert {} + {Reg} == {Reg};
    match s
    case Registry => UnderLeads({}, Reg, []);
    case Connections => UnderLeads({}, Con, []);
    case Attempts => UnderLeads({}, Attempt, []);
    case Gate => UnderLeads({}, GateWrite, []);
    case GateShared => UnderLeads({}, GateRead, []);
    case Admission => NestedLeads({}, Reg, GateWrite, []);
    case Update => NestedLeads({}, Reg, GateRead, []);
    case Reserve => NestedLeads({}, Reg, Con, []);
    case Removal(n) =>
      UnderLeads({Reg}, GateWrite, []);
      RemovalsLead(n);
      LeadsOn({Reg}, Under(GateWrite, []), {Reg}, EntryRemovals(n), {Reg});
      UnderLeads({}, Reg, Under(GateWrite, []) + EntryRemovals(n));
    case Retirement =>
      NestedLeads({Reg}, GateRead, Attempt, []);
      UnderLeads({}, Reg, Under(GateRead, Under(Attempt, [])));
    case ClosedAttempt =>
      NestedLeads({Reg}, GateWrite, Con, []);
      UnderLeads({}, Reg, Under(GateWrite, Under(Con, [])));
    case RetryCheck =>
      NestedLeads({Reg}, Con, GateWrite, []);
      UnderLeads({}, Reg, Under(Con, Under(GateWrite, [])));
    case RetryBusy =>
      NestedLeads({Reg}, Con, Attempt, []);
      UnderLeads({}, Reg, Under(Con, Under(Attempt, [])));
    case RetryStart =>
      NestedLeads({Reg} + {Con}, Attempt, GateWrite, []);
      UnderLeads({Reg}, Con, Under(Attempt, Under(GateWrite, [])));
      UnderLeads({}, Reg, Under(Con, Under(Attempt, Under(GateWrite, []))));
  }

  lemma {:induction false} ProgramChecked(sections: seq<Section>)
    ensures Checked({}, Program(sections))
  {
    if sections != [] {
      SectionChecked(sections[0]);
      ProgramChecked(sections[1..]);
      LeadsOn({}, Locks(sections[0]), {}, Program(sections[1..]), {});
    }
  }

  // ---------------------------------------------------- threads and schedules

  /** `announced`: a writer that has closed the gate to new readers and waits for the
      present ones to leave. */
  datatype Thread = Thread(held: set<Lock>, rest: seq<Op>, announced: bool)

  function Start(programs: seq<seq<Section>>): seq<Thread> {
    seq(|programs|, i requires 0 <= i < |programs| => Thread({}, Program(programs[i]), false))
  }

  /** Thread `j` stands in the way of the next step of thread `t`. */
  predicate InTheWay(t: Thread, j: Thread) {
    t.rest != [] && t.rest[0].Acquire? &&
    match t.rest[0].lock
    case GateRead => GateWrite in j.held || j.announced
    case GateWrite => if t.announced then GateRead in j.held else GateWrite in j.held || j.announced
    case l => l in j.held
  }

  predicate Blocks(ts: seq<Thread>, i: nat, j: nat) {
    i < |ts| && j < |ts| && i != j && InTheWay(ts[i], ts[j])
  }

  predicate CanStep(ts: seq<Thread>, i: nat) {
    i < |ts| && ts[i].rest != [] && forall j | 0 <= j < |ts| :: !Blocks(ts, i, j)
  }

  /** Taking the write lock is two steps: announce, then enter. */
  function Advance(t: Thread): Thread
    requires t.rest != []
  {
    if t.rest[0] == Acquire(GateWrite) && !t.announced then t.(announced := true)
    else Thread(After(t.held, t.rest[0]), t.rest[1..], false)
  }

  function Step(ts: seq<Thread>, i: nat): seq<Thread> {
    if CanStep(ts, i) then ts[i := Advance(ts[i])] else ts
  }

  function Run(ts: seq<Thread>, schedule: seq<nat>): seq<Thread> {
    if schedule == [] then ts else Step(Run(ts, schedule[..|schedule| - 1]), schedule[|schedule| - 1])
  }

  // --------------------------------------------------------------- invariants

  ghost predicate Disciplined(t: Thread) {
    Checked(t.held, t.rest) && (t.announced ==> t.rest != [] && t.rest[0] == Acquire(GateWrite))
  }

  predicate Compatible(a: Thread, b: Thread) {
    && a.held * b.held <= {GateRead}
    && !(GateWrite in a.held && (GateRead in b.held || b.announced))
    && !(a.announced && b.announced)
  }

  ghost predicate Inv(ts: seq<Thread>) {
    && (forall i | 0 <= i < |ts| :: Disciplined(ts[i]))
    && (forall i, j | 0 <= i < |ts| && 0 <= j < |ts| && i != j :: Compatible(ts[i], ts[j]))
  }

  lemma AdvanceCompatible(t: Thread, o: Thread)
    requires Disciplined(t) && t.rest != [] && Compatible(t, o) && Compatible(o, t) && !InTheWay(t, o)
    ensures Compatible(Advance(t), o) && Compatible(o, Advance(t))
  {
  }

  lemma StepKeeps(ts: seq<Thread>, i: nat)
    requires Inv(ts)
    ensures Inv(Step(ts, i))
  {
    if CanStep(ts, i) {
      var ts' := Step(ts, i);
      forall j | 0 <= j < |ts| && j != i ensures Compatible(ts'[i], ts'[j]) && Compatible(ts'[j], ts'[i]) {
        assert !Blocks(ts, i, j);
        AdvanceCompatible(ts[i], ts[j]);
      }
    }
  }

  lemma {:induction false} Reachable(programs: seq<seq<Section>>, schedule: seq<nat>)
    ensures Inv(Run(Start(programs), schedule))
  {
    if schedule == [] {
      forall i | 0 <= i < |programs| ensures Disciplined(Start(programs)[i]) {
        ProgramChecked(programs[i]);
      }
    } else {
      Reachable(programs, schedule[..|schedule| - 1]);
      StepKeeps(Run(Start(programs), schedule[..|schedule| - 1]), schedule[|schedule| - 1]);
    }
  }

  // --------------------------------------------------------- no wait cycles

  /** Along every wait the rank goes down. */
  function Rank(t: Thread): nat {
    if t.rest == [] || t.rest[0].Release? then 0
    else if t.announced then 2
    else if IsGate(t.rest[0].lock) then 3
    else if Reg in t.held then 1
    else 4
  }

  lemma WaitsGoDown(t: Thread, o: Thread)
    requires Disciplined(t) && Disciplined(o) && Compatible(t, o) && Compatible(o, t) && InTheWay(t, o)
    ensures Rank(o) < Rank(t)
  {
    assert Allowed(t.held, t.rest[0]);
    assert o.rest != [] ==> Allowed(o.held, o.rest[0]);
    assert Reg in t.held && Reg in o.held ==> Reg in t.held * o.held;
  }

  /** In no reachable state is there a cycle of threads each waiting for the next. */
  lemma NoWaitCycle(programs: seq<seq<Section>>, schedule: seq<nat>, cycle: seq<nat>)
    requires |cycle| >= 2
    requires forall k | 0 <= k < |cycle| - 1 :: Blocks(Run(Start(programs), schedule), cycle[k], cycle[k + 1])
    ensures cycle[0] != cycle[|cycle| - 1]
  {
    Reachable(programs, schedule);
    RanksFall(Run(Start(programs), schedule), cycle);
  }

  lemma {:induction false} RanksFall(ts: seq<Thread>, path: seq<nat>)
    requires Inv(ts) && |path| >= 2
    requires forall k | 0 <= k < |path| - 1 :: Blocks(ts, path[k], path[k + 1])
    ensures path[0] < |ts| && path[|path| - 1] < |ts| && Rank(ts[path[|path| - 1]]) < Rank(ts[path[0]])
  {
    assert Blocks(ts, path[0], path[1]);
    WaitsGoDown(ts[path[0]], ts[path[1]]);
    if |path| > 2 {
      var rest := path[1..];
      assert forall k | 0 <= k < |rest| - 1 :: Blocks(ts, rest[k], rest[k + 1]) by {
        forall k | 0 <= k < |rest| - 1 ensures Blocks(ts, rest[k], rest[k + 1]) {
          assert Blocks(ts, path[k + 1], path[k + 2]);
        }
      }
      RanksFall(ts, rest);
    }
  }

  // ---------------------------------------------------------------- progress

  lemma {:induction false} SomeThreadRuns(ts: seq<Thread>, i: nat) returns (j: nat)
    requires Inv(ts) && i < |ts| && ts[i].rest != []
    ensures CanStep(ts, j)
    decreases Rank(ts[i])
  {
    if CanStep(ts, i) {
      j := i;
    } else {
      var k :| 0 <= k < |ts| && Blocks(ts, i, k);
      WaitsGoDown(ts[i], ts[k]);
      assert ts[k].rest != [];
      j := SomeThreadRuns(ts, k);
    }
  }

  function Work(ts: seq<Thread>): nat {
    if ts == [] then 0
    else Work(ts[..|ts| - 1]) + 2 * |ts[|ts| - 1].rest| + (if ts[|ts| - 1].announced then 0 else 1)
  }

  predicate Finished(ts: seq<Thread>) {
    forall i | 0 <= i < |ts| :: ts[i].rest == []
  }

  lemma {:induction false} WorkUpdate(ts: seq<Thread>, i: nat, t: Thread)
    requires i < |ts|
    requires 2 * |t.rest| + (if t.announced then 0 else 1) < 2 * |ts[i].rest| + (if ts[i].announced then 0 else 1)
    ensures Work(ts[i := t]) < Work(ts)
  {
    var n := |ts| - 1;
    if i == n {
      assert ts[i := t][..n] == ts[..n];
    } else {
      WorkUpdate(ts[..n], i, t);
      assert ts[i := t][..n] == ts[..n][i := t];
    }
  }

  lemma {:induction false} EveryoneFinishes(ts: seq<Thread>) returns (schedule: seq<nat>)
    requires Inv(ts)
    ensures Finished(Run(ts, schedule))
    decreases Work(ts)
  {
    schedule := [];
    if i :| 0 <= i < |ts| && ts[i].rest != [] {
      var j := SomeThreadRuns(ts, i);
      StepKeeps(ts, j);
      WorkUpdate(ts, j, Advance(ts[j]));
      var later := EveryoneFinishes(Step(ts, j));
      schedule := [j] + later;
      RunFrom(ts, j, later);
    }
  }

  lemma {:induction false} RunFrom(ts: seq<Thread>, j: nat, later: seq<nat>)
    ensures Run(ts, [j] + later) == Run(Step(ts, j), later)
  {
    var all := [j] + later;
    if later == [] {
      assert all[..0] == [];
    } else {
      RunFrom(ts, j, later[..|later| - 1]);
      assert all[..|all| - 1] == [j] + later[..|later| - 1];
    }
  }

  /** From every reachable state every thread can still run to the end of its program:
      the operations never get stuck on their locks. */
  lemma OperationsComplete(programs: seq<seq<Section>>, schedule: seq<nat>) returns (more: seq<nat>)
    ensures Finished(Run(Run(Start(programs), schedule), more))
  {
    Reachable(programs, schedule);
    more := EveryoneFinishes(Run(Start(programs), schedule));
  }

  // ------------------------------------------------ why muxReg is needed

  /** The same program with the steps on muxReg removed. */
  function WithoutReg(ops: seq<Op>): seq<Op> {
    if ops == [] then []
    else (if ops[0].lock == Reg then [] else [ops[0]]) + WithoutReg(ops[1..])
  }

  lemma {:induction false} WithoutRegConcat(a: seq<Op>, b: seq<Op>)
    ensures WithoutReg(a + b) == WithoutReg(a) + WithoutReg(b)
  {
    if a == [] {
      assert a + b == b;
    } else {
      WithoutRegConcat(a[1..], b);
      assert (a + b)[1..] == a[1..] + b;
    }
  }

  lemma WithoutRegOne(op: Op)
    ensures WithoutReg([op]) == if op.lock == Reg then [] else [op]
  {
    assert [op][1..] == [];
  }

  lemma WithoutRegUnder(l: Lock, inner: seq<Op>)
    ensures WithoutReg(Under(l, inner)) == if l == Reg then WithoutReg(inner) else Under(l, WithoutReg(inner))
  {
    WithoutRegConcat([Acquire(l)] + inner, [Release(l)]);
    WithoutRegConcat([Acquire(l)], inner);
    WithoutRegOne(Acquire(l));
    WithoutRegOne(Release(l));
  }

  /** Two nested locks under muxReg, without it. */
  lemma BareNesting(first: Lock, second: Lock)
    requires first != Reg && second != Reg
    ensures WithoutReg(Under(Reg, Under(first, Under(second, []))))
         == [Acquire(first), Acquire(second), Release(second), Release(first)]
  {
    WithoutRegUnder(Reg, Under(first, Under(second, [])));
    WithoutRegUnder(first, Under(second, []));
    WithoutRegUnder(second, []);
  }

  lemma StepsTo(ts: seq<Thread>, i: nat, t: Thread)
    requires |ts| == 2 && i < 2 && ts[i].rest != [] && !InTheWay(ts[i], ts[1 - i]) && t == Advance(ts[i])
    ensures Step(ts, i) == ts[i := t]
  {
    assert forall j | 0 <= j < |ts| :: !Blocks(ts, i, j);
  }

  lemma RunOfThree(ts: seq<Thread>, i: nat, j: nat, k: nat)
    ensures Run(ts, [i, j, k]) == Step(Step(Step(ts, i), j), k)
  {
    RunFrom(ts, i, [j, k]);
    RunFrom(Step(ts, i), j, [k]);
    RunFrom(Step(Step(ts, i), j), k, []);
    assert [i, j, k] == [i] + [j, k] && [j, k] == [j] + [k] && [k] == [k] + [];
  }

  /** The first takes muxCon, the second announces itself and enters the gate. */
  lemma BareRun(a: seq<Op>, b: seq<Op>)
    requires |a| > 0 && a[0] == Acquire(Con) && |b| > 0 && b[0] == Acquire(GateWrite)
    ensures Run([Thread({}, a, false), Thread({}, b, false)], [0, 1, 1])
         == [Thread({Con}, a[1..], false), Thread({GateWrite}, b[1..], false)]
  {
    var ts := [Thread({}, a, false), Thread({}, b, false)];
    StepsTo(ts, 0, Thread({Con}, a[1..], false));
    var ts1 := Step(ts, 0);
    StepsTo(ts1, 1, Thread({}, b, true));
    var ts2 := Step(ts1, 1);
    StepsTo(ts2, 1, Thread({GateWrite}, b[1..], false));
    RunOfThree(ts, 0, 1, 1);
  }

  /** muxReg is what prevents deadlock: if the hub's two nestings of muxCon and
      muxAttemptGate ran without it, a schedule leads to two threads that wait for
      each other. */
  lemma NestingNeedsMuxReg()
    ensures var start := [Thread({}, WithoutReg(Locks(RetryCheck)), false), Thread({}, WithoutReg(Locks(ClosedAttempt)), false)];
            var ts := Run(start, [0, 1, 1]);
            Blocks(ts, 0, 1) && Blocks(ts, 1, 0)
  {
    BareNesting(Con, GateWrite);
    BareNesting(GateWrite, Con);
    BareRun(WithoutReg(Locks(RetryCheck)), WithoutReg(Locks(ClosedAttempt)));
  }
}
