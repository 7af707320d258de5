/**
 The handshake does complete: a witness that the Complete state is reachable by the
 milestones that lead to it.
 */
module HandshakeCompletion {
  import opened Basics
  import opened Handshake

  ghost predicate AwaitsAccess(c: Conn) {
    !c.closing && !c.required && !c.setupStarted && c.state == AccessRequest
  }

  function Committed(): seq<Action> {
    [Put(Approved)] + ([CallbackDone] + [TryComplete])
  }

  /** A matching reply is stored and committed. */
  lemma ReplyHandled(c: Conn, id: string)
    requires AwaitsAccess(c) && (c.shipId == "" || c.shipId == id)
    ensures var c' := Step(Step(c, Deliver(AccessMethods(Some(id)))), Advance(|c.threads|, YES));
            AwaitsAccess(c') && c'.shipId == c.shipId && c'.log == c.log
            && c'.threads == c.threads + [[Store(id)] + ([StopTimer] + ([Commit(id)] + Committed()))]
  {
    var input := AccessMethods(Some(id));
    var c1 := Step(c, Deliver(input));
    assert [Handle(input)] == [Handle(input)] + [];
    Acts(c1, c.threads, Handle(input), [], YES);
    assert HandleAccess(input, c.shipId, YES) + [] == [Store(id)] + ([StopTimer] + ([Commit(id)] + Committed()));
  }

  lemma StoreStep(c: Conn, others: seq<seq<Action>>, id: string, rest: seq<Action>)
    requires c.threads == others + [[Store(id)] + rest] && (c.shipId == "" || c.shipId == id)
    ensures Step(c, Advance(|others|, YES)) == c.(shipId := id, threads := others + [rest])
  {
    Acts(c, others, Store(id), rest, YES);
    assert [] + rest == rest;
  }

  lemma StopStep(c: Conn, others: seq<seq<Action>>, rest: seq<Action>)
    requires c.threads == others + [[StopTimer] + rest]
    ensures Step(c, Advance(|others|, YES)) == c.(armed := false, threads := others + [rest])
  {
    Acts(c, others, StopTimer, rest, YES);
    assert [] + rest == rest;
  }

  lemma CommitStep(c: Conn, others: seq<seq<Action>>, id: string, rest: seq<Action>)
    requires !c.closing && c.threads == others + [[Commit(id)] + rest]
    ensures Step(c, Advance(|others|, YES))
         == c.(commitStarted := true, callbackDone := false, log := c.log + [AccessMatched(id)], threads := others + [rest])
  {
    Acts(c, others, Commit(id), rest, YES);
    assert [] + rest == rest;
  }

  lemma CallbackStep(c: Conn, others: seq<seq<Action>>, rest: seq<Action>)
    requires !c.closing && c.threads == others + [[CallbackDone] + rest]
    ensures Step(c, Advance(|others|, YES)) == c.(callbackDone := true, threads := others + [rest])
  {
    Acts(c, others, CallbackDone, rest, YES);
    assert [] + rest == rest;
  }

  lemma ApprovedStep(c: Conn, others: seq<seq<Action>>, rest: seq<Action>)
    requires !c.closing && c.threads == others + [[Put(Approved)] + rest]
    ensures Step(c, Advance(|others|, YES)) == Enter(c, Approved, None, YES).(threads := others + [rest])
  {
    Acts(c, others, Put(Approved), rest, YES);
    assert [] + rest == rest;
  }

  lemma ReplyCommits(c: Conn, others: seq<seq<Action>>, id: string)
    requires AwaitsAccess(c) && (c.shipId == "" || c.shipId == id)
    requires c.threads == others + [[Store(id)] + ([StopTimer] + ([Commit(id)] + Committed()))]
    ensures var e := Advance(|others|, YES);
            var c' := Step(Step(Step(c, e), e), e);
            AwaitsAccess(c') && c'.shipId == id && AccessMatched(id) in c'.log && c'.threads == others + [Committed()]
  {
    var e := Advance(|others|, YES);
    StoreStep(c, others, id, [StopTimer] + ([Commit(id)] + Committed()));
    var c1 := Step(c, e);
    StopStep(c1, others, [Commit(id)] + Committed());
    CommitStep(Step(c1, e), others, id, Committed());
  }

  /** The callbacks return. */
  lemma CommitCallsBack(c: Conn, others: seq<seq<Action>>)
    requires AwaitsAccess(c) && c.threads == others + [Committed()]
    ensures var e := Advance(|others|, YES);
            var c' := Step(Step(c, e), e);
            !c'.closing && !c'.required && !c'.setupStarted && c'.threads == others + [[TryComplete]]
  {
    var e := Advance(|others|, YES);
    ApprovedStep(c, others, [CallbackDone] + [TryComplete]);
    CallbackStep(Step(c, e), others, [TryComplete]);
  }

  /** And the committed reply completes the handshake. */
  lemma CommitCompletes(c: Conn, others: seq<seq<Action>>)
    requires !c.closing && !c.required && !c.setupStarted && c.threads == others + [[TryComplete]]
    ensures var e := Advance(|others|, YES);
            Step(Step(Step(c, e), e), e).state == Complete
  {
    var e := Advance(|others|, YES);
    assert [TryComplete] == [TryComplete] + [];
    Acts(c, others, TryComplete, [], YES);
    var c1 := Step(c, e);
    assert [StopTimer, Install] + [] == [StopTimer] + [Install];
    StopStep(c1, others, [Install]);
    assert [Install] == [Install] + [];
    Acts(Step(c1, e), others, Install, [], YES);
  }

  /** From any connection that waits for the access methods, a reply with the stored
      SHIP ID, or any when none is stored, leads to Complete if nothing interferes. */
  lemma MatchingReplyCompletes(c: Conn, id: string)
    requires AwaitsAccess(c) && (c.shipId == "" || c.shipId == id)
    ensures var e := Advance(|c.threads|, YES);
            var c4 := Step(Step(Step(Step(Step(c, Deliver(AccessMethods(Some(id)))), e), e), e), e);
            c4.shipId == id && AccessMatched(id) in c4.log && Step(Step(Step(Step(Step(c4, e), e), e), e), e).state == Complete
  {
    var e := Advance(|c.threads|, YES);
    ReplyHandled(c, id);
    var c1 := Step(Step(c, Deliver(AccessMethods(Some(id)))), e);
    ReplyCommits(c1, c.threads, id);
    var c4 := Step(Step(Step(c1, e), e), e);
    CommitCallsBack(c4, c.threads);
    CommitCompletes(Step(Step(c4, e), e), c.threads);
  }
}
