/**
 Discovery and the pairing registry together: a candidate reference lives for one
 contiguous interval of revisions, so the hub admits it at most once, in whatever
 order the manager's reports arrive.
 */
module CandidateLifetimes {
  import opened Basics
  import opened Addresses
  import opened PairingRegistry
  import opened PairingInvariants
  import opened PairingSafety
  import Q = SerialQueue
  import D = Discovery
  import K = ObservationKeys

  // ------------------------------------------------- the manager's timeline

  function RefSet(m: D.Manager): set<Ref> {
    set k | k in m.refs :: m.refs[k]
  }

  /** The references on offer at each revision a discovery history reaches. */
  ghost function Timeline(history: seq<D.Event>): seq<set<Ref>> {
    if history == [] then [{}]
    else
      var front := history[..|history| - 1];
      var m, m' := D.Run(front).manager, D.Run(history).manager;
      if m'.revision == m.revision then Timeline(front) else Timeline(front) + [RefSet(m')]
  }

  ghost predicate Contiguous(t: seq<set<Ref>>) {
    forall i, j, k, g | 0 <= i <= j <= k < |t| && g in t[i] && g in t[k] :: g in t[j]
  }

  lemma ManagerStep(m: D.Manager, m': D.Manager, key: string, service: K.Identity, meta: D.Meta, addresses: seq<Addr>)
    requires D.RefsIssued(m)
    requires m' == m || m' == D.Withdraw(m, key) || m' == D.Report(m, key, service, meta, addresses)
    ensures m'.revision == m.revision ==> m' == m
    ensures m'.revision == m.revision || m'.revision == m.revision + 1
    ensures forall g | g in RefSet(m') :: g in RefSet(m) || g > m.generation
  {
    forall g | g in RefSet(m') ensures g in RefSet(m) || g > m.generation {
      var k :| k in m'.refs && m'.refs[k] == g;
      if k in m.refs && m.refs[k] == g { assert g in RefSet(m); }
    }
  }

  ghost predicate IssuedBy(t: seq<set<Ref>>, generation: nat) {
    forall i, g | 0 <= i < |t| && g in t[i] :: 1 <= g <= generation
  }

  /** Each reference is visible for one contiguous interval of revisions. */
  lemma {:induction false} TimelineContiguous(history: seq<D.Event>)
    ensures var t, m := Timeline(history), D.Run(history).manager;
            && |t| == m.revision + 1 && t[0] == {} && t[m.revision] == RefSet(m)
            && Contiguous(t) && IssuedBy(t, m.generation)
  {
    D.RefsIssuedAlways(history);
    if history != [] {
      var front, e := history[..|history| - 1], history[|history| - 1];
      TimelineContiguous(front);
      D.RefsIssuedAlways(front);
      var s, m, m' := D.Run(front), D.Run(front).manager, D.Run(history).manager;
      var addresses := D.StepOnManager(s, e);
      ManagerStep(m, m', K.Key(e.service), e.service, e.meta, addresses);
      D.StepKeepsRefsIssued(s, e);
      var t, t' := Timeline(front), Timeline(history);
      if m'.revision != m.revision {
        AppendContiguous(t, RefSet(m'), m.generation);
        forall i, g | 0 <= i < |t'| && g in t'[i] ensures 1 <= g <= m'.generation {
          if i < |t| { assert g in t[i]; } else { assert g in RefSet(m'); }
        }
      }
    }
  }

  lemma AppendContiguous(t: seq<set<Ref>>, last: set<Ref>, generation: nat)
    requires t != [] && Contiguous(t) && IssuedBy(t, generation)
    requires forall g | g in last :: g in t[|t| - 1] || g > generation
    ensures Contiguous(t + [last])
  {
    var t' := t + [last];
    forall i, j, k, g | 0 <= i <= j <= k < |t'| && g in t'[i] && g in t'[k] ensures g in t'[j] {
      if k == |t| && j < |t| {
        assert g in t[i];
        assert g in t[|t| - 1];
      }
    }
  }

  // --------------------------------------------------- the hub on a timeline

  /** A report carries exactly the references of the revision it is stamped with. */
  ghost predicate Genuine(t: seq<set<Ref>>, revision: nat, candidates: seq<Candidate>) {
    0 < revision < |t| && Refs(candidates) == t[revision]
  }

  ghost predicate AllGenuine(t: seq<set<Ref>>, events: seq<Event>) {
    forall i | 0 <= i < |events| && events[i].Report? :: Genuine(t, events[i].revision, events[i].candidates)
  }

  /** The references admitted by a run, in order. */
  function AdmittedRefs(events: seq<Event>): seq<Ref> {
    if events == [] then []
    else
      var front, e := events[..|events| - 1], events[|events| - 1];
      if e.Select? && AdmitVerdict(Run(INITIAL, front), e.ref, e.ski, e.connect).Accepted?
      then AdmittedRefs(front) + [e.ref] else AdmittedRefs(front)
  }

  /** From a revision on, a reference is never offered again. */
  ghost predicate Gone(t: seq<set<Ref>>, revision: nat, g: Ref) {
    forall r | revision <= r < |t| :: g !in t[r]
  }

  ghost predicate OnTimeline(t: seq<set<Ref>>, h: Hub) {
    && h.reg.latestRevision < |t|
    && (forall s | s in Pending(h.feed) :: Genuine(t, s.revision, s.candidates))
    && h.reg.visible.Keys <= t[h.reg.latestRevision]
    && h.reg.consumed <= t[h.reg.latestRevision]
  }

  ghost predicate Spent(t: seq<set<Ref>>, h: Hub, refs: seq<Ref>) {
    forall g | g in refs :: g in h.reg.consumed || Gone(t, h.reg.latestRevision, g)
  }

  lemma {:induction false} VisibleKeys(candidates: seq<Candidate>, revision: nat)
    ensures VisibleOf(candidates, revision).Keys <= Refs(candidates)
  {
    if candidates != [] {
      var front := candidates[..|candidates| - 1];
      VisibleKeys(front, revision);
      assert forall c | c in front :: c in candidates;
      assert candidates[|candidates| - 1] in candidates;
    }
  }

  lemma ConsumedAfterApply(h: Hub, s: Snapshot, actives: seq<Ski>, retries: seq<Ski>)
    requires Core(h)
    ensures var h' := Apply(h, s, actives, retries);
            h'.reg.consumed == if s.revision < h.reg.latestRevision then h.reg.consumed else h.reg.consumed * Refs(s.candidates)
  {
    if s.revision < h.reg.latestRevision {
      InvalidateKeeps(h.(reg := h.reg.(appliedAdmission := s.admission)), retries, map[]);
    } else {
      var h0 := h.(reg := Install(h.reg, s));
      RetireStaleKeeps(h0, actives);
      InvalidateKeeps(RetireStale(h0, actives), retries, RetireStale(h0, actives).reg.visibleTrusted);
    }
  }

  lemma RunTaskOnTimeline(t: seq<set<Ref>>, h: Hub, e: Event, refs: seq<Ref>)
    requires Contiguous(t) && Inv(h) && OnTimeline(t, h) && Spent(t, h, refs)
    requires e.RunTask? && Enabled(h, e)
    ensures OnTimeline(t, Step(h, e)) && Spent(t, Step(h, e), refs)
  {
    var s, h' := h.feed.q.current.value, Step(h, e);
    assert s in Pending(h.feed);
    ApplyShows(h, s, e.actives, e.retries);
    ConsumedAfterApply(h, s, e.actives, e.retries);
    VisibleKeys(s.candidates, s.revision);
    assert forall x | x in Pending(h'.feed) :: x in Pending(h.feed);
    if s.revision >= h.reg.latestRevision {
      forall g | g in refs ensures g in h'.reg.consumed || Gone(t, s.revision, g) {
        if g in h.reg.consumed && g !in t[s.revision] {
          forall r | s.revision <= r < |t| ensures g !in t[r] {
            assert g in t[h.reg.latestRevision];
          }
        }
      }
    }
  }

  lemma GateKeepsConsumed(h: Hub, installed: bool, actives: seq<Ski>, retries: seq<Ski>)
    requires Core(h)
    ensures SetGate(h, installed, actives, retries).reg.consumed == h.reg.consumed
  {
    var h0 := h.(out := h.out.(gate := installed, gateEpoch := h.out.gateEpoch + 1));
    RetireEveryKeeps(h0, actives);
    RotateRetriesKeeps(RetireEvery(h0, actives), retries);
  }

  /** Only an admission and an effective snapshot touch the consumed references. */
  lemma StepKeepsConsumed(h: Hub, e: Event)
    requires Inv(h) && !e.Select? && !(e.RunTask? && Enabled(h, e))
    ensures Step(h, e).reg.consumed == h.reg.consumed
  {
    if OutboundOnly(e) {
      OutboundOnlyFrame(h, e);
    } else if PinOnly(e) {
      PinOnlyFrame(h, e);
    } else if FeedOnly(e) {
      FeedOnlyFrame(h, e);
    } else if e.ReplaceGate? {
      GateKeepsConsumed(h, e.installed, e.actives, e.retries);
    } else if CandidateEvent(e) {
      CandidateEventFrame(h, e);
    } else if RetryEvent(e) {
      RetryEventFrame(h, e);
    }
  }

  lemma ReportOnTimeline(t: seq<set<Ref>>, h: Hub, e: Event)
    requires OnTimeline(t, h) && e.Report? && Genuine(t, e.revision, e.candidates)
    ensures OnTimeline(t, Step(h, e))
  {
    var feed := Step(h, e).feed;
    assert Pending(feed) == Pending(h.feed) + [Snapshot(e.remotes, e.candidates, e.revision, h.feed.admission + 1)];
  }

  /** With genuine reports in any delivery order, interleaved with anything
      else, each candidate reference is admitted at most once in the whole run. */
  lemma {:induction false} AdmittedAtMostOnce(t: seq<set<Ref>>, events: seq<Event>)
    requires t != [] && t[0] == {} && Contiguous(t) && AllGenuine(t, events)
    ensures OnTimeline(t, Run(INITIAL, events)) && Spent(t, Run(INITIAL, events), AdmittedRefs(events))
    ensures forall i, j | 0 <= i < j < |AdmittedRefs(events)| :: AdmittedRefs(events)[i] != AdmittedRefs(events)[j]
  {
    if events != [] {
      var front, e := events[..|events| - 1], events[|events| - 1];
      assert AllGenuine(t, front);
      AdmittedAtMostOnce(t, front);
      Reachable(front);
      var h, h', refs := Run(INITIAL, front), Run(INITIAL, events), AdmittedRefs(front);
      if e.RunTask? && Enabled(h, e) {
        RunTaskOnTimeline(t, h, e, refs);
      } else if e.Select? {
        SelectOnTimeline(t, h, e, refs);
      } else if e.Report? {
        ReportOnTimeline(t, h, e);
      } else {
        StepKeepsConsumed(h, e);
        StepKeepsView(h, e);
      }
    }
  }

  lemma SelectOnTimeline(t: seq<set<Ref>>, h: Hub, e: Event, refs: seq<Ref>)
    requires OnTimeline(t, h) && Spent(t, h, refs) && e.Select?
    ensures OnTimeline(t, Step(h, e))
    ensures AdmitVerdict(h, e.ref, e.ski, e.connect).Accepted? ==> e.ref !in refs && Spent(t, Step(h, e), refs + [e.ref])
    ensures !AdmitVerdict(h, e.ref, e.ski, e.connect).Accepted? ==> Spent(t, Step(h, e), refs)
  {
  }

  /** A hub fed by a manager: every report, whenever it arrives, is a copy of what
      the manager held at some point of its history, with a positive revision. */
  ghost predicate FedBy(history: seq<D.Event>, events: seq<Event>) {
    forall i | 0 <= i < |events| && events[i].Report? ::
      exists n :: 0 <= n <= |history| && CopyOf(D.Run(history[..n]).manager, events[i])
  }

  ghost predicate CopyOf(m: D.Manager, e: Event)
    requires e.Report?
  {
    0 < m.revision == e.revision && Refs(e.candidates) == RefSet(m)
  }

  lemma {:induction false} TimelinePrefix(history: seq<D.Event>, n: nat)
    requires n <= |history|
    ensures Timeline(history[..n]) <= Timeline(history)
  {
    if n < |history| {
      TimelinePrefix(history[..|history| - 1], n);
      assert history[..|history| - 1][..n] == history[..n];
    } else {
      assert history[..n] == history;
    }
  }

  /** For any discovery history and any hub run fed from it, no candidate
      reference is admitted twice. */
  lemma ManagerReferencesAdmittedOnce(history: seq<D.Event>, events: seq<Event>)
    requires FedBy(history, events)
    ensures forall i, j | 0 <= i < j < |AdmittedRefs(events)| :: AdmittedRefs(events)[i] != AdmittedRefs(events)[j]
  {
    var t := Timeline(history);
    TimelineContiguous(history);
    forall i | 0 <= i < |events| && events[i].Report?
      ensures Genuine(t, events[i].revision, events[i].candidates)
    {
      var n :| 0 <= n <= |history| && CopyOf(D.Run(history[..n]).manager, events[i]);
      TimelineContiguous(history[..n]);
      TimelinePrefix(history, n);
      assert Timeline(history[..n])[events[i].revision] == t[events[i].revision];
    }
    AdmittedAtMostOnce(t, events);
  }

  // ------------------------------------------------ how long a reference is spent

  ghost predicate AdmitsAt(events: seq<Event>, k: nat, ref: Ref) {
    && k < |events| && events[k].Select? && events[k].ref == ref
    && AdmitVerdict(Run(INITIAL, events[..k]), ref, events[k].ski, events[k].connect).Accepted?
  }

  /** A snapshot that is not outdated is applied and does not list the reference. */
  ghost predicate OmitsAt(events: seq<Event>, j: nat, ref: Ref) {
    j < |events| && Omits(Run(INITIAL, events[..j]), events[j], ref)
  }

  ghost predicate Omits(h: Hub, e: Event, ref: Ref) {
    && e.RunTask? && Enabled(h, e)
    && h.feed.q.current.value.revision >= h.reg.latestRevision && ref !in Refs(h.feed.q.current.value.candidates)
  }

  /** The reference was admitted, and listed by every effective snapshot since. */
  ghost predicate AdmittedAndListedSince(events: seq<Event>, ref: Ref) {
    exists k | 0 <= k < |events| :: AdmitsAt(events, k, ref) && forall j | k < j < |events| :: !OmitsAt(events, j, ref)
  }

  lemma ConsumedStep(h: Hub, e: Event, ref: Ref)
    requires Inv(h)
    ensures ref in Step(h, e).reg.consumed <==>
              || (e.Select? && e.ref == ref && AdmitVerdict(h, ref, e.ski, e.connect).Accepted?)
              || (ref in h.reg.consumed && !Omits(h, e, ref))
  {
    if e.RunTask? && Enabled(h, e) {
      ConsumedAfterApply(h, h.feed.q.current.value, e.actives, e.retries);
    } else if !e.Select? {
      StepKeepsConsumed(h, e);
    }
  }

  /** Extending a run by one event. */
  lemma ListedSinceStep(front: seq<Event>, e: Event, ref: Ref)
    ensures AdmittedAndListedSince(front + [e], ref) <==>
              || AdmitsAt(front + [e], |front|, ref)
              || (AdmittedAndListedSince(front, ref) && !OmitsAt(front + [e], |front|, ref))
  {
    var events := front + [e];
    forall k | 0 <= k < |front|
      ensures AdmitsAt(events, k, ref) <==> AdmitsAt(front, k, ref)
      ensures OmitsAt(events, k, ref) <==> OmitsAt(front, k, ref)
    {
      assert events[..k] == front[..k];
    }
    if AdmittedAndListedSince(events, ref) && !AdmitsAt(events, |front|, ref) {
      var k :| 0 <= k < |events| && AdmitsAt(events, k, ref) && forall j | k < j < |events| :: !OmitsAt(events, j, ref);
      assert k < |front| && AdmitsAt(front, k, ref);
    }
    if AdmittedAndListedSince(front, ref) && !OmitsAt(events, |front|, ref) {
      var k :| 0 <= k < |front| && AdmitsAt(front, k, ref) && forall j | k < j < |front| :: !OmitsAt(front, j, ref);
      assert AdmitsAt(events, k, ref);
    }
  }

  /** In every run, whatever the revisions: a reference is spent if and only if it was
      admitted and every snapshot applied since that was not outdated lists it. */
  lemma {:induction false} SpentIff(events: seq<Event>, ref: Ref)
    ensures ref in Run(INITIAL, events).reg.consumed <==> AdmittedAndListedSince(events, ref)
  {
    if events != [] {
      var front, e := events[..|events| - 1], events[|events| - 1];
      SpentIff(front, ref);
      Reachable(front);
      ConsumedStep(Run(INITIAL, front), e, ref);
      assert events == front + [e] && events[..|front|] == front;
      ListedSinceStep(front, e, ref);
    }
  }

  /** Hence a synchronised hub refuses a reference as consumed exactly then: a second
      admission is open exactly when some effective snapshot omitted the reference
      after its last admission. */
  lemma SecondAdmissionIff(events: seq<Event>, ref: Ref, ski: Ski, connect: bool)
    requires Synchronised(Run(INITIAL, events))
    ensures AdmitVerdict(Run(INITIAL, events), ref, ski, connect) == Consumed <==> AdmittedAndListedSince(events, ref)
  {
    SpentIff(events, ref);
  }

  // ------------------------------------------- why positive revisions matter

  const OFFER := Candidate(1, "peer", "/ship/", 4711, [V4(1)])
  const SHOW := [Report([], [OFFER], 1), PopTask, RunTask([], [])]
  const PICK := Select(1, "peer", false)
  const DROP := RetireCandidate("peer", None, None)
  const BLANK := [Report([], [], 0), PopTask, RunTask([], [])]
  const AGAIN := [Report([], [OFFER], 2), PopTask, RunTask([], [])]

  lemma Extend(events: seq<Event>, e: Event)
    ensures Run(INITIAL, events + [e]) == Step(Run(INITIAL, events), e)
    ensures AdmittedRefs(events + [e]) == AdmittedRefs(events)
      + if e.Select? && AdmitVerdict(Run(INITIAL, events), e.ref, e.ski, e.connect).Accepted? then [e.ref] else []
  {
    assert (events + [e])[..|events|] == events;
  }

  ghost predicate Quiet(h: Hub) {
    && h.feed.q.items == [] && h.feed.q.current.None? && Q.OneDrainer(h.feed.q) && h.reg.active == map[] && h.reg.retries == map[]
    && h.feed.revision == h.reg.latestRevision
  }

  /** What one whole delivery does to a quiet hub. */
  ghost predicate Shown(h: Hub, h': Hub, candidates: seq<Candidate>, rev: nat) {
    && Quiet(h') && h'.out == h.out && h'.reg.trusted == h.reg.trusted && h'.reg.latestRevision == rev
    && h'.reg.consumed == h.reg.consumed * Refs(candidates) && h'.reg.visible == VisibleOf(candidates, rev)
    && h'.reg.appliedAdmission == h'.feed.admission
  }

  lemma ApplyQuietly(h: Hub, s: Snapshot)
    requires h.feed.q.current == Some(s) && h.feed.q.items == [] && Q.OneDrainer(h.feed.q) && h.reg.active == map[] && h.reg.retries == map[]
    requires s.revision >= h.reg.latestRevision && s.revision == h.feed.revision && s.admission == h.feed.admission
    ensures Shown(h, Step(h, RunTask([], [])), s.candidates, s.revision)
  {
    assert Lists([], {});
    assert Apply(h, s, [], []) == h.(reg := Install(h.reg, s));
  }

  lemma DeliveredTo(h: Hub, candidates: seq<Candidate>, revision: nat)
    requires Quiet(h) && (revision == 0 || revision >= h.feed.revision)
    ensures Shown(h, Step(Step(Step(h, Report([], candidates, revision)), PopTask), RunTask([], [])),
                    candidates, if revision == 0 then h.feed.revision + 1 else revision)
  {
    var rev := if revision == 0 then h.feed.revision + 1 else revision;
    var s := Snapshot([], candidates, rev, h.feed.admission + 1);
    var h1 := Step(h, Report([], candidates, revision));
    assert h1 == h.(feed := h1.feed) && h1.feed.q.items == [s] && h1.feed.q.drainers > 0 && h1.feed.q.current.None?;
    var h2 := Step(h1, PopTask);
    assert h2 == h.(feed := h1.feed.(q := h2.feed.q)) && h2.feed.q.items == [] && h2.feed.q.current == Some(s);
    ApplyQuietly(h2, s);
  }

  lemma ExtendThrice(events: seq<Event>, e1: Event, e2: Event, e3: Event)
    requires !e1.Select? && !e2.Select? && !e3.Select?
    ensures Run(INITIAL, events + [e1, e2, e3]) == Step(Step(Step(Run(INITIAL, events), e1), e2), e3)
    ensures AdmittedRefs(events + [e1, e2, e3]) == AdmittedRefs(events)
  {
    Extend(events, e1);
    Extend(events + [e1], e2);
    Extend(events + [e1] + [e2], e3);
    assert events + [e1, e2, e3] == events + [e1] + [e2] + [e3];
  }

  /** A report, its removal from the queue and its application. */
  lemma Delivered(events: seq<Event>, candidates: seq<Candidate>, revision: nat)
    requires Quiet(Run(INITIAL, events))
    requires revision == 0 || revision >= Run(INITIAL, events).feed.revision
    ensures var h, h' := Run(INITIAL, events), Run(INITIAL, events + [Report([], candidates, revision), PopTask, RunTask([], [])]);
            Shown(h, h', candidates, if revision == 0 then h.feed.revision + 1 else revision)
    ensures AdmittedRefs(events + [Report([], candidates, revision), PopTask, RunTask([], [])]) == AdmittedRefs(events)
  {
    DeliveredTo(Run(INITIAL, events), candidates, revision);
    ExtendThrice(events, Report([], candidates, revision), PopTask, RunTask([], []));
  }

  lemma OfferUsable()
    ensures VisibleOf([OFFER], 1) == map[1 := Observation("peer", 1, "/ship/", 4711, [V4(1)])]
    ensures VisibleOf([OFFER], 2) == map[1 := Observation("peer", 2, "/ship/", 4711, [V4(1)])]
    ensures Ordered([V4(1)]) == [V4(1)] && Refs([OFFER]) == {1} && Refs([]) == {}
  {
    assert [OFFER][..0] == [] && [V4(1)][..0] == [];
    assert Normalize(V4(1)) == Some(V4(1));
    assert Ordered([]) == [] && Insert(V4(1), []) == [V4(1)];
  }

  ghost predicate OffersOne(h: Hub) {
    && h.reg.appliedAdmission == h.feed.admission && 1 !in h.reg.consumed && 1 in h.reg.visible
    && h.reg.visible[1].ski == "peer" && h.reg.visible[1].path == "/ship/" && h.reg.visible[1].port == 4711
    && h.reg.visible[1].addresses == [V4(1)] && h.reg.trusted == {} && h.reg.active == map[]
  }

  lemma PickedBy(h: Hub)
    requires OffersOne(h)
    ensures AdmitVerdict(h, 1, "peer", false).Accepted?
    ensures var h1 := Step(h, PICK);
            h1.feed == h.feed && h1.reg.active.Keys == {"peer"} && h1.reg.consumed == h.reg.consumed + {1}
            && h1.reg.retries == h.reg.retries && h1.reg.trusted == {} && h1.reg.latestRevision == h.reg.latestRevision
  {
    OfferUsable();
  }

  lemma DroppedBy(h: Hub)
    requires h.reg.active.Keys == {"peer"} && h.reg.trusted == {}
    ensures var h1 := Step(h, DROP);
            h1.feed == h.feed && h1.reg.active == map[] && h1.reg.consumed == h.reg.consumed
            && h1.reg.retries == h.reg.retries && h1.reg.trusted == {} && h1.reg.latestRevision == h.reg.latestRevision
  {
    assert MayRetire(h.reg, "peer", None, None);
  }

  lemma Picked(events: seq<Event>)
    requires OffersOne(Run(INITIAL, events))
    ensures AdmittedRefs(events + [PICK]) == AdmittedRefs(events) + [1]
    ensures var h, h' := Run(INITIAL, events), Run(INITIAL, events + [PICK] + [DROP]);
            && h'.reg.active == map[] && h'.feed == h.feed && h'.reg.consumed == h.reg.consumed + {1}
            && h'.reg.retries == h.reg.retries && h'.reg.trusted == {} && h'.reg.latestRevision == h.reg.latestRevision
    ensures AdmittedRefs(events + [PICK] + [DROP]) == AdmittedRefs(events) + [1]
  {
    Extend(events, PICK);
    Extend(events + [PICK], DROP);
    PickedBy(Run(INITIAL, events));
    DroppedBy(Run(INITIAL, events + [PICK]));
  }

  /** A report without a revision is renumbered past every earlier one. If it is an
      old empty report, the hub forgets that reference 1 was consumed, and the next
      genuine report lets it be admitted a second time. */
  lemma RevisionZeroAdmitsTwice()
    ensures AdmittedRefs(SHOW + [PICK] + [DROP] + BLANK + AGAIN + [PICK]) == [1, 1]
  {
    OfferUsable();
    Delivered([], [OFFER], 1);
    assert [] + SHOW == SHOW;
    Picked(SHOW);
    Delivered(SHOW + [PICK] + [DROP], [], 0);
    Delivered(SHOW + [PICK] + [DROP] + BLANK, [OFFER], 2);
    Picked(SHOW + [PICK] + [DROP] + BLANK + AGAIN);
  }
}
