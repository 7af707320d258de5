/**
 Scoped discovery: the Zeroconf provider aggregates one address list per network
 interface for every observed service, and the mDNS manager keeps one entry and
 one candidate reference per service.

 A candidate reference is an HMAC over a generation counter; it is represented
 here by that counter.
 */
module Discovery {
  import opened Basics
  import opened Addresses
  import opened ObservationKeys

  datatype Scope = Scope(index: nat, name: string)

  /** A `net.IP` as zeroconf delivers it: 4 bytes, 16 bytes, or anything else. */
  datatype RawIP = Bytes4(narrow: Bits32) | Bytes16(broad: Bits128) | Malformed {
    function ToAddr(): Addr {
      match this
      case Bytes4(b) => V4(b)
      case Bytes16(b) => V6(b, "")
      case Malformed => Invalid
    }
  }

  /** The TXT elements an observation may change without becoming another service. */
  datatype Meta = Meta(register: bool, brand: string, kind: string, model: string)

  datatype Entry = Entry(service: Identity, scoped: seq<Addr>, unscopedLinkLocal: bool, meta: Meta)

  datatype Manager = Manager(entries: map<string, Entry>, refs: map<string, nat>, generation: nat, revision: nat)

  type Scopes = map<Scope, seq<Addr>>

  datatype State = State(observations: map<string, Scopes>, manager: Manager)

  datatype Event =
    | Seen(scope: Scope, service: Identity, meta: Meta, raw: seq<RawIP>)
    | Expired(scope: Scope, service: Identity, meta: Meta)
    | Goodbye(service: Identity, meta: Meta)

  const INITIAL := State(map[], Manager(map[], map[], 0, 0))

  // ------------------------------------------------------------ addresses

  /** One element of `scopedServiceAddressesForZone`. */
  function Zoned(raw: RawIP, zone: string): Addr {
    var a := raw.ToAddr().Unmap();
    if a.IsLinkLocal6() && zone != "" then V6(a.wide, zone) else a
  }

  function ForZone(raw: seq<RawIP>, zone: string): (r: seq<Addr>)
    ensures forall a | a in r :: WellZoned(a)
  {
    if raw == [] then []
    else if raw[0].Malformed? then ForZone(raw[1..], zone)
    else [Zoned(raw[0], zone)] + ForZone(raw[1..], zone)
  }

  /** The addresses the provider can record: valid, unmapped, and zoned only when
      link-local. */
  predicate WellZoned(a: Addr) {
    !a.Invalid? && !a.Is4In6() && (a.V6? && a.zone != "" ==> a.IsLinkLocal6())
  }

  /** What `normalizeMdnsAddresses` keeps of one address. */
  function Kept(a: Addr): Option<Addr> {
    if a.Invalid? then None
    else
      var u := a.Unmap();
      if u.IsLinkLocal6() then (if u.zone == "" then None else Some(u))
      else if u.V6? then Some(V6(u.wide, ""))
      else Some(u)
  }

  predicate UnscopedLinkLocal(a: Addr) {
    !a.Invalid? && a.Unmap().IsLinkLocal6() && a.Unmap().zone == ""
  }

  /** The scoped list of `normalizeMdnsAddresses`: first occurrences, in order. */
  function KeptAll(s: seq<Addr>): seq<Addr> {
    if s == [] then []
    else
      var rest := KeptAll(s[..|s| - 1]);
      match Kept(s[|s| - 1])
      case None => rest
      case Some(a) => if a in rest then rest else rest + [a]
  }

  function KeptSet(S: set<Addr>): set<Addr> {
    set a | a in S && Kept(a).Some? :: Kept(a).value
  }

  /** On what the provider aggregates, keeping an address never changes it, so
      the kept list stays ascending. */
  lemma {:induction false} KeptAllAscending(s: seq<Addr>)
    requires Ascending(s) && forall a | a in s :: WellZoned(a)
    ensures Ascending(KeptAll(s)) && Elements(KeptAll(s)) == KeptSet(Elements(s))
    ensures Elements(KeptAll(s)) <= Elements(s)
  {
    if s != [] {
      var front, last := s[..|s| - 1], s[|s| - 1];
      KeptAllAscending(front);
      assert s == front + [last];
      ElementsConcat(front, [last]);
      var rest := KeptAll(front);
      LessTotal(last, last);
      forall j | 0 <= j < |rest| ensures Less(rest[j], last) {
        assert rest[j] in Elements(rest);
        assert rest[j] in Elements(front);
      }
      assert last in s;
      if Kept(last).Some? {
        assert Kept(last).value == last;
        ElementsConcat(rest, [last]);
      }
    }
  }

  function Union(scopes: Scopes): set<Addr> {
    set sc, a | sc in scopes && a in scopes[sc] :: a
  }

  lemma UnionSplit(scopes: Scopes, scope: Scope)
    requires scope in scopes
    ensures Union(scopes) == Union(scopes - {scope}) + Elements(scopes[scope])
  {
    var rest := scopes - {scope};
    assert forall sc | sc in rest :: rest[sc] == scopes[sc];
    assert forall a | a in scopes[scope] :: a in Union(scopes);
    assert forall a | a in Union(rest) :: a in Union(scopes);
  }

  lemma {:induction false} ListingExists(S: set<Addr>)
    ensures exists r :: Ascending(r) && Elements(r) == S
    decreases |S|
  {
    if S == {} {
      assert Ascending([]) && Elements([]) == S;
    } else {
      var a :| a in S;
      ListingExists(S - {a});
      var r :| Ascending(r) && Elements(r) == S - {a};
      InsertAscending(a, r);
      assert Elements(Insert(a, r)) == S;
    }
  }

  /** The one ascending listing of a set of addresses. */
  ghost function Listing(S: set<Addr>): (r: seq<Addr>)
    ensures Ascending(r) && Elements(r) == S
  {
    ListingExists(S);
    var r :| Ascending(r) && Elements(r) == S;
    r
  }

  // ------------------------------------------------------------- the steps

  function WithFreshRef(m: Manager, key: string, entry: Entry): Manager {
    Manager(m.entries[key := entry], m.refs[key := m.generation + 1], m.generation + 1, m.revision + 1)
  }

  /** `processScopedMdnsEntry` for an observation with valid TXT elements. */
  function Report(m: Manager, key: string, service: Identity, meta: Meta, addresses: seq<Addr>): Manager {
    var scoped := KeptAll(addresses);
    var unscoped := exists a | a in addresses :: UnscopedLinkLocal(a);
    var added := Entry(service, scoped, unscoped, meta);
    if key !in m.entries then WithFreshRef(m, key, added)
    else
      var entry := m.entries[key];
      var updated := entry.(scoped := scoped, unscopedLinkLocal := unscoped, meta := meta);
      if Lost(entry.scoped, scoped) || entry.meta != meta then WithFreshRef(m, key, updated)
      else if updated == entry then m
      else m.(entries := m.entries[key := updated], revision := m.revision + 1)
  }

  /** `scopedAddressSetLost`. */
  predicate Lost(previous: seq<Addr>, current: seq<Addr>) {
    exists a | a in previous :: a !in current
  }

  function Withdraw(m: Manager, key: string): Manager {
    if key in m.entries then Manager(m.entries - {key}, m.refs - {key}, m.generation, m.revision + 1) else m
  }

  /** `processScopedServiceForInterface`. A goodbye reaches the removal path with
      an unexpired record and drops every interface at once; an expiry drops one. */
  ghost function Step(s: State, e: Event): State {
    var key := Key(e.service);
    var scopes := if key in s.observations then s.observations[key] else map[];
    match e
    case Seen(scope, service, meta, raw) =>
      Observed(s, service, meta, scopes[scope := ForZone(raw, scope.name)])
    case Goodbye(service, _) =>
      if scopes == map[] then s else Dropped(s, service)
    case Expired(scope, service, meta) =>
      if scope !in scopes then s
      else if scopes - {scope} == map[] then Dropped(s, service)
      else Observed(s, service, meta, scopes - {scope})
  }

  ghost function Observed(s: State, service: Identity, meta: Meta, scopes: Scopes): State {
    State(s.observations[Key(service) := scopes], Report(s.manager, Key(service), service, meta, Listing(Union(scopes))))
  }

  function Dropped(s: State, service: Identity): State {
    State(s.observations - {Key(service)}, Withdraw(s.manager, Key(service)))
  }

  ghost function Run(events: seq<Event>): State {
    if events == [] then INITIAL else Step(Run(events[..|events| - 1]), events[|events| - 1])
  }

  // -------------------------------------------- the reference: live scopes

  /** The interfaces on which a service is live after a history, computed from the
      events about that service alone. */
  function LiveScopes(events: seq<Event>, service: Identity): Scopes {
    if events == [] then map[]
    else
      var e := events[|events| - 1];
      var live := LiveScopes(events[..|events| - 1], service);
      if e.service != service then live
      else match e
        case Seen(scope, _, _, raw) => live[scope := ForZone(raw, scope.name)]
        case Expired(scope, _, _) => live - {scope}
        case Goodbye(_, _) => map[]
  }

  lemma {:induction false} LiveWellZoned(events: seq<Event>, service: Identity)
    ensures forall a | a in Union(LiveScopes(events, service)) :: WellZoned(a)
  {
    if events != [] { LiveWellZoned(events[..|events| - 1], service); }
  }

  /** What the provider and the manager hold for one service. */
  ghost predicate Holds(s: State, service: Identity, live: Scopes) {
    var key := Key(service);
    && (key in s.observations <==> live != map[])
    && (live != map[] ==> s.observations[key] == live)
    && s.manager.refs.Keys == s.manager.entries.Keys
    && (key in s.manager.entries <==> live != map[])
    && (live != map[] ==>
          var entry := s.manager.entries[key];
          && entry.service == service
          && Ascending(entry.scoped)
          && Elements(entry.scoped) == KeptSet(Union(live))
          && (entry.unscopedLinkLocal <==> exists a | a in Union(live) :: UnscopedLinkLocal(a)))
  }

  lemma ReportHolds(m: Manager, key: string, service: Identity, meta: Meta, live: Scopes)
    requires forall a | a in Union(live) :: WellZoned(a)
    requires m.refs.Keys == m.entries.Keys
    requires key in m.entries ==> m.entries[key].service == service
    ensures var m' := Report(m, key, service, meta, Listing(Union(live)));
            && m'.refs.Keys == m'.entries.Keys
            && key in m'.entries
            && var entry := m'.entries[key];
            && entry.service == service && Ascending(entry.scoped) && Elements(entry.scoped) == KeptSet(Union(live))
            && (entry.unscopedLinkLocal <==> exists a | a in Union(live) :: UnscopedLinkLocal(a))
  {
    var listing := Listing(Union(live));
    assert forall a :: a in listing <==> a in Elements(listing);
    KeptAllAscending(listing);
  }

  lemma OtherServiceKept(s: State, e: Event, service: Identity, live: Scopes)
    requires Holds(s, service, live) && Key(e.service) != Key(service)
    ensures Holds(Step(s, e), service, live)
  {
    StepElsewhere(s, e, Key(service));
    SameHolds(s, Step(s, e), service, live);
  }

  /** Nothing about one observation key has changed. */
  ghost predicate SameAt(s: State, s': State, key: string) {
    && (key in s.observations <==> key in s'.observations)
    && (key in s.observations ==> s.observations[key] == s'.observations[key])
    && (key in s.manager.entries <==> key in s'.manager.entries)
    && (key in s.manager.entries ==> s.manager.entries[key] == s'.manager.entries[key])
    && (s.manager.refs.Keys == s.manager.entries.Keys ==> s'.manager.refs.Keys == s'.manager.entries.Keys)
  }

  lemma StepElsewhere(s: State, e: Event, key: string)
    requires Key(e.service) != key
    ensures SameAt(s, Step(s, e), key)
  {
  }

  lemma SameHolds(s: State, s': State, service: Identity, live: Scopes)
    requires Holds(s, service, live) && SameAt(s, s', Key(service))
    ensures Holds(s', service, live)
  {
  }

  lemma ServiceFollowed(s: State, e: Event, scopes: Scopes, live: Scopes)
    requires Holds(s, e.service, scopes)
    requires forall a | a in Union(live) :: WellZoned(a)
    requires live == match e
                     case Seen(scope, _, _, raw) => scopes[scope := ForZone(raw, scope.name)]
                     case Expired(scope, _, _) => scopes - {scope}
                     case Goodbye(_, _) => map[]
    ensures Holds(Step(s, e), e.service, live)
  {
    var key := Key(e.service);
    assert e.Seen? ==> e.scope in live;
    assert e.Expired? && e.scope !in scopes ==> live == scopes;
    if e.Seen? || (e.Expired? && e.scope in scopes && live != map[]) {
      ReportHolds(s.manager, key, e.service, e.meta, live);
      assert Step(s, e) == Observed(s, e.service, e.meta, live);
    }
  }

  /** After any history of announcements, expiries and goodbyes on any
      interfaces, a service has a manager entry exactly when it is live somewhere,
      and the entry lists the normalised union over the live interfaces. */
  lemma {:induction false} EntriesFollowLiveScopes(events: seq<Event>, service: Identity)
    ensures Holds(Run(events), service, LiveScopes(events, service))
  {
    if events != [] {
      var front, e := events[..|events| - 1], events[|events| - 1];
      EntriesFollowLiveScopes(front, service);
      if e.service == service {
        LiveWellZoned(events, service);
        ServiceFollowed(Run(front), e, LiveScopes(front, service), LiveScopes(events, service));
      } else {
        if Key(e.service) == Key(service) { KeyInjective(e.service, service); }
        OtherServiceKept(Run(front), e, service, LiveScopes(front, service));
      }
    }
  }

  /** Every reference was issued by a past generation, and no two entries share one. */
  ghost predicate RefsIssued(m: Manager) {
    && m.refs.Keys == m.entries.Keys
    && (forall k | k in m.refs :: 1 <= m.refs[k] <= m.generation)
    && (forall k, l | k in m.refs && l in m.refs && m.refs[k] == m.refs[l] :: k == l)
  }

  lemma FreshRefIssued(m: Manager, key: string, entry: Entry)
    requires RefsIssued(m)
    ensures RefsIssued(WithFreshRef(m, key, entry))
  {
    var m' := WithFreshRef(m, key, entry);
    forall k, l | k in m'.refs && l in m'.refs && m'.refs[k] == m'.refs[l] ensures k == l {
      assert k != key ==> k in m.refs;
      assert l != key ==> l in m.refs;
    }
  }

  lemma ReportKeepsRefsIssued(m: Manager, key: string, service: Identity, meta: Meta, addresses: seq<Addr>)
    requires RefsIssued(m)
    ensures var m' := Report(m, key, service, meta, addresses); RefsIssued(m') && m'.generation >= m.generation
  {
    var m' := Report(m, key, service, meta, addresses);
    if m'.generation != m.generation {
      FreshRefIssued(m, key, m'.entries[key]);
    }
  }

  lemma WithdrawKeepsRefsIssued(m: Manager, key: string)
    requires RefsIssued(m)
    ensures RefsIssued(Withdraw(m, key)) && Withdraw(m, key).generation == m.generation
  {
  }

  lemma StepKeepsRefsIssued(s: State, e: Event)
    requires RefsIssued(s.manager)
    ensures RefsIssued(Step(s, e).manager)
    ensures Step(s, e).manager.generation >= s.manager.generation
  {
    var addresses := StepOnManager(s, e);
    ReportKeepsRefsIssued(s.manager, Key(e.service), e.service, e.meta, addresses);
    WithdrawKeepsRefsIssued(s.manager, Key(e.service));
  }

  lemma {:induction false} RefsIssuedAlways(events: seq<Event>)
    ensures RefsIssued(Run(events).manager)
  {
    if events != [] {
      RefsIssuedAlways(events[..|events| - 1]);
      StepKeepsRefsIssued(Run(events[..|events| - 1]), events[|events| - 1]);
    }
  }

  /** The candidate reference of a service that stays live changes exactly
      when an address is lost or the metadata changes; a service that becomes live
      gets a reference never issued before; other services keep theirs. */
  lemma ReferenceChanges(events: seq<Event>, e: Event, service: Identity)
    ensures var m, m' := Run(events).manager, Run(events + [e]).manager;
            var key := Key(service);
            && RefsIssued(m) && RefsIssued(m')
            && ReferenceRule(m, m', key)
            && (e.service != service ==>
                  (key in m.refs <==> key in m'.refs) && (key in m.refs ==> m.refs[key] == m'.refs[key]))
  {
    RefsIssuedAlways(events);
    RefsIssuedAlways(events + [e]);
    assert (events + [e])[..|events|] == events;
    if Key(e.service) == Key(service) { KeyInjective(e.service, service); }
    StepReference(Run(events), e, service);
  }

  ghost predicate ReferenceRule(m: Manager, m': Manager, key: string)
    requires m.refs.Keys == m.entries.Keys && m'.refs.Keys == m'.entries.Keys
  {
    && (key in m.refs && key in m'.refs ==>
          (m.refs[key] != m'.refs[key] <==>
            || Lost(m.entries[key].scoped, m'.entries[key].scoped)
            || m.entries[key].meta != m'.entries[key].meta))
    && (key !in m.refs && key in m'.refs ==> m'.refs[key] > m.generation)
  }

  lemma ReportFollowsRule(m: Manager, key: string, service: Identity, meta: Meta, addresses: seq<Addr>)
    requires RefsIssued(m)
    ensures var m' := Report(m, key, service, meta, addresses);
            m'.refs.Keys == m'.entries.Keys && ReferenceRule(m, m', key)
  {
  }

  lemma StepOnManager(s: State, e: Event) returns (addresses: seq<Addr>)
    ensures var m' := Step(s, e).manager;
            || m' == s.manager
            || m' == Withdraw(s.manager, Key(e.service))
            || m' == Report(s.manager, Key(e.service), e.service, e.meta, addresses)
  {
    var key := Key(e.service);
    var scopes := if key in s.observations then s.observations[key] else map[];
    var live := match e
      case Seen(scope, _, _, raw) => scopes[scope := ForZone(raw, scope.name)]
      case Expired(scope, _, _) => scopes - {scope}
      case Goodbye(_, _) => map[];
    addresses := Listing(Union(live));
  }

  lemma StepReference(s: State, e: Event, service: Identity)
    requires RefsIssued(s.manager) && RefsIssued(Step(s, e).manager)
    requires e.service != service ==> Key(e.service) != Key(service)
    ensures ReferenceRule(s.manager, Step(s, e).manager, Key(service))
    ensures var m, m', key := s.manager, Step(s, e).manager, Key(service);
            e.service != service ==>
              (key in m.refs <==> key in m'.refs) && (key in m.refs ==> m.refs[key] == m'.refs[key])
  {
    var addresses := StepOnManager(s, e);
    ManagerReference(s.manager, Step(s, e).manager, Key(e.service), e.service, e.meta, addresses, Key(service));
  }

  /** Nothing about one observation key has changed, neither entry nor reference. */
  ghost predicate Untouched(m: Manager, m': Manager, key: string) {
    && (key in m.entries <==> key in m'.entries) && (key in m.refs <==> key in m'.refs)
    && (key in m.entries ==> m.entries[key] == m'.entries[key]) && (key in m.refs ==> m.refs[key] == m'.refs[key])
  }

  lemma UntouchedRule(m: Manager, m': Manager, key: string)
    requires RefsIssued(m) && RefsIssued(m') && Untouched(m, m', key)
    ensures ReferenceRule(m, m', key)
  {
    if key in m.refs {
      assert !Lost(m.entries[key].scoped, m'.entries[key].scoped);
    }
  }

  lemma OtherKeyUntouched(m: Manager, m': Manager, k: string, service: Identity, meta: Meta, addresses: seq<Addr>, key: string)
    requires m' == m || m' == Withdraw(m, k) || m' == Report(m, k, service, meta, addresses)
    requires k != key || m' == m
    ensures Untouched(m, m', key)
  {
  }

  lemma WithdrawnRule(m: Manager, key: string)
    requires RefsIssued(m)
    ensures ReferenceRule(m, Withdraw(m, key), key)
  {
    if key !in m.entries {
      UntouchedRule(m, m, key);
    }
  }

  lemma ManagerReference(m: Manager, m': Manager, k: string, service: Identity, meta: Meta,
                         addresses: seq<Addr>, key: string)
    requires RefsIssued(m) && RefsIssued(m')
    requires m' == m || m' == Withdraw(m, k) || m' == Report(m, k, service, meta, addresses)
    ensures ReferenceRule(m, m', key)
    ensures k != key ==> (key in m.refs <==> key in m'.refs) && (key in m.refs ==> m.refs[key] == m'.refs[key])
  {
    if k != key || m' == m {
      OtherKeyUntouched(m, m', k, service, meta, addresses, key);
      UntouchedRule(m, m', key);
    } else if m' == Report(m, k, service, meta, addresses) {
      ReportFollowsRule(m, k, service, meta, addresses);
    } else {
      WithdrawnRule(m, key);
    }
  }

  // -------------------------------------------------------- references are new

  lemma NewRefIsNext(s: State, e: Event, key: string)
    requires RefsIssued(s.manager)
    requires key in Step(s, e).manager.refs
    requires !(key in s.manager.refs && s.manager.refs[key] == Step(s, e).manager.refs[key])
    ensures Step(s, e).manager.refs[key] == s.manager.generation + 1
  {
    var addresses := StepOnManager(s, e);
    ReportIssuesNext(s.manager, Key(e.service), e.service, e.meta, addresses, key);
  }

  lemma ReportIssuesNext(m: Manager, service: string, id: Identity, meta: Meta, addresses: seq<Addr>, key: string)
    requires RefsIssued(m)
    ensures var m' := Report(m, service, id, meta, addresses);
            key in m'.refs ==> (key in m.refs && m'.refs[key] == m.refs[key]) || m'.refs[key] == m.generation + 1
  {
  }

  lemma {:induction false} GenerationGrows(events: seq<Event>, n: nat)
    requires n <= |events|
    ensures Run(events[..n]).manager.generation <= Run(events).manager.generation
  {
    if n == |events| {
      assert events[..n] == events;
    } else {
      var front := events[..|events| - 1];
      GenerationGrows(front, n);
      assert front[..n] == events[..n];
      RefsIssuedAlways(front);
      StepKeepsRefsIssued(Run(front), events[|events| - 1]);
    }
  }

  /** A reference that a step gives to a service was never in use before: it exceeds
      every reference of every service in every earlier state of the history. */
  lemma ReferencesNeverReused(events: seq<Event>, e: Event, key: string, n: nat, other: string)
    requires var m, m' := Run(events).manager, Step(Run(events), e).manager;
             key in m'.refs && !(key in m.refs && m.refs[key] == m'.refs[key])
    requires n <= |events| && other in Run(events[..n]).manager.refs
    ensures Run(events[..n]).manager.refs[other] < Step(Run(events), e).manager.refs[key]
  {
    RefsIssuedAlways(events);
    RefsIssuedAlways(events[..n]);
    NewRefIsNext(Run(events), e, key);
    GenerationGrows(events, n);
  }

  // ---------------------------------------------------- the mutable objects

  /** `MdnsManager`, reduced to the observation state behind its mutex. */
  class MdnsManager {
    var entries: map<string, Entry>
    var candidateRefs: map<string, nat>
    var candidateGeneration: nat
    var observationRevision: nat

    ghost function View(): Manager
      reads this
    {
      Manager(entries, candidateRefs, candidateGeneration, observationRevision)
    }

    constructor ()
      ensures View() == INITIAL.manager
    {
      entries, candidateRefs, candidateGeneration, observationRevision := map[], map[], 0, 0;
    }

    method NextCandidateRef(key: string)
      modifies this
      ensures View() == old(View()).(generation := old(candidateGeneration) + 1,
                                     refs := old(candidateRefs)[key := old(candidateGeneration) + 1])
      ensures RefsIssued(old(View())) ==> forall other | other in old(candidateRefs) :: old(candidateRefs)[other] < candidateRefs[key]
    {
      candidateGeneration := candidateGeneration + 1;
      candidateRefs := candidateRefs[key := candidateGeneration];
    }

    /** `processScopedMdnsEntry` past its TXT validation. */
    method ProcessScopedMdnsEntry(service: Identity, meta: Meta, addresses: seq<Addr>, remove: bool)
      modifies this
      ensures View() == if remove then Withdraw(old(View()), Key(service))
                        else Report(old(View()), Key(service), service, meta, addresses)
    {
      var scoped, unscoped := NormalizeMdnsAddresses(addresses);
      var key := Key(service);
      var updated := false;
      if remove && key in entries {
        entries := entries - {key};
        candidateRefs := candidateRefs - {key};
        updated := true;
      } else if key in entries && !remove {
        var entry := entries[key];
        var lost := AddressSetLost(entry.scoped, scoped);
        var rotate := lost || entry.meta != meta;
        if entry.scoped != scoped || entry.unscopedLinkLocal != unscoped || entry.meta != meta {
          entries := entries[key := entry.(scoped := scoped, unscopedLinkLocal := unscoped, meta := meta)];
          if rotate {
            NextCandidateRef(key);
          }
          updated := true;
        }
      } else if key !in entries && !remove {
        entries := entries[key := Entry(service, scoped, unscoped, meta)];
        NextCandidateRef(key);
        updated := true;
      }
      if updated {
        observationRevision := observationRevision + 1;
      }
    }
  }

  method NormalizeMdnsAddresses(addresses: seq<Addr>) returns (scoped: seq<Addr>, unscoped: bool)
    ensures scoped == KeptAll(addresses)
    ensures unscoped <==> exists a | a in addresses :: UnscopedLinkLocal(a)
  {
    scoped, unscoped := [], false;
    for i := 0 to |addresses|
      invariant scoped == KeptAll(addresses[..i])
      invariant unscoped <==> exists a | a in addresses[..i] :: UnscopedLinkLocal(a)
    {
      var a := addresses[i];
      assert addresses[..i + 1][..i] == addresses[..i];
      assert addresses[..i + 1] == addresses[..i] + [a];
      if UnscopedLinkLocal(a) {
        unscoped := true;
      }
      match Kept(a)
      case None =>
      case Some(address) =>
        if address !in scoped {
          scoped := scoped + [address];
        }
    }
    assert addresses[..|addresses|] == addresses;
  }

  method AddressSetLost(previous: seq<Addr>, current: seq<Addr>) returns (lost: bool)
    ensures lost == Lost(previous, current)
  {
    for i := 0 to |previous|
      invariant forall j | 0 <= j < i :: previous[j] in current
    {
      if previous[i] !in current {
        return true;
      }
    }
    return false;
  }

  /** `ZeroconfProvider`, reduced to its per-interface observations. */
  class ZeroconfProvider {
    var serviceObservations: map<string, Scopes>
    const manager: MdnsManager

    ghost function View(): State
      reads this, manager
    {
      State(serviceObservations, manager.View())
    }

    constructor (m: MdnsManager)
      requires m.View() == INITIAL.manager
      ensures View() == INITIAL && manager == m
    {
      serviceObservations, manager := map[], m;
    }

    /** `scopedServiceAddressesForZone`. */
    static method ServiceAddressesForZone(raw: seq<RawIP>, zone: string) returns (addresses: seq<Addr>)
      ensures addresses == ForZone(raw, zone)
    {
      addresses := [];
      for i := 0 to |raw|
        invariant addresses + ForZone(raw[i..], zone) == ForZone(raw, zone)
      {
        if !raw[i].Malformed? {
          addresses := addresses + [Zoned(raw[i], zone)];
        }
      }
    }

    /** `aggregateScopedServiceAddresses`: the map is iterated in any order. */
    static method Aggregate(observations: Scopes) returns (addresses: seq<Addr>)
      ensures addresses == Listing(Union(observations))
    {
      addresses := [];
      var pending := observations;
      while pending != map[]
        invariant pending.Keys <= observations.Keys
        invariant forall sc | sc in pending :: pending[sc] == observations[sc]
        invariant Elements(addresses) + Union(pending) == Union(observations)
        decreases |pending|
      {
        var scope :| scope in pending;
        var scoped := pending[scope];
        ghost var rest := Union(pending - {scope});
        UnionSplit(pending, scope);
        for i := 0 to |scoped|
          invariant Elements(addresses) + Elements(scoped[i..]) + rest == Union(observations)
        {
          assert scoped[i..] == [scoped[i]] + scoped[i + 1..];
          ElementsConcat([scoped[i]], scoped[i + 1..]);
          if scoped[i] !in addresses {
            ElementsConcat(addresses, [scoped[i]]);
            addresses := addresses + [scoped[i]];
          }
        }
        assert pending.Keys - {scope} < pending.Keys;
        pending := pending - {scope};
      }
      addresses := Sort(addresses);
      AscendingUnique(addresses, Listing(Union(observations)));
    }

    method ProcessScopedServiceForInterface(e: Event)
      requires forall k | k in serviceObservations :: serviceObservations[k] != map[]
      modifies this`serviceObservations, manager
      ensures View() == Step(old(View()), e)
      ensures forall k | k in serviceObservations :: serviceObservations[k] != map[]
    {
      var key := Key(e.service);
      var observations := if key in serviceObservations then serviceObservations[key] else map[];
      if e.Goodbye? {
        if observations == map[] {
          return;
        }
        serviceObservations := serviceObservations - {key};
        manager.ProcessScopedMdnsEntry(e.service, e.meta, [], true);
        return;
      }
      if e.Expired? {
        if e.scope !in observations {
          return;
        }
        observations := observations - {e.scope};
        if observations == map[] {
          serviceObservations := serviceObservations - {key};
          manager.ProcessScopedMdnsEntry(e.service, e.meta, [], true);
          return;
        }
      } else {
        var scoped := ServiceAddressesForZone(e.raw, e.scope.name);
        observations := observations[e.scope := scoped];
        assert e.scope in observations;
      }
      serviceObservations := serviceObservations[key := observations];
      var addresses := Aggregate(observations);
      manager.ProcessScopedMdnsEntry(e.service, e.meta, addresses, false);
    }
  }
}
