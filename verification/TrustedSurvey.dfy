/**
 The trusted-remote observations of a snapshot are collected while ranging over a map,
 in whatever order that happens to give. The order decides for a SKI with one usable
 entry beside unusable ones, and for no other.
 */
module TrustedSurvey {
  import opened Basics
  import opened PairingRegistry

  predicate About(e: Remote, ski: Ski) {
    0 < e.port <= 65535 && e.validSki && e.ski == ski
  }

  predicate Usable(e: Remote, ski: Ski) {
    About(e, ski) && e.host.Some?
  }

  function Mentions(remotes: seq<Remote>, ski: Ski): nat {
    if remotes == [] then 0
    else Mentions(remotes[..|remotes| - 1], ski) + if About(remotes[|remotes| - 1], ski) then 1 else 0
  }

  function Uses(remotes: seq<Remote>, ski: Ski): nat {
    if remotes == [] then 0
    else Uses(remotes[..|remotes| - 1], ski) + if Usable(remotes[|remotes| - 1], ski) then 1 else 0
  }

  /** The last entry about the SKI is a usable one. */
  predicate LastUsable(remotes: seq<Remote>, ski: Ski) {
    remotes != [] &&
    var e := remotes[|remotes| - 1];
    if About(e, ski) then e.host.Some? else LastUsable(remotes[..|remotes| - 1], ski)
  }

  function Observed(e: Remote, revision: nat, admission: nat): TrustedObservation
    requires e.host.Some?
  {
    TrustedObservation(revision, admission, e.host.value, e.port, e.path)
  }

  ghost predicate ObservedFrom(remotes: seq<Remote>, ski: Ski, o: TrustedObservation) {
    exists e | e in remotes && Usable(e, ski) :: o == Observed(e, o.revision, o.admission)
  }

  /** A SKI is observed exactly if its only usable entry comes after all its others, and
      ambiguous exactly if it has a usable entry but is not observed. */
  lemma {:induction false} FoundIff(remotes: seq<Remote>, ski: Ski, revision: nat, admission: nat)
    ensures var s := SurveyOf(remotes, revision, admission);
            && (ski in s.found <==> Uses(remotes, ski) == 1 && LastUsable(remotes, ski))
            && (ski in s.ambiguous <==> Uses(remotes, ski) >= 1 && ski !in s.found)
            && (ski in s.found ==>
                  s.found[ski].revision == revision && s.found[ski].admission == admission && ObservedFrom(remotes, ski, s.found[ski]))
  {
    if remotes != [] {
      var front, e := remotes[..|remotes| - 1], remotes[|remotes| - 1];
      FoundIff(front, ski, revision, admission);
      var s := SurveyOf(remotes, revision, admission);
      if ski in s.found && About(e, ski) {
        assert e in remotes && s.found[ski] == Observed(e, revision, admission);
      } else if ski in s.found {
        var o := s.found[ski];
        var d :| d in front && Usable(d, ski) && o == Observed(d, o.revision, o.admission);
        assert d in remotes;
      }
    }
  }

  // ------------------------------------------------------- counting and order

  lemma {:induction false} CountsConcat(a: seq<Remote>, b: seq<Remote>, ski: Ski)
    ensures Uses(a + b, ski) == Uses(a, ski) + Uses(b, ski) && Mentions(a + b, ski) == Mentions(a, ski) + Mentions(b, ski)
  {
    if b == [] {
      assert a + b == a;
    } else {
      CountsConcat(a, b[..|b| - 1], ski);
      assert (a + b)[..|a + b| - 1] == a + b[..|b| - 1];
    }
  }

  function Without(a: seq<Remote>, i: nat): seq<Remote>
    requires i < |a|
  {
    a[..i] + a[i + 1..]
  }

  lemma ElementsWithout(a: seq<Remote>, i: nat)
    requires i < |a|
    ensures multiset(a) == multiset(Without(a, i)) + multiset{a[i]}
  {
    assert a == a[..i] + [a[i]] + a[i + 1..];
  }

  lemma SameWithout(a: seq<Remote>, i: nat, b: seq<Remote>, j: nat)
    requires i < |a| && j < |b| && a[i] == b[j] && multiset(a) == multiset(b)
    ensures multiset(Without(a, i)) == multiset(Without(b, j))
  {
    ElementsWithout(a, i);
    ElementsWithout(b, j);
    assert multiset(Without(a, i)) == multiset(a) - multiset{a[i]};
    assert multiset(Without(b, j)) == multiset(b) - multiset{b[j]};
  }

  lemma CountsWithout(a: seq<Remote>, i: nat, ski: Ski)
    requires i < |a|
    ensures Uses(a, ski) == Uses(Without(a, i), ski) + Uses([a[i]], ski)
    ensures Mentions(a, ski) == Mentions(Without(a, i), ski) + Mentions([a[i]], ski)
  {
    CountsConcat(a[..i] + [a[i]], a[i + 1..], ski);
    CountsConcat(a[..i], [a[i]], ski);
    CountsConcat(a[..i], a[i + 1..], ski);
    assert a == a[..i] + [a[i]] + a[i + 1..];
  }

  lemma {:induction false} CountsOrderFree(a: seq<Remote>, b: seq<Remote>, ski: Ski)
    requires multiset(a) == multiset(b)
    ensures Uses(a, ski) == Uses(b, ski) && Mentions(a, ski) == Mentions(b, ski)
  {
    assert |a| == |multiset(a)| == |b|;
    if a != [] {
      var e := a[|a| - 1];
      assert e in multiset(b);
      var i :| 0 <= i < |b| && b[i] == e;
      CountsWithout(a, |a| - 1, ski);
      CountsWithout(b, i, ski);
      SameWithout(a, |a| - 1, b, i);
      CountsOrderFree(Without(a, |a| - 1), Without(b, i), ski);
    }
  }

  lemma {:induction false} UserCounts(a: seq<Remote>, ski: Ski, e: Remote)
    requires e in a && Usable(e, ski)
    ensures Uses(a, ski) >= 1
  {
    var i :| 0 <= i < |a| && a[i] == e;
    CountsWithout(a, i, ski);
    assert [e][..0] == [];
  }

  /** With one usable entry there is only one that can be observed. */
  lemma SoleUser(a: seq<Remote>, ski: Ski, d: Remote, e: Remote)
    requires Uses(a, ski) == 1 && d in a && e in a && Usable(d, ski) && Usable(e, ski)
    ensures d == e
  {
    var i :| 0 <= i < |a| && a[i] == d;
    CountsWithout(a, i, ski);
    assert [d][..0] == [];
    if d != e {
      ElementsWithout(a, i);
      assert e in multiset(a) && e in multiset(Without(a, i));
      UserCounts(Without(a, i), ski, e);
    }
  }

  lemma {:induction false} SoleMention(a: seq<Remote>, ski: Ski)
    requires Uses(a, ski) == Mentions(a, ski)
    ensures Uses(a, ski) > 0 <==> LastUsable(a, ski)
  {
    if a != [] {
      UsesAreMentions(a[..|a| - 1], ski);
      SoleMention(a[..|a| - 1], ski);
    }
  }

  lemma {:induction false} UsesAreMentions(a: seq<Remote>, ski: Ski)
    ensures Uses(a, ski) <= Mentions(a, ski)
    ensures LastUsable(a, ski) ==> Uses(a, ski) > 0
  {
    if a != [] {
      UsesAreMentions(a[..|a| - 1], ski);
    }
  }

  // --------------------------------------------------------- what order decides

  /** One usable entry, and unusable ones beside it. */
  predicate Mixed(remotes: seq<Remote>, ski: Ski) {
    Uses(remotes, ski) == 1 && Mentions(remotes, ski) > 1
  }

  /** Both orders observe the SKI, and alike, or neither does. */
  ghost predicate SameObservation(a: seq<Remote>, b: seq<Remote>, ski: Ski, revision: nat, admission: nat) {
    var x, y := SurveyOf(a, revision, admission).found, SurveyOf(b, revision, admission).found;
    (ski in x <==> ski in y) && (ski in x && ski in y ==> x[ski] == y[ski])
  }

  lemma UnmixedAgree(a: seq<Remote>, b: seq<Remote>, ski: Ski, revision: nat, admission: nat)
    requires multiset(a) == multiset(b) && !Mixed(a, ski)
    ensures SameObservation(a, b, ski, revision, admission)
  {
    FoundIff(a, ski, revision, admission);
    FoundIff(b, ski, revision, admission);
    CountsOrderFree(a, b, ski);
    UsesAreMentions(a, ski);
    if Uses(a, ski) == 1 {
      SoleMention(a, ski);
      SoleMention(b, ski);
      var x, y := SurveyOf(a, revision, admission).found[ski], SurveyOf(b, revision, admission).found[ski];
      var d :| d in a && Usable(d, ski) && x == Observed(d, x.revision, x.admission);
      var e :| e in b && Usable(e, ski) && y == Observed(e, y.revision, y.admission);
      assert e in multiset(a);
      SoleUser(a, ski, d, e);
    }
  }

  lemma {:induction false} UserExists(a: seq<Remote>, ski: Ski) returns (i: nat)
    requires Uses(a, ski) > 0
    ensures i < |a| && Usable(a[i], ski)
  {
    i := |a| - 1;
    if !Usable(a[i], ski) {
      i := UserExists(a[..|a| - 1], ski);
    }
  }

  lemma {:induction false} LastBehind(e: Remote, rest: seq<Remote>, ski: Ski)
    requires Mentions(rest, ski) > 0
    ensures LastUsable([e] + rest, ski) == LastUsable(rest, ski)
  {
    var all, last := [e] + rest, rest[|rest| - 1];
    assert all[|all| - 1] == last && all[..|all| - 1] == [e] + rest[..|rest| - 1];
    if !About(last, ski) {
      LastBehind(e, rest[..|rest| - 1], ski);
    }
  }

  /** The usable entry moved to the other end. */
  lemma MixedDisagree(a: seq<Remote>, ski: Ski, revision: nat, admission: nat) returns (b: seq<Remote>)
    requires Mixed(a, ski)
    ensures multiset(b) == multiset(a)
    ensures ski in SurveyOf(b, revision, admission).found <==> ski !in SurveyOf(a, revision, admission).found
  {
    var i := UserExists(a, ski);
    var e, rest := a[i], Without(a, i);
    CountsWithout(a, i, ski);
    ElementsWithout(a, i);
    assert [e][..0] == [];
    if LastUsable(a, ski) {
      b := [e] + rest;
      LastBehind(e, rest, ski);
      UsesAreMentions(rest, ski);
    } else {
      b := rest + [e];
      assert b[|b| - 1] == e;
    }
    CountsOrderFree(a, b, ski);
    FoundIff(a, ski, revision, admission);
    FoundIff(b, ski, revision, admission);
  }

  /** What is observed of a SKI is the same in every order of the entries if and only if
      it does not have exactly one usable entry beside unusable ones. */
  lemma OrderFreeIff(a: seq<Remote>, ski: Ski, revision: nat, admission: nat)
    ensures (forall b | multiset(b) == multiset(a) :: SameObservation(a, b, ski, revision, admission)) <==> !Mixed(a, ski)
  {
    if Mixed(a, ski) {
      var b := MixedDisagree(a, ski, revision, admission);
      assert multiset(b) == multiset(a) && !SameObservation(a, b, ski, revision, admission);
    } else {
      forall b | multiset(b) == multiset(a) ensures SameObservation(a, b, ski, revision, admission) {
        UnmixedAgree(a, b, ski, revision, admission);
      }
    }
  }

  const GOOD := Remote("peer", true, 4711, Some("192.0.2.1"), "/ship/")
  const HOSTLESS := GOOD.(host := None)

  /** The same two entries, and the remote is observed in one order only. */
  lemma HostlessTwin(revision: nat, admission: nat)
    ensures "peer" in SurveyOf([HOSTLESS, GOOD], revision, admission).found
    ensures "peer" !in SurveyOf([GOOD, HOSTLESS], revision, admission).found
  {
    assert [HOSTLESS, GOOD][..1] == [HOSTLESS] && [GOOD, HOSTLESS][..1] == [GOOD];
    assert [HOSTLESS][..0] == [] && [GOOD][..0] == [];
    assert SurveyOf([HOSTLESS], revision, admission) == Survey(map[], {});
    assert SurveyOf([GOOD], revision, admission).found.Keys == {"peer"};
  }
}
