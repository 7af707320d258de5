/**
 Endpoint addresses as the hub and the discovery layer see them: a model of
 `netip.Addr`, its total order, and the normalisation and ordering that freeze
 one dial endpoint per observation.
 */
module Addresses {
  import opened Basics

  type Bits32 = n: nat | n < 0x1_0000_0000
  type Bits128 = n: nat | n < 0x1_0000_0000_0000_0000_0000_0000_0000_0000

  /** `Invalid` is the zero `netip.Addr`, which is also what a byte slice of the
      wrong length converts to. */
  datatype Addr = Invalid | V4(bits: Bits32) | V6(wide: Bits128, zone: string) {

    predicate Is4In6() {
      V6? && wide / 0x1_0000_0000 == 0xffff
    }

    function Unmap(): Addr {
      if Is4In6() then V4(wide % 0x1_0000_0000) else this
    }

    /** The zero address. A zoned `::` is a different value and is not unspecified. */
    predicate IsUnspecified() {
      this == V4(0) || this == V6(0, "")
    }

    /** 224.0.0.0/4 and ff00::/8. */
    predicate IsMulticast() {
      || (V4? && bits / 0x1000_0000 == 0xe)
      || (V6? && wide / 0x1_0000_0000_0000_0000_0000_0000_0000_00 == 0xff)
      || (Is4In6() && (wide % 0x1_0000_0000) / 0x1000_0000 == 0xe)
    }

    /** fe80::/10: the top ten bits are 1111111010. */
    predicate IsLinkLocal6() {
      V6? && wide / 0x40_0000_0000_0000_0000_0000_0000_0000 == 0x3fa
    }
  }

  // ---------------------------------------------------------------- order

  predicate TextLess(a: string, b: string) {
    if |b| == 0 then false
    else if |a| == 0 then true
    else a[0] < b[0] || (a[0] == b[0] && TextLess(a[1..], b[1..]))
  }

  lemma {:induction false} TextLessTotal(a: string, b: string)
    ensures a == b || TextLess(a, b) || TextLess(b, a)
    ensures !(TextLess(a, b) && TextLess(b, a))
    decreases |a|
  {
    if |a| > 0 && |b| > 0 {
      TextLessTotal(a[1..], b[1..]);
      if a[0] == b[0] && a[1..] == b[1..] {
        assert a == [a[0]] + a[1..];
        assert b == [b[0]] + b[1..];
      }
    }
  }

  lemma {:induction false} TextLessTransitive(a: string, b: string, c: string)
    requires TextLess(a, b) && TextLess(b, c)
    ensures TextLess(a, c)
    decreases |a|
  {
    if |a| > 0 && a[0] == b[0] && b[0] == c[0] {
      TextLessTransitive(a[1..], b[1..], c[1..]);
    }
  }

  /** `netip.Addr.Compare`: bit length first, then value, then zone. */
  predicate Less(a: Addr, b: Addr) {
    match (a, b)
    case (_, Invalid) => false
    case (Invalid, _) => true
    case (V4(x), V4(y)) => x < y
    case (V4(_), V6(_, _)) => true
    case (V6(_, _), V4(_)) => false
    case (V6(x, p), V6(y, q)) => x < y || (x == y && TextLess(p, q))
  }

  lemma LessTotal(a: Addr, b: Addr)
    ensures a == b || Less(a, b) || Less(b, a)
    ensures !(Less(a, b) && Less(b, a))
    ensures !Less(a, a)
  {
    if a.V6? && b.V6? { TextLessTotal(a.zone, b.zone); }
    if a.V6? { TextLessTotal(a.zone, a.zone); }
  }

  lemma LessTransitive(a: Addr, b: Addr, c: Addr)
    requires Less(a, b) && Less(b, c)
    ensures Less(a, c)
  {
    if a.V6? && b.V6? && c.V6? && a.wide == b.wide && b.wide == c.wide {
      TextLessTransitive(a.zone, b.zone, c.zone);
    }
  }

  // ------------------------------------------- ascending, duplicate-free lists

  ghost predicate Ascending(s: seq<Addr>) {
    forall i, j :: 0 <= i < j < |s| ==> Less(s[i], s[j])
  }

  function Elements(s: seq<Addr>): set<Addr> {
    set a | a in s
  }

  lemma NoElements(s: seq<Addr>)
    ensures Elements(s) == {} <==> s == []
  {
    if s != [] { assert s[0] in Elements(s); }
  }

  lemma ElementsConcat(s: seq<Addr>, t: seq<Addr>)
    ensures Elements(s + t) == Elements(s) + Elements(t)
  {
  }

  /** Insert at the ordered position; an address already present is dropped. */
  function Insert(a: Addr, s: seq<Addr>): (r: seq<Addr>)
    ensures Elements(r) == Elements(s) + {a}
  {
    if s == [] || Less(a, s[0]) then [a] + s
    else if a == s[0] then s
    else
      var rest := Insert(a, s[1..]);
      assert s == [s[0]] + s[1..];
      ElementsConcat([s[0]], s[1..]);
      ElementsConcat([s[0]], rest);
      [s[0]] + rest
  }

  lemma {:induction false} InsertAscending(a: Addr, s: seq<Addr>)
    requires Ascending(s)
    ensures Ascending(Insert(a, s))
  {
    if s == [] {
    } else if Less(a, s[0]) {
      forall j | 0 < j < |s| ensures Less(a, s[j]) { LessTransitive(a, s[0], s[j]); }
    } else if a != s[0] {
      LessTotal(a, s[0]);
      InsertAscending(a, s[1..]);
      var r := Insert(a, s[1..]);
      forall j | 0 <= j < |r| ensures Less(s[0], r[j]) {
        assert r[j] in Elements(r);
        assert r[j] in Elements(s[1..]) + {a};
      }
    }
  }

  /** An ascending list is determined by the set it lists: no other order of
      discovery can produce a different sequence. */
  lemma {:induction false} AscendingUnique(s: seq<Addr>, t: seq<Addr>)
    requires Ascending(s) && Ascending(t) && Elements(s) == Elements(t)
    ensures s == t
  {
    if s == [] || t == [] {
      NoElements(s);
      NoElements(t);
    } else {
      assert s[0] in Elements(t) && t[0] in Elements(s);
      var i :| 0 <= i < |t| && t[i] == s[0];
      var j :| 0 <= j < |s| && s[j] == t[0];
      LessTotal(s[0], t[0]);
      assert s[0] == t[0];
      TailElements(s);
      TailElements(t);
      AscendingUnique(s[1..], t[1..]);
      assert s == [s[0]] + s[1..] && t == [t[0]] + t[1..];
    }
  }

  lemma TailElements(s: seq<Addr>)
    requires s != [] && Ascending(s)
    ensures Elements(s[1..]) == Elements(s) - {s[0]}
  {
    LessTotal(s[0], s[0]);
    forall a | a in Elements(s) - {s[0]} ensures a in Elements(s[1..]) {
      var i :| 0 <= i < |s| && s[i] == a;
      assert s[1..][i - 1] == a;
    }
  }

  // -------------------------------------------------------- normalisation

  /** `normalizeConnectionAddress`: no unspecified or multicast target, no
      unscoped IPv6 link-local target, and no zone on anything else. */
  function Normalize(a: Addr): (r: Option<Addr>)
    ensures r.Some? ==> !r.value.Invalid? && !r.value.IsMulticast() && !r.value.Is4In6()
    ensures r.Some? && r.value.V6? ==> (r.value.zone != "" <==> r.value.IsLinkLocal6())
  {
    if a.Invalid? then None
    else
      var u := a.Unmap();
      if u.IsUnspecified() || u.IsMulticast() then None
      else if u.IsLinkLocal6() then (if u.zone == "" then None else Some(u))
      else if u.V6? then Some(V6(u.wide, ""))
      else Some(u)
  }

  /** Normalising twice equals normalising once for every address except a zoned
      `::`, whose zone hides it from the unspecified test and is then removed. */
  lemma NormalizeIdempotent(a: Addr)
    requires Normalize(a).Some?
    ensures Normalize(Normalize(a).value) == Normalize(a) <==> !(a.V6? && a.wide == 0)
  {
  }

  lemma ZonedUnspecifiedSlipsThrough()
    ensures Normalize(V6(0, "eth0")) == Some(V6(0, ""))
    ensures Normalize(V6(0, "")) == None
  {
  }

  /** Every address one observation offers for dialling, as a set. */
  function Dialable(inputs: seq<Addr>): set<Addr> {
    set a | a in inputs && Normalize(a).Some? :: Normalize(a).value
  }

  /** The value `orderedConnectionAddresses` returns. */
  function Ordered(inputs: seq<Addr>): (r: seq<Addr>)
    ensures Elements(r) == Dialable(inputs)
  {
    if inputs == [] then []
    else
      var last := inputs[|inputs| - 1];
      var rest := inputs[..|inputs| - 1];
      assert inputs == rest + [last];
      match Normalize(last)
      case None => Ordered(rest)
      case Some(a) => Insert(a, Ordered(rest))
  }

  lemma {:induction false} OrderedAscending(inputs: seq<Addr>)
    ensures Ascending(Ordered(inputs))
  {
    if inputs != [] {
      var rest := inputs[..|inputs| - 1];
      OrderedAscending(rest);
      if Normalize(inputs[|inputs| - 1]).Some? {
        InsertAscending(Normalize(inputs[|inputs| - 1]).value, Ordered(rest));
      }
    }
  }

  /** The frozen endpoint does not depend on the order, the multiplicity, or the
      scoped/legacy split in which an observation's addresses were discovered. */
  lemma OrderIndependent(s: seq<Addr>, t: seq<Addr>)
    requires Elements(s) == Elements(t)
    ensures Ordered(s) == Ordered(t)
  {
    forall a ensures a in s <==> a in t {
      assert a in s <==> a in Elements(s);
    }
    assert Dialable(s) == Dialable(t);
    OrderedAscending(s);
    OrderedAscending(t);
    AscendingUnique(Ordered(s), Ordered(t));
  }

  /** IPv4 targets precede IPv6 targets. */
  lemma FamiliesInOrder(inputs: seq<Addr>, i: nat, j: nat)
    requires i < j < |Ordered(inputs)|
    requires Ordered(inputs)[j].V4?
    ensures Ordered(inputs)[i].V4?
  {
    OrderedAscending(inputs);
    assert Less(Ordered(inputs)[i], Ordered(inputs)[j]);
    assert Ordered(inputs)[i] in Elements(Ordered(inputs));
  }

  // ------------------------------------------------------ the two-pass loop

  /** `sort.Slice` with `Compare` as the order. */
  method Sort(s: seq<Addr>) returns (r: seq<Addr>)
    ensures Ascending(r) && Elements(r) == Elements(s)
  {
    r := [];
    for i := 0 to |s|
      invariant Ascending(r) && Elements(r) == Elements(s[..i])
    {
      InsertAscending(s[i], r);
      r := Insert(s[i], r);
      assert s[..i + 1] == s[..i] + [s[i]];
    }
    assert s[..|s|] == s;
  }

  /** `orderedConnectionAddresses`: both inputs are normalised into two family
      lists guarded by one `seen` set, each family is sorted, and the IPv6 list
      is appended to the IPv4 list. */
  method OrderedConnectionAddresses(scoped: seq<Addr>, legacy: seq<Addr>) returns (r: seq<Addr>)
    ensures r == Ordered(scoped + legacy)
    ensures Ascending(r) && Elements(r) == Dialable(scoped + legacy)
  {
    var inputs := scoped + legacy;
    var ipv4, ipv6, seen := [], [], {};
    for i := 0 to |inputs|
      invariant seen == Dialable(inputs[..i])
      invariant Elements(ipv4) == set a | a in seen && a.V4?
      invariant Elements(ipv6) == set a | a in seen && !a.V4?
    {
      assert inputs[..i + 1] == inputs[..i] + [inputs[i]];
      match Normalize(inputs[i])
      case None =>
      case Some(address) =>
        if address !in seen {
          seen := seen + {address};
          if address.V4? {
            ElementsConcat(ipv4, [address]);
            ipv4 := ipv4 + [address];
          } else {
            ElementsConcat(ipv6, [address]);
            ipv6 := ipv6 + [address];
          }
        }
    }
    assert inputs[..|inputs|] == inputs;
    ipv4 := Sort(ipv4);
    ipv6 := Sort(ipv6);
    r := ipv4 + ipv6;
    forall i, j | 0 <= i < j < |r| ensures Less(r[i], r[j]) {
      if i < |ipv4| && j >= |ipv4| {
        assert ipv4[i] in Elements(ipv4);
        assert ipv6[j - |ipv4|] in Elements(ipv6);
      }
    }
    assert Elements(r) == Elements(ipv4) + Elements(ipv6);
    OrderedAscending(inputs);
    AscendingUnique(r, Ordered(inputs));
  }
}
