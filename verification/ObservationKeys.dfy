/**
 The length-prefixed key under which one service observation is filed, and the
 proof that two different services never share a key.
 */
module ObservationKeys {

  /** What identifies one announced service. */
  datatype Identity = Identity(name: string, host: string, port: int, ski: string, id: string, path: string) {
    function Fields(): seq<string> {
      [name, host, Itoa(port), ski, id, path]
    }
  }

  function Digit(d: nat): char
    requires d < 10
  {
    ['0', '1', '2', '3', '4', '5', '6', '7', '8', '9'][d]
  }

  function Decimal(n: nat): (r: string)
    ensures r != [] && ':' !in r && '-' !in r
  {
    if n < 10 then [Digit(n)] else Decimal(n / 10) + [Digit(n % 10)]
  }

  lemma {:induction false} DecimalInjective(m: nat, n: nat)
    requires Decimal(m) == Decimal(n)
    ensures m == n
  {
    var s, t := Decimal(m), Decimal(n);
    assert s[|s| - 1] == Digit(m % 10) && t[|t| - 1] == Digit(n % 10);
    if m >= 10 && n >= 10 {
      assert s[..|s| - 1] == Decimal(m / 10) && t[..|t| - 1] == Decimal(n / 10);
      DecimalInjective(m / 10, n / 10);
    }
  }

  function Itoa(n: int): string {
    if n < 0 then "-" + Decimal(-n) else Decimal(n)
  }

  lemma ItoaInjective(m: int, n: int)
    requires Itoa(m) == Itoa(n)
    ensures m == n
  {
    assert '-' in Itoa(m) <==> m < 0;
    if m < 0 && n < 0 {
      assert Itoa(m)[1..] == Decimal(-m) && Itoa(n)[1..] == Decimal(-n);
      DecimalInjective(-m, -n);
    } else if m >= 0 && n >= 0 {
      DecimalInjective(m, n);
    }
  }

  /** One field: its length in decimal, a colon, then the raw value. */
  function Prefixed(value: string): string {
    Decimal(|value|) + ":" + value
  }

  function Join(fields: seq<string>): string {
    if fields == [] then "" else Prefixed(fields[0]) + Join(fields[1..])
  }

  /** `mdnsObservationKey`. */
  function Key(service: Identity): string {
    Join(service.Fields())
  }

  /** A text that starts with a colon-free word and a colon splits in one way. */
  lemma SplitAtColon(a: string, x: string, b: string, y: string)
    requires ':' !in a && ':' !in b
    requires a + ":" + x == b + ":" + y
    ensures a == b && x == y
  {
    var s, t := a + ":" + x, b + ":" + y;
    assert s[|a|] == ':' && t[|b|] == ':';
    assert forall i | 0 <= i < |a| :: s[i] == a[i] && s[i] != ':';
    assert forall i | 0 <= i < |b| :: t[i] == b[i] && t[i] != ':';
    assert |a| == |b|;
    assert s[..|a|] == a && t[..|b|] == b;
    assert s[|a| + 1..] == x && t[|b| + 1..] == y;
  }

  lemma {:induction false} JoinInjective(f: seq<string>, g: seq<string>)
    requires |f| == |g| && Join(f) == Join(g)
    ensures f == g
  {
    if f != [] {
      var restF, restG := Join(f[1..]), Join(g[1..]);
      var (m, n) := (|f[0]|, |g[0]|);
      assert Join(f) == Decimal(m) + ":" + (f[0] + restF);
      assert Join(g) == Decimal(n) + ":" + (g[0] + restG);
      SplitAtColon(Decimal(m), f[0] + restF, Decimal(n), g[0] + restG);
      DecimalInjective(m, n);
      assert (f[0] + restF)[..m] == f[0] && (g[0] + restG)[..n] == g[0];
      assert (f[0] + restF)[m..] == restF && (g[0] + restG)[n..] == restG;
      JoinInjective(f[1..], g[1..]);
      assert f == [f[0]] + f[1..] && g == [g[0]] + g[1..];
    }
  }

  /** Different services never share a key, whatever separators, digits or
      colons their names, hosts and TXT values contain. */
  lemma KeyInjective(s: Identity, t: Identity)
    requires Key(s) == Key(t)
    ensures s == t
  {
    JoinInjective(s.Fields(), t.Fields());
    var f, g := s.Fields(), t.Fields();
    assert f[0] == g[0] && f[1] == g[1] && f[2] == g[2] && f[3] == g[3] && f[4] == g[4] && f[5] == g[5];
    ItoaInjective(s.port, t.port);
  }
}
