/** The textual keys of UDP flows: decimal ports, `net.JoinHostPort`, and the NAT key
    `client|host:port` of internal/socks/udp.go, with the proof that a key names one
    client and one target. */
module NatKey {

  function Digit(d: nat): char
    requires d < 10
  {
    '0' + d as char
  }

  // strconv.Itoa on a port
  function Itoa(n: nat): string {
    if n < 10 then [Digit(n)] else Itoa(n / 10) + [Digit(n % 10)]
  }

  function Atoi(s: string): int {
    if s == [] then 0 else 10 * Atoi(s[..|s| - 1]) + (s[|s| - 1] as int - '0' as int)
  }

  predicate AllDigits(s: string) {
    forall i :: 0 <= i < |s| ==> '0' <= s[i] <= '9'
  }

  lemma {:induction false} ItoaInverse(n: nat)
    ensures Atoi(Itoa(n)) == n
    ensures AllDigits(Itoa(n)) && Itoa(n) != []
  {
    if n >= 10 {
      ItoaInverse(n / 10);
      assert Itoa(n)[..|Itoa(n)| - 1] == Itoa(n / 10);
    } else {
      assert Itoa(n)[..0] == [];
    }
  }

  function JoinHostPort(host: string, port: string): string {
    if ':' in host then "[" + host + "]:" + port else host + ":" + port
  }

  function Address(host: string, port: nat): string {
    JoinHostPort(host, Itoa(port))
  }

  function Key(client: string, target: string): string {
    client + "|" + target
  }

  // Two splittings of one text at a separator that neither left part contains agree.
  lemma SplitFirst(a: string, b: string, x: string, y: string, sep: char)
    requires a + [sep] + x == b + [sep] + y
    requires sep !in a && sep !in b
    ensures a == b && x == y
  {
    var s := a + [sep] + x;
    var r := b + [sep] + y;
    assert s[|a|] == sep && r[|b|] == sep;
    assert forall i | 0 <= i < |a| :: s[i] == a[i];
    assert forall i | 0 <= i < |b| :: r[i] == b[i];
    assert |a| == |b|;
    assert s[..|a|] == a && r[..|b|] == b;
    assert s[|a| + 1..] == x && r[|b| + 1..] == y;
  }

  lemma SplitLast(a: string, b: string, x: string, y: string, sep: char)
    requires a + [sep] + x == b + [sep] + y
    requires sep !in x && sep !in y
    ensures a == b && x == y
  {
    var s := a + [sep] + x;
    var r := b + [sep] + y;
    assert s[|a|] == sep && r[|b|] == sep;
    assert forall i | |a| < i < |s| :: s[i] == x[i - |a| - 1];
    assert forall i | |b| < i < |r| :: r[i] == y[i - |b| - 1];
    assert |a| == |b|;
    assert s[..|a|] == a && r[..|b|] == b;
    assert s[|a| + 1..] == x && r[|b| + 1..] == y;
  }

  /** A dial address determines host text and port, IPv6 brackets included. */
  lemma AddressInjective(h1: string, p1: nat, h2: string, p2: nat)
    requires Address(h1, p1) == Address(h2, p2)
    ensures h1 == h2 && p1 == p2
  {
    ItoaInverse(p1);
    ItoaInverse(p2);
    var a := if ':' in h1 then "[" + h1 + "]" else h1;
    var b := if ':' in h2 then "[" + h2 + "]" else h2;
    assert Address(h1, p1) == a + [':'] + Itoa(p1);
    assert Address(h2, p2) == b + [':'] + Itoa(p2);
    SplitLast(a, b, Itoa(p1), Itoa(p2), ':');
    assert (':' in h1) == (':' in a);
    assert (':' in h2) == (':' in b);
    if ':' in h1 {
      assert a[1..|a| - 1] == h1 && b[1..|b| - 1] == h2;
    }
  }

  /** A key determines client, host text and port when neither client text holds `|`. */
  lemma KeyInjective(c1: string, h1: string, p1: nat, c2: string, h2: string, p2: nat)
    requires '|' !in c1 && '|' !in c2
    requires Key(c1, Address(h1, p1)) == Key(c2, Address(h2, p2))
    ensures c1 == c2 && h1 == h2 && p1 == p2
  {
    KeyTargetInjective(c1, Address(h1, p1), c2, Address(h2, p2));
    AddressInjective(h1, p1, h2, p2);
  }

  lemma KeyTargetInjective(c1: string, t1: string, c2: string, t2: string)
    requires '|' !in c1 && '|' !in c2
    requires Key(c1, t1) == Key(c2, t2)
    ensures c1 == c2 && t1 == t2
  {
    SplitFirst(c1, c2, t1, t2, '|');
  }

  // What a datagram header can name: a text of at most 255 octets, and a port of 16 bits.
  predicate Nameable(host: string, port: nat) { |host| <= 255 && port < 0x1_0000 }

  /** Two client texts can share a key, over all targets a datagram header can name, exactly when one continues
      the other with a bar and a text that can begin such a target.  Without a bar in either, never. */
  lemma KeysCollideIff(c1: string, c2: string)
    requires c1 != c2
    ensures Collide(c1, c2) <==> Continues(c1, c2) || Continues(c2, c1)
  {
    if Continues(c1, c2) {
      ContinuedCollides(c1, c2);
    }
    if Continues(c2, c1) {
      ContinuedCollides(c2, c1);
    }
    forall h1, p1, h2, p2 | Nameable(h1, p1) && Nameable(h2, p2) && Key(c1, Address(h1, p1)) == Key(c2, Address(h2, p2))
      ensures Continues(c1, c2) || Continues(c2, c1)
    {
      if |c1| < |c2| {
        CollisionContinues(c1, h1, p1, c2, h2, p2);
      } else if |c2| < |c1| {
        CollisionContinues(c2, h2, p2, c1, h1, p1);
      } else {
        SameLength(c1, Address(h1, p1), c2, Address(h2, p2));
      }
    }
  }

  lemma SameLength(c1: string, t1: string, c2: string, t2: string)
    ensures |c1| == |c2| && Key(c1, t1) == Key(c2, t2) ==> c1 == c2
  {
    assert Key(c1, t1)[..|c1|] == c1 && Key(c2, t2)[..|c2|] == c2;
  }

  ghost predicate Collide(c1: string, c2: string) {
    exists h1, p1, h2, p2 ::
      Nameable(h1, p1) && Nameable(h2, p2) && Key(c1, Address(h1, p1)) == Key(c2, Address(h2, p2))
  }

  // `c2` is `c1`, a bar, and a text that can begin a target.
  predicate Continues(c1: string, c2: string) {
    c1 + "|" <= c2 && Begins(c2[|c1| + 1..])
  }

  // It goes on with a bar and a target of its own, within the 255 octets.
  predicate Begins(x: string) {
    if ':' !in x then |x| <= 254 else x[0] == '[' && |x| <= 255
  }

  lemma ContinuedCollides(c1: string, c2: string)
    requires Continues(c1, c2)
    ensures Collide(c1, c2) && Collide(c2, c1)
  {
    var x := c2[|c1| + 1..];
    assert c2 == c1 + "|" + x;
    if ':' !in x {
      PlainTarget(x, 53);
      KeyShift(c1, x, Address("", 53));
      assert Key(c1, Address(x + "|", 53)) == Key(c2, Address("", 53));
    } else {
      BracketTarget(x, 53);
      KeyShift(c1, x, Address("]", 53));
      assert Key(c1, Address(x[1..] + "|", 53)) == Key(c2, Address("]", 53));
    }
  }

  lemma KeyShift(c: string, x: string, t: string)
    ensures Key(c, x + "|" + t) == Key(c + "|" + x, t)
  {
  }

  // A text before a bar and a target makes a target itself.
  lemma PlainTarget(x: string, p: nat)
    requires ':' !in x
    ensures Address(x + "|", p) == x + "|" + Address("", p)
  {
    assert ':' !in x + "|";
  }

  lemma BracketTarget(x: string, p: nat)
    requires ':' in x && x[0] == '['
    ensures Address(x[1..] + "|", p) == x + "|" + Address("]", p)
  {
    var h, port := x[1..] + "|", Itoa(p);
    var i :| 0 <= i < |x| && x[i] == ':';
    assert h[i - 1] == ':';
    assert ':' !in "]";
    assert "[" + h == x + "|";
    assert "[" + h + "]:" + port == x + "|" + ("]" + ":" + port);
  }

  lemma CollisionContinues(c1: string, h1: string, p1: nat, c2: string, h2: string, p2: nat)
    requires |c1| < |c2| && Nameable(h1, p1) && Key(c1, Address(h1, p1)) == Key(c2, Address(h2, p2))
    ensures Continues(c1, c2)
  {
    var k := Key(c1, Address(h1, p1));
    assert k[..|c1| + 1] == c1 + "|" && k[..|c2|] == c2;
    assert c2[..|c1| + 1] == k[..|c2|][..|c1| + 1] == c1 + "|";
    var x := c2[|c1| + 1..];
    assert k[|c1| + 1..] == Address(h1, p1);
    assert k == c1 + "|" + x + "|" + Address(h2, p2);
    assert k[|c1| + 1..] == x + "|" + Address(h2, p2);
    BeginsTarget(x, h1, p1, h2, p2);
  }

  lemma BeginsTarget(x: string, h1: string, p1: nat, h2: string, p2: nat)
    requires Address(h1, p1) == x + "|" + Address(h2, p2) && |h1| <= 255
    ensures Begins(x)
  {
    var a, b := Address(h1, p1), Address(h2, p2);
    var n := SharedPort(x, h1, p1, h2, p2);
    if ':' in h1 {
      assert a[0] == '[' && |a| == |h1| + 3 + n;
      BracketedRest(x, h1, p1, h2, p2, n);
    } else {
      ItoaInverse(p1);
      assert a == h1 + [':'] + Itoa(p1) && |b| >= 1 + n;
      assert forall i :: 0 <= i < |h1| ==> a[i] != ':';
      assert forall i :: 0 <= i < |x| ==> x[i] == a[i];
    }
  }

  // Where the last colon of a target stands: before its port.
  lemma PortAtEnd(h: string, p: nat)
    ensures var a, n := Address(h, p), |Itoa(p)|;
            && |a| >= n + 1 && a[|a| - n - 1] == ':' && forall i :: |a| - n <= i < |a| ==> a[i] != ':'
  {
    ItoaInverse(p);
    var a, n := Address(h, p), |Itoa(p)|;
    assert forall i :: |a| - n <= i < |a| ==> a[i] == Itoa(p)[i - (|a| - n)];
  }

  lemma SharedPort(x: string, h1: string, p1: nat, h2: string, p2: nat) returns (n: nat)
    requires Address(h1, p1) == x + "|" + Address(h2, p2)
    ensures n == |Itoa(p1)| == |Itoa(p2)| && |Address(h2, p2)| >= n + 1
  {
    PortAtEnd(h1, p1);
    PortAtEnd(h2, p2);
    var a, b := Address(h1, p1), Address(h2, p2);
    var n1, n2 := |Itoa(p1)|, |Itoa(p2)|;
    assert forall i :: 0 <= i < |b| ==> a[|a| - |b| + i] == b[i];
    assert a[|a| - n2 - 1] == b[|b| - n2 - 1];
    assert n2 >= n1;
    assert |b| >= n1 + 1 && a[|a| - n1 - 1] == b[|b| - n1 - 1];
    n := n1;
  }

  // The bracket that closes the longer target closes, or is, the shorter one's host.
  lemma BracketedRest(x: string, h1: string, p1: nat, h2: string, p2: nat, n: nat)
    requires Address(h1, p1) == x + "|" + Address(h2, p2) && ':' in h1 && |h1| <= 255
    requires n == |Itoa(p1)| == |Itoa(p2)| && |Address(h2, p2)| >= n + 1
    ensures Begins(x)
  {
    var a, b := Address(h1, p1), Address(h2, p2);
    assert |a| == |h1| + 3 + n && a[0] == '[' && a[|a| - n - 2] == ']';
    assert |a| == |x| + 1 + |b|;
    assert a[|x|] == '|';
    assert |b| != n + 1;
    assert x != "" ==> x[0] == a[0];
    if ':' !in x && |x| == 255 { ColonAfter(x, h1, p1, h2, p2, n); }
  }

  // If nothing before the bar holds a colon, the shorter target has one inside its host.
  lemma ColonAfter(x: string, h1: string, p1: nat, h2: string, p2: nat, n: nat)
    requires Address(h1, p1) == x + "|" + Address(h2, p2) && ':' in h1 && ':' !in x
    requires n == |Itoa(p1)| == |Itoa(p2)| && |Address(h2, p2)| >= n + 2
    ensures |Address(h2, p2)| >= n + 3
  {
    var a := Address(h1, p1);
    var k :| 0 <= k < |h1| && h1[k] == ':';
    assert a[1 + k] == ':';
  }

  /** The clients the relay admits are UDP addresses, whose text is itself a joined host and port: their
      keys never collide while the host holds no bar. */
  lemma ClientKeyInjective(i1: string, q1: nat, h1: string, p1: nat, i2: string, q2: nat, h2: string, p2: nat)
    requires '|' !in i1 && '|' !in i2
    requires Key(Address(i1, q1), Address(h1, p1)) == Key(Address(i2, q2), Address(h2, p2))
    ensures i1 == i2 && q1 == q2 && h1 == h2 && p1 == p2
  {
    NoBar(i1, q1);
    NoBar(i2, q2);
    KeyInjective(Address(i1, q1), h1, p1, Address(i2, q2), h2, p2);
    AddressInjective(i1, q1, i2, q2);
  }

  // The host of a UDP address: an IP in its textual form, and for IPv6 perhaps a zone, an interface name.
  datatype Host = Host(ip: string, zone: string)

  predicate IpChar(c: char) { '0' <= c <= '9' || 'a' <= c <= 'f' || c == '.' || c == ':' }

  predicate HostOk(h: Host) {
    h.ip != "" && (forall i :: 0 <= i < |h.ip| ==> IpChar(h.ip[i])) && ':' !in h.zone
  }

  function HostText(h: Host): string { if h.zone == "" then h.ip else h.ip + "%" + h.zone }

  /** For every pair of real client addresses, bars in their zones or not, the key determines both clients and both
      targets: a zone is an interface name, which holds no colon. */
  lemma RealClientKeyInjective(i1: Host, q1: nat, h1: string, p1: nat, i2: Host, q2: nat, h2: string, p2: nat)
    requires HostOk(i1) && HostOk(i2)
    requires Key(Address(HostText(i1), q1), Address(h1, p1)) == Key(Address(HostText(i2), q2), Address(h2, p2))
    ensures i1 == i2 && q1 == q2 && h1 == h2 && p1 == p2
  {
    var c1, c2 := Address(HostText(i1), q1), Address(HostText(i2), q2);
    RealClientsKey(c1, Address(h1, p1), c2, Address(h2, p2));
    AddressInjective(h1, p1, h2, p2);
    AddressInjective(HostText(i1), q1, HostText(i2), q2);
    HostTextInjective(i1, i2);
  }

  // The text of a UDP address.
  ghost predicate RealClient(c: string) { exists h: Host, q: nat :: HostOk(h) && c == Address(HostText(h), q) }

  lemma RealClientsKey(c1: string, t1: string, c2: string, t2: string)
    requires RealClient(c1) && RealClient(c2) && Key(c1, t1) == Key(c2, t2)
    ensures c1 == c2 && t1 == t2
  {
    var i1, q1 :| HostOk(i1) && c1 == Address(HostText(i1), q1);
    var i2, q2 :| HostOk(i2) && c2 == Address(HostText(i2), q2);
    SameLength(c1, t1, c2, t2);
    KeyGoesOn(c1, t1, c2, t2);
    KeyGoesOn(c2, t2, c1, t1);
    ClientsApart(i1, q1, i2, q2);
    ClientsApart(i2, q2, i1, q1);
    assert Key(c1, t1)[|c1| + 1..] == t1 && Key(c2, t2)[|c2| + 1..] == t2;
  }

  lemma KeyGoesOn(c1: string, t1: string, c2: string, t2: string)
    ensures Key(c1, t1) == Key(c2, t2) && |c1| < |c2| ==> c1 + "|" <= c2
  {
    var k := Key(c1, t1);
    assert k[..|c1| + 1] == c1 + "|";
    assert Key(c2, t2)[..|c2|] == c2;
    assert |c1| < |c2| ==> Key(c2, t2)[..|c1| + 1] == c2[..|c1| + 1];
  }

  // No real client text continues another with a bar.
  lemma ClientsApart(i1: Host, q1: nat, i2: Host, q2: nat)
    requires HostOk(i1) && HostOk(i2)
    ensures !(Address(HostText(i1), q1) + "|" <= Address(HostText(i2), q2))
  {
    var a := HostText(i1);
    assert a[0] == i1.ip[0] && IpChar(a[0]);
    if ':' !in a { PlainApart(a, q1, HostText(i2), q2); } else { BracketsApart(a, q1, i2, q2); }
  }

  lemma PrefixAt(u: string, v: string, i: nat)
    ensures u <= v && i < |u| ==> v[i] == u[i]
  {
  }

  // What a joined host and port consists of.
  lemma AddressParts(h: string, p: nat)
    ensures var a, n := Address(h, p), |h| + if ':' in h then 2 else 0;
            && |a| > n + 1 && a[n] == ':' && (forall i :: n < i < |a| ==> '0' <= a[i] <= '9')
            && (if ':' in h then a[0] == '[' && a[n - 1] == ']' && (forall i :: 0 <= i < |h| ==> a[1 + i] == h[i])
                else forall i :: 0 <= i < |h| ==> a[i] == h[i])
  {
    ItoaInverse(p);
    var a, n := Address(h, p), |h| + if ':' in h then 2 else 0;
    assert forall i :: n < i < |a| ==> a[i] == Itoa(p)[i - n - 1];
  }

  lemma PlainApart(a: string, q1: nat, b: string, q2: nat)
    requires a != "" && a[0] != '[' && ':' !in a
    ensures !(Address(a, q1) + "|" <= Address(b, q2))
  {
    var u, c2 := Address(a, q1) + "|", Address(b, q2);
    AddressParts(a, q1);
    AddressParts(b, q2);
    PrefixAt(u, c2, 0);
    PrefixAt(u, c2, |a|);
    PrefixAt(u, c2, |u| - 1);
  }

  lemma BracketsApart(a: string, q1: nat, h2: Host, q2: nat)
    requires ':' in a && HostOk(h2)
    ensures !(Address(a, q1) + "|" <= Address(HostText(h2), q2))
  {
    var b := HostText(h2);
    var u, c2 := Address(a, q1) + "|", Address(b, q2);
    AddressParts(a, q1);
    AddressParts(b, q2);
    NoBracketColon(h2);
    assert b[0] == h2.ip[0] && IpChar(b[0]);
    PrefixAt(u, c2, 0);
    PrefixAt(u, c2, |a| + 1);
    PrefixAt(u, c2, |a| + 2);
    PrefixAt(u, c2, |u| - 1);
  }

  lemma NoBracketColon(h: Host)
    requires HostOk(h)
    ensures var b := HostText(h); forall k, m :: 0 <= k && k + 1 == m < |b| && b[k] == ']' ==> b[m] != ':'
  {
    var b := HostText(h);
    assert forall k :: 0 <= k < |h.ip| ==> b[k] == h.ip[k] && b[k] != ']';
    assert forall m :: |h.ip| < m < |b| ==> b[m] == h.zone[m - |h.ip| - 1];
  }

  lemma HostTextInjective(h1: Host, h2: Host)
    requires HostOk(h1) && HostOk(h2) && HostText(h1) == HostText(h2)
    ensures h1 == h2
  {
    assert '%' !in h1.ip && '%' !in h2.ip;
    var t := HostText(h1);
    if h1.zone != "" { assert t[|h1.ip|] == '%'; }
    if h2.zone != "" { assert t[|h2.ip|] == '%'; }
    if h1.zone != "" && h2.zone != "" { SplitFirst(h1.ip, h2.ip, h1.zone, h2.zone, '%'); }
  }

  lemma NoBar(h: string, p: nat)
    requires '|' !in h
    ensures '|' !in Address(h, p)
  {
    ItoaInverse(p);
  }

  /** It takes a bar and a colon in a zone for two such client texts to collide: an IPv6 client and one whose host
      text goes on, behind the first client's text and a bar, with an opening bracket. */
  lemma BarInZoneCollides(z: string, q1: nat, y: string, q2: nat)
    requires ':' in z && |y| + |Itoa(q2)| <= 252
    ensures Collide(Address(z, q1), Address(z + ("]:" + Itoa(q1)) + "|[" + y, q2))
  {
    var end1, end2 := "]:" + Itoa(q1), "]:" + Itoa(q2);
    var x := "[" + y + end2;
    ZoneText(z, end1, y, end2);
    Bracketed(z, q1);
    Bracketed(z + end1 + "|[" + y, q2);
    assert x[|y| + 2] == ':';
    ContinuesBy("[" + z + end1, x);
    ContinuedCollides("[" + z + end1, "[" + z + end1 + "|" + x);
  }

  lemma Bracketed(h: string, p: nat)
    ensures ':' in h ==> Address(h, p) == "[" + h + ("]:" + Itoa(p))
  {
  }

  lemma ZoneText(z: string, end1: string, y: string, end2: string)
    requires ':' in z
    ensures "[" + (z + end1 + "|[" + y) + end2 == "[" + z + end1 + "|" + ("[" + y + end2)
    ensures ':' in z + end1 + "|[" + y
  {
    var i :| 0 <= i < |z| && z[i] == ':';
    assert (z + end1 + "|[" + y)[i] == ':';
  }

  lemma ContinuesBy(c: string, x: string)
    requires Begins(x)
    ensures Continues(c, c + "|" + x)
  {
    assert (c + "|" + x)[|c| + 1..] == x;
  }
}
