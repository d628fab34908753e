/** The two-level budget of internal/socks/udp.go: a process-wide cap and a fair
    per-client cap, counted together.  `Limits` is the value of a limiter, `Limiter`
    the mutable object; the relay machine in UdpRelay.dfy runs on the values. */
module ResourceLimiter {

  datatype Limits = Limits(total: int, byClient: map<string, int>, maxTotal: int, maxPerClient: int)

  function OrDefault(v: int, fallback: int): int {
    if v <= 0 then fallback else v
  }

  function Fresh(maxTotal: int, maxPerClient: int): Limits {
    Limits(0, map[], maxTotal, maxPerClient)
  }

  // Reading a missing key of a Go map gives zero.
  function Count(l: Limits, client: string): int {
    if client in l.byClient then l.byClient[client] else 0
  }

  predicate Admits(l: Limits, client: string) {
    && !(l.maxTotal > 0 && l.total >= l.maxTotal)
    && !(l.maxPerClient > 0 && Count(l, client) >= l.maxPerClient)
  }

  function Acquired(l: Limits, client: string): Limits {
    if !Admits(l, client) then l
    else l.(total := l.total + 1, byClient := l.byClient[client := Count(l, client) + 1])
  }

  function Released(l: Limits, client: string): Limits {
    if Count(l, client) <= 0 || l.total <= 0 then l
    else if Count(l, client) == 1 then l.(total := l.total - 1, byClient := l.byClient - {client})
    else l.(total := l.total - 1, byClient := l.byClient[client := Count(l, client) - 1])
  }

  ghost function Sum(m: map<string, int>): int {
    if m == map[] then 0 else var k :| k in m; m[k] + Sum(m - {k})
  }

  lemma {:induction false} SumRemove(m: map<string, int>, k: string)
    requires k in m
    ensures Sum(m) == m[k] + Sum(m - {k})
    decreases |m|
  {
    var j :| j in m && Sum(m) == m[j] + Sum(m - {j});
    if j != k {
      SumRemove(m - {j}, k);
      SumRemove(m - {k}, j);
      assert m - {j} - {k} == m - {k} - {j};
    }
  }

  lemma SumUpdate(m: map<string, int>, k: string, v: int)
    ensures Sum(m[k := v]) == Sum(m - {k}) + v
  {
    SumRemove(m[k := v], k);
    assert m[k := v] - {k} == m - {k};
  }

  /** What every limiter satisfies: the grand total is the sum of the client counts, no
      client is kept at zero, and neither cap is exceeded. */
  ghost predicate Sound(l: Limits) {
    && l.total == Sum(l.byClient)
    && (forall c :: c in l.byClient ==> 0 < l.byClient[c] <= l.total)
    && (l.maxTotal > 0 ==> l.total <= l.maxTotal)
    && (l.maxPerClient > 0 ==> forall c :: c in l.byClient ==> l.byClient[c] <= l.maxPerClient)
    && 0 <= l.total
  }

  lemma FreshValid(maxTotal: int, maxPerClient: int)
    ensures Sound(Fresh(maxTotal, maxPerClient))
  {
    assert Sum(map[]) == 0;
  }

  // The sum of positive counts dominates each of them.
  lemma {:induction false} SumBounds(m: map<string, int>)
    requires forall c :: c in m ==> 0 < m[c]
    ensures 0 <= Sum(m)
    ensures forall c :: c in m ==> m[c] <= Sum(m)
    decreases |m|
  {
    if m != map[] {
      forall c | c in m ensures m[c] <= Sum(m) && 0 <= Sum(m) {
        SumRemove(m, c);
        SumBounds(m - {c});
      }
    }
  }

  lemma AcquireValid(l: Limits, client: string)
    requires Sound(l)
    ensures Sound(Acquired(l, client))
  {
    if Admits(l, client) {
      var l' := Acquired(l, client);
      SumUpdate(l.byClient, client, Count(l, client) + 1);
      if client in l.byClient { SumRemove(l.byClient, client); } else { assert l.byClient - {client} == l.byClient; }
      SumBounds(l'.byClient);
    }
  }

  lemma ReleaseValid(l: Limits, client: string)
    requires Sound(l)
    ensures Sound(Released(l, client))
  {
    var l' := Released(l, client);
    if l' != l {
      SumRemove(l.byClient, client);
      SumUpdate(l.byClient, client, Count(l, client) - 1);
      SumBounds(l'.byClient);
    }
  }

  // --- Accounting: who holds the units -------------------------------------------------

  function Of(m: map<nat, string>, c: string): set<nat> {
    set k | k in m && m[k] == c
  }

  /** The limiter counts exactly the units held by `a` and `b` (two kinds of holder, each
      mapped to the client it is charged to): in total and client by client. */
  ghost predicate Tallies(l: Limits, a: map<nat, string>, b: map<nat, string>) {
    && l.total == |a| + |b|
    && forall c {:trigger Count(l, c)} :: Count(l, c) == |Of(a, c)| + |Of(b, c)|
  }

  lemma OfAdd(m: map<nat, string>, k: nat, c: string)
    requires k !in m
    ensures |m[k := c]| == |m| + 1
    ensures forall d :: |Of(m[k := c], d)| == |Of(m, d)| + if d == c then 1 else 0
  {
    assert m[k := c].Keys == m.Keys + {k};
    forall d ensures |Of(m[k := c], d)| == |Of(m, d)| + if d == c then 1 else 0 { OfAddAt(m, k, c, d); }
  }

  lemma OfAddAt(m: map<nat, string>, k: nat, c: string, d: string)
    requires k !in m
    ensures |Of(m[k := c], d)| == |Of(m, d)| + if d == c then 1 else 0
  {
    if d == c { assert Of(m[k := c], d) == Of(m, d) + {k}; } else { assert Of(m[k := c], d) == Of(m, d); }
  }

  lemma OfRemove(m: map<nat, string>, k: nat)
    requires k in m
    ensures |m - {k}| == |m| - 1
    ensures forall d :: |Of(m - {k}, d)| == |Of(m, d)| - if d == m[k] then 1 else 0
    ensures |Of(m, m[k])| > 0 && |m| > 0
  {
    OfAdd(m - {k}, k, m[k]);
    assert (m - {k})[k := m[k]] == m;
  }

  lemma TallyEmpty(maxTotal: int, maxPerClient: int)
    ensures Tallies(Fresh(maxTotal, maxPerClient), map[], map[])
  {
    forall c ensures Of(map[], c) == {} {}
  }

  lemma CountAcquired(l: Limits, c: string, d: string)
    requires Admits(l, c)
    ensures Count(Acquired(l, c), d) == Count(l, d) + if d == c then 1 else 0
  {
  }

  lemma CountReleased(l: Limits, c: string, d: string)
    requires Count(l, c) > 0 && l.total > 0
    ensures Count(Released(l, c), d) == Count(l, d) - if d == c then 1 else 0
  {
  }

  /** A granted acquisition adds exactly one unit, charged to the caller's client. */
  lemma TallyAcquire(l: Limits, a: map<nat, string>, b: map<nat, string>, t: nat, c: string)
    requires Tallies(l, a, b) && Admits(l, c) && t !in a
    ensures Tallies(Acquired(l, c), a[t := c], b)
  {
    OfAdd(a, t, c);
    forall d ensures Count(Acquired(l, c), d) == |Of(a[t := c], d)| + |Of(b, d)| { CountAcquired(l, c, d); }
  }

  /** A release by a holder of the first kind gives back exactly its unit: the guard of
      `release` that ignores surplus releases never fires. */
  lemma TallyReleaseFirst(l: Limits, a: map<nat, string>, b: map<nat, string>, t: nat)
    requires Tallies(l, a, b) && t in a
    ensures Tallies(Released(l, a[t]), a - {t}, b)
    ensures Released(l, a[t]).total == l.total - 1
  {
    OfRemove(a, t);
    assert Count(l, a[t]) == |Of(a, a[t])| + |Of(b, a[t])|;
    forall d ensures Count(Released(l, a[t]), d) == |Of(a - {t}, d)| + |Of(b, d)| { CountReleased(l, a[t], d); }
  }

  lemma TallySwap(l: Limits, a: map<nat, string>, b: map<nat, string>)
    requires Tallies(l, a, b)
    ensures Tallies(l, b, a)
  {
    forall c ensures Count(l, c) == |Of(b, c)| + |Of(a, c)| { }
  }

  /** Handing a unit from a holder of the first kind to one of the second leaves the
      limiter as it is. */
  lemma TallyHandOver(l: Limits, a: map<nat, string>, b: map<nat, string>, t: nat, e: nat)
    requires Tallies(l, a, b) && t in a && e !in b
    ensures Tallies(l, a - {t}, b[e := a[t]])
  {
    OfRemove(a, t);
    OfAdd(b, e, a[t]);
    forall d ensures Count(l, d) == |Of(a - {t}, d)| + |Of(b[e := a[t]], d)| {}
  }

  /** A limiter nobody holds a unit of is back at its initial counts. */
  lemma TallyNone(l: Limits)
    requires Sound(l) && Tallies(l, map[], map[])
    ensures l == Fresh(l.maxTotal, l.maxPerClient)
  {
    forall c ensures c !in l.byClient {
      assert Count(l, c) == |Of(map[], c)| + |Of(map[], c)|;
      assert Of(map[], c) == {};
    }
    assert l.byClient == map[];
  }

  // --- The mutable object ---------------------------------------------------------------

  class Limiter {
    var total: int
    var byClient: map<string, int>
    const maxTotal: int
    const maxPerClient: int

    ghost function Value(): Limits
      reads this
    {
      Limits(total, byClient, maxTotal, maxPerClient)
    }

    constructor (maxTotal: int, maxPerClient: int)
      ensures Value() == Fresh(maxTotal, maxPerClient)
      ensures Sound(Value())
    {
      this.total, this.byClient := 0, map[];
      this.maxTotal, this.maxPerClient := maxTotal, maxPerClient;
      FreshValid(maxTotal, maxPerClient);
    }

    method Acquire(client: string) returns (ok: bool)
      requires Sound(Value())
      modifies this
      ensures ok == Admits(old(Value()), client)
      ensures Value() == Acquired(old(Value()), client)
      ensures Sound(Value())
      ensures ok <==>
              && (maxTotal > 0 ==> old(total) < maxTotal)
              && (maxPerClient > 0 ==> Count(old(Value()), client) < maxPerClient)
      ensures total == old(total) + if ok then 1 else 0
      ensures forall c :: Count(Value(), c) == Count(old(Value()), c) + if ok && c == client then 1 else 0
    {
      AcquireValid(Value(), client);
      if maxTotal > 0 && total >= maxTotal {
        return false;
      }
      var held := if client in byClient then byClient[client] else 0;
      if maxPerClient > 0 && held >= maxPerClient {
        return false;
      }
      total := total + 1;
      byClient := byClient[client := held + 1];
      return true;
    }

    method Release(client: string)
      requires Sound(Value())
      modifies this
      ensures Value() == Released(old(Value()), client)
      ensures Sound(Value())
      ensures var held := client in old(byClient);
              && total == old(total) - (if held then 1 else 0)
              && (forall c :: Count(Value(), c) == Count(old(Value()), c) - if held && c == client then 1 else 0)
              && (client in byClient <==> held && old(byClient)[client] > 1)
    {
      ReleaseValid(Value(), client);
      var held := if client in byClient then byClient[client] else 0;
      if held <= 0 || total <= 0 {
        return;
      }
      total := total - 1;
      byClient := byClient[client := held - 1];
      if byClient[client] == 0 {
        byClient := byClient - {client};
        assert byClient == old(byClient) - {client};
      }
    }
  }

  /** One outbound flow and its close-once guard. */
  class NatEntry {
    const limiter: Limiter
    const clientKey: string
    var closed: bool
    var connCloses: nat
    var routeCloses: nat

    constructor (limiter: Limiter, clientKey: string)
      ensures this.limiter == limiter && this.clientKey == clientKey
      ensures !closed && connCloses == 0 && routeCloses == 0
    {
      this.limiter, this.clientKey := limiter, clientKey;
      this.closed, this.connCloses, this.routeCloses := false, 0, 0;
    }

    ghost predicate Consistent()
      reads this
    {
      connCloses == routeCloses == if closed then 1 else 0
    }

    // However often it is called, the socket and the route are closed once and the
    // unit goes back once, to the limiter it came from.
    method Close()
      requires Consistent() && Sound(limiter.Value())
      modifies this, limiter
      ensures closed && Consistent()
      ensures limiter.Value() ==
              if old(closed) then old(limiter.Value()) else Released(old(limiter.Value()), clientKey)
      ensures Sound(limiter.Value())
    {
      if !closed {
        closed := true;
        connCloses := connCloses + 1;
        routeCloses := routeCloses + 1;
        limiter.Release(clientKey);
      }
    }
  }
}
