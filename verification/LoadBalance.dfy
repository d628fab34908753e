/** How even the pool stays (internal/transport/rpc/client/wrapper.go, queue.go): sessions are only
    acquired, each by a pick (one scan) and a later Use, with at most `p` callers in between. */
module LoadBalance {
  import opened ConnPool

  // `pending` maps a caller between pick and Use to the connection it picked.
  datatype State = State(loads: seq<nat>, pending: map<nat, nat>)

  function Peeks(loads: seq<nat>): (w: seq<Peek>)
    ensures |w| == |loads| && forall i :: 0 <= i < |w| ==> w[i] == Peek(loads[i], false)
  {
    seq(|loads|, i requires 0 <= i < |loads| => Peek(loads[i], false))
  }

  ghost predicate Init(s: State) {
    && s.pending == map[] && Counters(s)
    && forall i, j :: 0 <= i < |s.loads| && 0 <= j < |s.loads| ==> s.loads[i] == s.loads[j]
  }

  ghost predicate Pick(p: nat, s: State, s': State, t: nat, i: nat) {
    && t !in s.pending && |s.pending| < p && IsPick(Peeks(s.loads), i)
    && s' == s.(pending := s.pending[t := i])
  }

  ghost predicate Use(s: State, s': State, t: nat) {
    && t in s.pending && s.pending[t] < |s.loads|
    && s' == State(s.loads[s.pending[t] := Raised(s.loads[s.pending[t]])], s.pending - {t})
  }

  ghost predicate Next(p: nat, s: State, s': State) {
    (exists t, i :: Pick(p, s, s', t, i)) || (exists t :: Use(s, s', t))
  }

  ghost predicate Run(p: nat, tr: seq<State>) {
    && |tr| > 0 && Init(tr[0])
    && forall i, j :: 0 <= i && i + 1 == j < |tr| ==> Next(p, tr[i], tr[j])
  }

  function Heading(pending: map<nat, nat>, i: nat): set<nat> {
    set t | t in pending && pending[t] == i
  }

  /** Counting the callers already heading for it, no connection is more than `p` above another. */
  ghost predicate Even(p: nat, s: State, i: nat, j: nat)
    requires i < |s.loads| && j < |s.loads|
  {
    s.loads[i] + |Heading(s.pending, i)| <= s.loads[j] + p
  }

  ghost predicate Inv(p: nat, s: State) {
    && (forall t :: t in s.pending ==> s.pending[t] < |s.loads|)
    && forall i: nat, j: nat {:trigger Even(p, s, i, j)} :: i < |s.loads| && j < |s.loads| ==> Even(p, s, i, j)
  }

  lemma HeadingBound(pending: map<nat, nat>, i: nat)
    ensures |Heading(pending, i)| <= |pending|
  {
    assert Heading(pending, i) <= pending.Keys;
    Subset(Heading(pending, i), pending.Keys);
  }

  lemma {:induction false} Subset(a: set<nat>, b: set<nat>)
    requires a <= b
    ensures |a| <= |b|
  {
    if a != {} {
      var x :| x in a;
      Subset(a - {x}, b - {x});
    }
  }

  lemma PickInv(p: nat, s: State, s': State, t: nat, i: nat)
    requires Inv(p, s) && Pick(p, s, s', t, i)
    ensures Inv(p, s')
  {
    forall k: nat, j: nat | k < |s'.loads| && j < |s'.loads| ensures Even(p, s', k, j) {
      assert Even(p, s, k, j);
      HeadingWith(s.pending, t, i, k);
      HeadingBound(s.pending, k);
    }
  }

  lemma HeadingWith(pending: map<nat, nat>, t: nat, i: nat, k: nat)
    requires t !in pending
    ensures |Heading(pending[t := i], k)| == |Heading(pending, k)| + if i == k then 1 else 0
  {
    if i == k { assert Heading(pending[t := i], k) == Heading(pending, k) + {t}; }
    else { assert Heading(pending[t := i], k) == Heading(pending, k); }
  }

  lemma HeadingWithout(pending: map<nat, nat>, t: nat, k: nat)
    requires t in pending
    ensures |Heading(pending - {t}, k)| == |Heading(pending, k)| - if pending[t] == k then 1 else 0
  {
    if pending[t] == k { assert Heading(pending, k) == Heading(pending - {t}, k) + {t}; }
    else { assert Heading(pending - {t}, k) == Heading(pending, k); }
  }

  lemma UseInv(p: nat, s: State, s': State, t: nat)
    requires Inv(p, s) && Use(s, s', t) && s.loads[s.pending[t]] + 1 < UINT32
    ensures Inv(p, s')
  {
    forall k: nat, j: nat | k < |s'.loads| && j < |s'.loads| ensures Even(p, s', k, j) {
      assert Even(p, s, k, j);
      HeadingWithout(s.pending, t, k);
    }
  }

  lemma InitInv(p: nat, s: State)
    requires Init(s)
    ensures Inv(p, s)
  {
    forall i: nat, j: nat | i < |s.loads| && j < |s.loads| ensures Even(p, s, i, j) {
      assert Heading(s.pending, i) == {};
    }
  }

  // No two loads differ by more than `p`.
  ghost predicate Within(p: nat, s: State) {
    forall i, j :: 0 <= i < |s.loads| && 0 <= j < |s.loads| ==> s.loads[i] - s.loads[j] <= p
  }

  // The step is a Use that takes a 32-bit counter from its highest value to zero.
  ghost predicate Wraps(s: State, s': State) {
    exists t :: Use(s, s', t) && s.loads[s.pending[t]] == UINT32 - 1
  }

  lemma InvWithin(p: nat, s: State)
    requires Inv(p, s)
    ensures Within(p, s)
  {
    forall i, j | 0 <= i < |s.loads| && 0 <= j < |s.loads| ensures s.loads[i] - s.loads[j] <= p {
      assert Even(p, s, i, j);
    }
  }

  lemma NextInv(p: nat, s: State, s': State)
    requires Inv(p, s) && Next(p, s, s') && Counters(s) && !Wraps(s, s')
    ensures Inv(p, s')
  {
    if t, i :| Pick(p, s, s', t, i) {
      PickInv(p, s, s', t, i);
    } else {
      var t :| Use(s, s', t);
      UseInv(p, s, s', t);
    }
  }

  // What a counter of 32 bits can hold.
  predicate Counters(s: State) { forall i :: 0 <= i < |s.loads| ==> s.loads[i] < UINT32 }

  lemma {:induction false} RunCounters(p: nat, tr: seq<State>, n: nat)
    requires Run(p, tr) && n < |tr|
    ensures Counters(tr[n]) && |tr[n].loads| == |tr[0].loads|
  {
    if n > 0 {
      RunCounters(p, tr, n - 1);
      assert Next(p, tr[n - 1], tr[n]);
    }
  }

  ghost predicate NoWrap(tr: seq<State>, n: nat)
    requires n < |tr|
  {
    forall i, j :: 0 <= i && i + 1 == j <= n ==> !Wraps(tr[i], tr[j])
  }

  lemma {:induction false} RunInv(p: nat, tr: seq<State>, n: nat)
    requires Run(p, tr) && n < |tr| && NoWrap(tr, n)
    ensures Inv(p, tr[n])
  {
    if n == 0 {
      InitInv(p, tr[0]);
    } else {
      RunInv(p, tr, n - 1);
      RunCounters(p, tr, n - 1);
      assert Next(p, tr[n - 1], tr[n]) && !Wraps(tr[n - 1], tr[n]);
      NextInv(p, tr[n - 1], tr[n]);
    }
  }

  /** Starting even, with at most `p` callers between pick and Use, no two loads ever differ by
      more than `p` as long as no counter has wrapped; one caller at a time keeps them within one. */
  lemma BalanceBound(p: nat, tr: seq<State>, n: nat, i: nat, j: nat)
    requires Run(p, tr) && n < |tr| && i < |tr[n].loads| && j < |tr[n].loads| && NoWrap(tr, n)
    ensures tr[n].loads[i] - tr[n].loads[j] <= p
  {
    RunInv(p, tr, n);
    assert Even(p, tr[n], i, j);
  }

  /** What one Use does to a pool whose counters have not wrapped so far: the loads stay within `p` if and only if the
      counter it raises does not stand at its highest value, or no other load is above `p`. */
  lemma UseKeepsIff(p: nat, tr: seq<State>, n: nat, t: nat)
    requires Run(p, tr) && n + 1 < |tr| && NoWrap(tr, n) && Use(tr[n], tr[n + 1], t)
    ensures var s, c := tr[n], tr[n].pending[t];
            Within(p, tr[n + 1]) <==>
            s.loads[c] != UINT32 - 1 || forall j :: 0 <= j < |s.loads| && j != c ==> s.loads[j] <= p
  {
    RunInv(p, tr, n);
    RunCounters(p, tr, n);
    UseKeepsHere(p, tr[n], tr[n + 1], t);
  }

  lemma UseKeepsHere(p: nat, s: State, s': State, t: nat)
    requires Inv(p, s) && Counters(s) && Use(s, s', t)
    ensures var c := s.pending[t];
            Within(p, s') <==>
            s.loads[c] != UINT32 - 1 || forall j :: 0 <= j < |s.loads| && j != c ==> s.loads[j] <= p
  {
    var c := s.pending[t];
    InvWithin(p, s);
    if s.loads[c] != UINT32 - 1 {
      UseInv(p, s, s', t);
      InvWithin(p, s');
    } else {
      assert s'.loads[c] == 0 && forall j :: 0 <= j < |s.loads| && j != c ==> s'.loads[j] == s.loads[j];
      WrappedWithin(p, s, s', c);
    }
  }

  // A counter back at zero among loads that were within `p`.
  lemma WrappedWithin(p: nat, s: State, s': State, c: nat)
    requires Within(p, s) && |s'.loads| == |s.loads| && c < |s.loads| && s'.loads[c] == 0
    requires forall j :: 0 <= j < |s.loads| && j != c ==> s'.loads[j] == s.loads[j]
    ensures Within(p, s') <==> forall j :: 0 <= j < |s.loads| && j != c ==> s.loads[j] <= p
  {
    if Within(p, s') {
      forall j | 0 <= j < |s.loads| && j != c ensures s.loads[j] <= p { assert s'.loads[j] - s'.loads[c] <= p; }
    }
  }

  /** With two connections or more and `p` below half the counter's range, a run stays within `p` throughout if and only
      if no counter wraps in it. */
  lemma BalanceIff(p: nat, tr: seq<State>, n: nat)
    requires Run(p, tr) && n < |tr| && |tr[0].loads| >= 2 && 2 * p < UINT32 - 1
    ensures (forall k :: 0 <= k <= n ==> Within(p, tr[k])) <==> NoWrap(tr, n)
  {
    if NoWrap(tr, n) {
      forall k | 0 <= k <= n ensures Within(p, tr[k]) {
        RunInv(p, tr, k);
        InvWithin(p, tr[k]);
      }
    } else {
      var k := FirstWrap(tr, n);
      RunInv(p, tr, k);
      RunCounters(p, tr, k);
      WrapLeaves(p, tr[k], tr[k + 1]);
    }
  }

  lemma {:induction false} FirstWrap(tr: seq<State>, n: nat) returns (k: nat)
    requires n < |tr| && !NoWrap(tr, n)
    ensures k < n && NoWrap(tr, k) && Wraps(tr[k], tr[k + 1])
  {
    if NoWrap(tr, n - 1) {
      k := n - 1;
    } else {
      k := FirstWrap(tr, n - 1);
    }
  }

  lemma WrapLeaves(p: nat, s: State, s': State)
    requires Inv(p, s) && Counters(s) && Wraps(s, s') && |s.loads| >= 2 && 2 * p < UINT32 - 1
    ensures !Within(p, s')
  {
    var t :| Use(s, s', t) && s.loads[s.pending[t]] == UINT32 - 1;
    var c := s.pending[t];
    var j := if c == 0 then 1 else 0;
    assert Even(p, s, c, j);
    UseKeepsHere(p, s, s', t);
  }

  // The first k callers all headed for connection 0.
  function Crowd(k: nat): map<nat, nat> {
    if k == 0 then map[] else Crowd(k - 1)[k - 1 := 0]
  }

  lemma {:induction false} CrowdHas(k: nat, t: nat)
    ensures t in Crowd(k) <==> t < k
    ensures t in Crowd(k) ==> Crowd(k)[t] == 0
  {
    if k > 0 { CrowdHas(k - 1, t); }
  }

  lemma {:induction false} CrowdSize(k: nat)
    ensures |Crowd(k)| == k
  {
    if k > 0 {
      CrowdSize(k - 1);
      CrowdHas(k - 1, k - 1);
      OneMore(Crowd(k - 1), k - 1);
    }
  }

  lemma OneMore(m: map<nat, nat>, t: nat)
    requires t !in m
    ensures |m[t := 0]| == |m| + 1
  {
    assert m[t := 0].Keys == m.Keys + {t};
  }

  ghost predicate Ends(p: nat, tr: seq<State>, loads: seq<nat>, k: nat) {
    Run(p, tr) && tr[|tr| - 1] == State(loads, Crowd(k))
  }

  /** The bound is reached: `p` callers that scan before any of them is counted all pick the same
      connection. */
  lemma BoundReached(p: nat)
    requires p < UINT32
    ensures exists tr :: Ends(p, tr, [p, 0], 0)
  {
    var picked := Picks(p, p);
    var used := Uses(p, picked, p);
    assert Ends(p, used, [p, 0], 0);
  }

  lemma {:induction false} Picks(p: nat, k: nat) returns (tr: seq<State>)
    requires k <= p
    ensures Ends(p, tr, [0, 0], k)
  {
    if k == 0 {
      tr := [State([0, 0], map[])];
    } else {
      var front := Picks(p, k - 1);
      CrowdSize(k - 1);
      CrowdHas(k - 1, k - 1);
      tr := Extend(p, front, State([0, 0], Crowd(k))) by {
        assert Pick(p, front[|front| - 1], State([0, 0], Crowd(k)), k - 1, 0);
      }
    }
  }

  lemma Extend(p: nat, front: seq<State>, s: State) returns (tr: seq<State>)
    requires Run(p, front) && Next(p, front[|front| - 1], s)
    ensures Run(p, tr) && tr[|tr| - 1] == s
  {
    tr := front + [s];
    forall i, j | 0 <= i && i + 1 == j < |tr| ensures Next(p, tr[i], tr[j]) {
      if j < |front| { assert Next(p, front[i], front[j]); }
    }
  }

  lemma CrowdLeaves(load: nat, k: nat)
    requires k > 0 && load + 1 < UINT32
    ensures Use(State([load, 0], Crowd(k)), State([load + 1, 0], Crowd(k - 1)), k - 1)
  {
    CrowdHas(k - 1, k - 1);
    assert Crowd(k) - {k - 1} == Crowd(k - 1);
    assert [load, 0][0 := load + 1] == [load + 1, 0];
  }

  lemma {:induction false} Uses(p: nat, front: seq<State>, k: nat) returns (tr: seq<State>)
    requires k <= p < UINT32 && Ends(p, front, [p - k, 0], k)
    ensures Ends(p, tr, [p, 0], 0)
    decreases k
  {
    if k == 0 {
      tr := front;
    } else {
      CrowdLeaves(p - k, k);
      var longer := Extend(p, front, State([p - k + 1, 0], Crowd(k - 1)));
      tr := Uses(p, longer, k - 1);
    }
  }
}
