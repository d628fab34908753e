/** Route lookup through the cache (internal/router/cache.go, routes.go): a lookup as one
    function, the mutable router proved against it, and where the cache is transparent. */
module Router {
  import opened Basics
  import opened HostName
  import opened RouteTable
  import opened Routing

  // The first matching rule decides; this is what the cache speeds up.
  ghost function FirstMatch(o: Oracles, routes: seq<Route>, key: string): Option<Egress> {
    if routes == [] then None
    else if Matches(o, routes[0], key) then Some(routes[0].destination)
    else FirstMatch(o, routes[1..], key)
  }

  // Rule `i` is the first that matches the key.
  ghost predicate Decider(o: Oracles, routes: seq<Route>, key: string, i: nat) {
    i < |routes| && Matches(o, routes[i], key) && forall j :: 0 <= j < i ==> !Matches(o, routes[j], key)
  }

  /** What a routing decision is: the destination of the first rule that matches, or none when no rule does. */
  ghost predicate Decides(o: Oracles, routes: seq<Route>, key: string, decision: Option<Egress>) {
    match decision
    case Some(d) => exists i: nat :: Decider(o, routes, key, i) && routes[i].destination == d
    case None => forall i :: 0 <= i < |routes| ==> !Matches(o, routes[i], key)
  }

  /** `FirstMatch` is that decision, and no other is. */
  lemma FirstMatchIff(o: Oracles, routes: seq<Route>, key: string, decision: Option<Egress>)
    ensures Decides(o, routes, key, decision) <==> decision == FirstMatch(o, routes, key)
  {
    FirstMatchDecides(o, routes, key);
    if Decides(o, routes, key, decision) { OneDecision(o, routes, key, decision, FirstMatch(o, routes, key)); }
  }

  lemma {:induction false} FirstMatchDecides(o: Oracles, routes: seq<Route>, key: string)
    ensures Decides(o, routes, key, FirstMatch(o, routes, key))
  {
    if routes != [] {
      if Matches(o, routes[0], key) {
        assert Decider(o, routes, key, 0);
      } else {
        FirstMatchDecides(o, routes[1..], key);
        DecidesBehind(o, routes, key, FirstMatch(o, routes[1..], key));
      }
    }
  }

  // A rule in front that does not match decides nothing.
  lemma DecidesBehind(o: Oracles, routes: seq<Route>, key: string, decision: Option<Egress>)
    requires routes != [] && !Matches(o, routes[0], key) && Decides(o, routes[1..], key, decision)
    ensures Decides(o, routes, key, decision)
  {
    var rest := routes[1..];
    assert forall i :: 0 < i < |routes| ==> routes[i] == rest[i - 1];
    if decision.Some? {
      var i: nat :| Decider(o, rest, key, i) && rest[i].destination == decision.value;
      assert Decider(o, routes, key, i + 1);
    }
  }

  lemma OneDecision(o: Oracles, routes: seq<Route>, key: string, d: Option<Egress>, e: Option<Egress>)
    requires Decides(o, routes, key, d) && Decides(o, routes, key, e)
    ensures d == e
  {
  }

  datatype Answer = Answer(table: seq<Item>, decision: Option<Egress>)

  /** GetRoute as a function of the cache content: hit on the normalised key, or scan with the key normalised
      again and remember the result under that second key. */
  ghost function RouteFor(o: Oracles, routes: seq<Route>, table: seq<Item>, maxSize: nat, dst: string): Answer
    requires maxSize > 0
  {
    var key := RouteKey(dst);
    if Lookup(table, key).Some? then Answer(GetList(table, key), Lookup(table, key))
    else match FirstMatch(o, routes, RouteKey(key))
      case Some(egress) => Answer(SetList(table, RouteKey(key), egress, maxSize), Some(egress))
      case None => Answer(table, None)
  }

  /** The cache content agrees with the rules: every cached key maps to the destination of the
      first rule matching that key. */
  ghost predicate Agrees(o: Oracles, routes: seq<Route>, table: seq<Item>) {
    forall k {:trigger Lookup(table, k)} :: Lookup(table, k).Some? ==> Lookup(table, k) == FirstMatch(o, routes, k)
  }

  predicate Bounded(table: seq<Item>, maxSize: nat) { maxSize > 0 && |table| <= maxSize && Distinct(table) }

  lemma EmptyAgrees(o: Oracles, routes: seq<Route>)
    ensures Agrees(o, routes, [])
  {
    forall k ensures Lookup([], k).None? { IndexOfIs([], k); }
  }

  lemma GetListSame(v: seq<Item>, k: string)
    requires Distinct(v)
    ensures Distinct(GetList(v, k)) && |GetList(v, k)| == |v|
    ensures forall q {:trigger Lookup(GetList(v, k), q)} :: Lookup(GetList(v, k), q) == Lookup(v, q)
  {
    IndexOfIs(v, k);
    var w := GetList(v, k);
    forall q ensures Lookup(w, q) == Lookup(v, q) {
      IndexOfIs(v, q);
      IndexOfIs(w, q);
      if IndexOf(v, q) >= 0 { assert w[IndexOf(v, q)].key == q; }
      if IndexOf(w, q) >= 0 { assert v[IndexOf(w, q)].key == q; }
    }
  }

  lemma SetAgrees(o: Oracles, routes: seq<Route>, table: seq<Item>, maxSize: nat, k: string, egress: Egress)
    requires Bounded(table, maxSize) && Agrees(o, routes, table) && FirstMatch(o, routes, k) == Some(egress)
    ensures Bounded(SetList(table, k, egress, maxSize), maxSize)
    ensures Agrees(o, routes, SetList(table, k, egress, maxSize))
  {
    SetListCorrect(table, k, egress, maxSize);
  }

  lemma GetAgrees(o: Oracles, routes: seq<Route>, table: seq<Item>, maxSize: nat, k: string)
    requires Bounded(table, maxSize) && Agrees(o, routes, table)
    ensures Bounded(GetList(table, k), maxSize) && Agrees(o, routes, GetList(table, k))
  {
    GetListSame(table, k);
  }

  /** Lookups keep the agreement. */
  lemma LookupAgrees(o: Oracles, routes: seq<Route>, table: seq<Item>, maxSize: nat, dst: string)
    requires Bounded(table, maxSize) && Agrees(o, routes, table)
    ensures var a := RouteFor(o, routes, table, maxSize, dst); Bounded(a.table, maxSize) && Agrees(o, routes, a.table)
  {
    var key := RouteKey(dst);
    if Lookup(table, key).Some? {
      GetAgrees(o, routes, table, maxSize, key);
    } else if FirstMatch(o, routes, RouteKey(key)).Some? {
      SetAgrees(o, routes, table, maxSize, RouteKey(key), FirstMatch(o, routes, RouteKey(key)).value);
    }
  }

  /** Cache transparency: with any agreeing cache a host that settles gets the decision it gets
      with an empty cache, which is that of the first matching rule. */
  lemma Transparent(o: Oracles, routes: seq<Route>, table: seq<Item>, maxSize: nat, dst: string)
    requires Bounded(table, maxSize) && Agrees(o, routes, table) && Settles(dst)
    ensures RouteFor(o, routes, table, maxSize, dst).decision == RouteFor(o, routes, [], maxSize, dst).decision
    ensures Decides(o, routes, RouteKey(dst), RouteFor(o, routes, table, maxSize, dst).decision)
  {
    FirstMatchDecides(o, routes, RouteKey(dst));
    RouteKeyIdempotentIff(dst);
    EmptyAgrees(o, routes);
  }

  // The cache content after looking up `warmups` one after the other, starting empty.
  ghost function Warmed(o: Oracles, routes: seq<Route>, maxSize: nat, warmups: seq<string>): seq<Item>
    requires maxSize > 0
  {
    if warmups == [] then []
    else
      var n := |warmups| - 1;
      RouteFor(o, routes, Warmed(o, routes, maxSize, warmups[..n]), maxSize, warmups[n]).table
  }

  lemma {:induction false} WarmedAgrees(o: Oracles, routes: seq<Route>, maxSize: nat, warmups: seq<string>)
    requires maxSize > 0
    ensures Bounded(Warmed(o, routes, maxSize, warmups), maxSize)
    ensures Agrees(o, routes, Warmed(o, routes, maxSize, warmups))
  {
    if warmups == [] {
      EmptyAgrees(o, routes);
    } else {
      WarmedAgrees(o, routes, maxSize, warmups[..|warmups| - 1]);
      LookupAgrees(o, routes, Warmed(o, routes, maxSize, warmups[..|warmups| - 1]), maxSize, warmups[|warmups| - 1]);
    }
  }

  // Whatever was looked up before, under whatever rules, the cache does not change the decision.
  ghost predicate AlwaysTransparent(dst: string) {
    forall o: Oracles, routes: seq<Route>, maxSize: nat, warmups: seq<string>
      {:trigger Warmed(o, routes, maxSize, warmups)} ::
      maxSize > 0 ==>
        RouteFor(o, routes, Warmed(o, routes, maxSize, warmups), maxSize, dst).decision ==
        RouteFor(o, routes, [], maxSize, dst).decision
  }

  /** Exactly the hosts that settle are always decided as with an empty cache. */
  lemma TransparentIff(dst: string)
    ensures AlwaysTransparent(dst) <==> Settles(dst)
  {
    if Settles(dst) {
      forall o: Oracles, routes: seq<Route>, maxSize: nat, warmups: seq<string> | maxSize > 0
        ensures RouteFor(o, routes, Warmed(o, routes, maxSize, warmups), maxSize, dst).decision ==
                RouteFor(o, routes, [], maxSize, dst).decision
      {
        WarmedAgrees(o, routes, maxSize, warmups);
        Transparent(o, routes, Warmed(o, routes, maxSize, warmups), maxSize, dst);
      }
    } else {
      var o, routes, warm := UnsettledDiffers(dst);
      assert Warmed(o, routes, 1, [warm]) == RouteFor(o, routes, [], 1, warm).table by { assert [warm][..0] == []; }
    }
  }

  // A rule that tells the two normal forms of the host apart, in front of a default.
  function Telling(host: string): (Oracles, seq<Route>) {
    (Oracles(_ => false, _ => true, (_, _) => false, _ => true, (_, s) => s == host),
     [Generated(Route(["x"], "block", TypeRegex, NO_CACHE)), Generated(Route([], "direct", TypeDefault, NO_CACHE))])
  }

  /** For every host that does not settle: rules and an earlier lookup after which the decision
      for it differs from the one an empty cache gives. */
  lemma UnsettledDiffers(dst: string) returns (o: Oracles, routes: seq<Route>, warm: string)
    requires !Settles(dst)
    ensures warm == NormalizeHost(dst) + ". ."
    ensures var warmed := RouteFor(o, routes, [], 1, warm).table;
            RouteFor(o, routes, warmed, 1, dst).decision != RouteFor(o, routes, [], 1, dst).decision
  {
    var n := NormalizeHost(dst);
    WarmHost(dst);
    warm := n + ". .";
    var t := Telling(n);
    o, routes := t.0, t.1;
    TellingDecides(n, n);
    TellingDecides(n, RouteKey(n));
    EmptyAgrees(o, routes);
    SetListCorrect([], n, "block", 1);
  }

  lemma TellingDecides(host: string, key: string)
    ensures FirstMatch(Telling(host).0, Telling(host).1, key) == Some(if key == host then "block" else "direct")
  {
    var o, routes := Telling(host).0, Telling(host).1;
    assert TrimSpace("x") == "x" by { TrimSpaceIs("x"); }
    assert Patterns(["x"]) == ["x"] by { assert ["x"][1..] == []; }
    assert routes[0].cache.regexes == ["x"];
    assert Matches(o, routes[0], key) <==> key == host by {
      if key == host { assert "x" in routes[0].cache.regexes && o.matches("x", key); }
    }
    assert routes[1..][0] == routes[1];
  }

  /** One such host, written out: rules under which "a ." is decided differently after a lookup of "a . .". */
  lemma InnerSpaceExample() returns (o: Oracles, routes: seq<Route>)
    ensures var warmed := RouteFor(o, routes, [], 1, "a . .").table;
            RouteFor(o, routes, warmed, 1, "a .").decision != RouteFor(o, routes, [], 1, "a .").decision
  {
    InnerSpaceForm();
    o, routes := DiffersAfter("a .", "a . .");
  }

  lemma DiffersAfter(dst: string, warm: string) returns (o: Oracles, routes: seq<Route>)
    requires !Settles(dst) && warm == NormalizeHost(dst) + ". ."
    ensures var warmed := RouteFor(o, routes, [], 1, warm).table;
            RouteFor(o, routes, warmed, 1, dst).decision != RouteFor(o, routes, [], 1, dst).decision
  {
    var w;
    o, routes, w := UnsettledDiffers(dst);
  }

  lemma InnerSpaceForm()
    ensures !Settles("a .") && NormalizeHost("a .") + ". ." == "a . ."
  {
    TrimSpaceIs("a .");
    assert TrimDots("a .") == "a " by { assert "a ."[..2] == "a "; }
    LowerIdentity("a ");
    assert "a "[0] == 'a' && "a "[1] == ' ';
  }

  // --- The mutable router ------------------------------------------------------------------------

  ghost predicate AllGenerated(o: Oracles, routes: seq<Route>) {
    forall i :: 0 <= i < |routes| ==> routes[i].cache == Built(routes[i]) && Compiles(o, routes[i])
  }

  class RouterState {
    var routesCache: seq<RouteRule>
    var routesVersion: nat
    const table: Table

    ghost function Routes(): (r: seq<Route>)
      reads this, routesCache
      ensures |r| == |routesCache| && forall i :: 0 <= i < |r| ==> r[i] == routesCache[i].Value()
    {
      seq(|routesCache|, i requires 0 <= i < |routesCache| reads this, routesCache => routesCache[i].Value())
    }

    /** The cache is in order, every rule is compiled, and the cache agrees with the rules. */
    ghost predicate Valid(o: Oracles)
      reads this, routesCache, table, table.Entries()
    {
      table.Linked() && AllGenerated(o, Routes()) && Agrees(o, Routes(), table.View())
    }

    constructor ()
      ensures routesCache == [] && routesVersion == 0 && fresh(table)
      ensures table.Linked() && table.View() == [] && table.maxSize == 10000
      ensures forall o :: Valid(o)
    {
      routesCache, routesVersion := [], 0;
      table := new Table(10000);
      new;
      forall o ensures Valid(o) { EmptyAgrees(o, Routes()); }
    }

    // The first-match scan of Routes.GetRoute.
    method ScanRoutes(o: Oracles, key: string) returns (found: Option<Egress>)
      ensures Decides(o, Routes(), key, found) && found == FirstMatch(o, Routes(), key)
    {
      FirstMatchDecides(o, Routes(), key);
      for i := 0 to |routesCache|
        invariant FirstMatch(o, Routes(), key) == FirstMatch(o, Routes()[i..], key)
      {
        assert Routes()[i..][0] == routesCache[i].Value() && Routes()[i..][1..] == Routes()[i + 1..];
        var matched := routesCache[i].Match(o, key);
        if matched {
          return Some(routesCache[i].destination);
        }
      }
      return None;
    }

    // The slow path: scan, and remember the result under the key scanned for.
    method ScanAndRemember(o: Oracles, key: string) returns (decision: Option<Egress>)
      requires Valid(o)
      modifies table, table.Entries()
      ensures routesCache == old(routesCache) && routesVersion == old(routesVersion) && Routes() == old(Routes())
      ensures Valid(o) && decision == FirstMatch(o, Routes(), key)
      ensures table.View() ==
              if decision.Some? then SetList(old(table.View()), key, decision.value, table.maxSize)
              else old(table.View())
    {
      decision := ScanRoutes(o, key);
      if decision.Some? { Remember(o, key, decision.value); }
    }

    method Remember(o: Oracles, key: string, egress: Egress)
      requires Valid(o) && FirstMatch(o, Routes(), key) == Some(egress)
      modifies table, table.Entries()
      ensures routesCache == old(routesCache) && routesVersion == old(routesVersion) && Routes() == old(Routes())
      ensures Valid(o) && table.View() == SetList(old(table.View()), key, egress, table.maxSize)
    {
      table.LinkedBounded();
      ghost var routes, after := Routes(), SetList(table.View(), key, egress, table.maxSize);
      SetAgrees(o, routes, table.View(), table.maxSize, key, egress);
      Store(key, egress);
      assert Routes() == routes && table.View() == after;
    }

    // The rules are no part of the table.
    method Store(key: string, egress: Egress)
      requires table.Linked()
      modifies table, table.Entries()
      ensures routesCache == old(routesCache) && routesVersion == old(routesVersion) && Routes() == old(Routes())
      ensures table.Linked() && table.View() == SetList(old(table.View()), key, egress, table.maxSize)
    {
      ghost var routes, cached := Routes(), routesCache;
      table.Set(key, egress);
      assert routesCache == cached && forall i :: 0 <= i < |cached| ==> cached[i].Value() == routes[i];
    }

    // The fast path: the cache, which a hit does not change but for its reference bit.
    method Cached(o: Oracles, key: string) returns (hit: Option<Egress>)
      requires Valid(o)
      modifies table.Entries()
      ensures routesCache == old(routesCache) && routesVersion == old(routesVersion) && Routes() == old(Routes())
      ensures Valid(o) && hit == Lookup(old(table.View()), key)
      ensures table.View() == if hit.Some? then GetList(old(table.View()), key) else old(table.View())
    {
      table.LinkedBounded();
      GetAgrees(o, Routes(), table.View(), table.maxSize, key);
      MissChangesNothing(table.View(), key);
      hit := table.Get(key);
    }

    method GetRoute(o: Oracles, dst: string) returns (decision: Option<Egress>)
      requires Valid(o)
      modifies table, table.Entries()
      ensures routesCache == old(routesCache) && routesVersion == old(routesVersion) && Routes() == old(Routes())
      ensures Valid(o)
      ensures Answer(table.View(), decision) == RouteFor(o, Routes(), old(table.View()), table.maxSize, dst)
      ensures Settles(dst) ==> Decides(o, Routes(), RouteKey(dst), decision)
    {
      FirstMatchDecides(o, Routes(), RouteKey(dst));
      var key := RouteKey(dst);
      RouteKeyIdempotentIff(dst);
      assert Lookup(table.View(), key).Some? ==> Lookup(table.View(), key) == FirstMatch(o, Routes(), key);
      decision := Cached(o, key);
      if decision.None? {
        decision := ScanAndRemember(o, RouteKey(key));
      }
    }

    // prepareRoutes: clone every rule and build its match cache; fail if one does not compile.
    method PrepareRoutes(o: Oracles, rules: seq<RouteRule>) returns (prepared: seq<RouteRule>, ok: bool)
      ensures ok <==> forall i :: 0 <= i < |rules| ==> Compiles(o, rules[i].Value())
      ensures ok ==> |prepared| == |rules| && fresh(prepared)
      ensures ok ==> forall i :: 0 <= i < |rules| ==> prepared[i].Value() == Generated(rules[i].Value())
    {
      prepared := [];
      for i := 0 to |rules|
        invariant |prepared| == i && fresh(prepared)
        invariant forall j :: 0 <= j < i ==> Compiles(o, rules[j].Value())
        invariant forall j :: 0 <= j < i ==> prepared[j].Value() == Generated(rules[j].Value())
      {
        var clone := new RouteRule(rules[i].sources, rules[i].destination, rules[i].matchType);
        var built := clone.GenerateCache(o);
        if !built {
          return prepared, false;
        }
        prepared := prepared + [clone];
      }
      return prepared, true;
    }

    // What AddToFirstRoute, AddToLastRoute and SetRoutes do under the lock, with their new list.
    method Install(o: Oracles, rules: seq<RouteRule>, ghost values: seq<Route>)
      requires table.Linked() && AllGenerated(o, values)
      requires |values| == |rules| && forall i :: 0 <= i < |rules| ==> rules[i].Value() == values[i]
      modifies this`routesCache, this`routesVersion, table
      ensures Valid(o) && Routes() == values && routesVersion == old(routesVersion) + 1 && table.View() == []
    {
      routesCache := rules;
      routesVersion := routesVersion + 1;
      table.Reset();
      assert Routes() == values;
      EmptyAgrees(o, values);
    }

    method AddToFirstRoute(o: Oracles, r: RouteRule) returns (ok: bool)
      requires Valid(o)
      modifies this`routesCache, this`routesVersion, table
      ensures ok == Compiles(o, r.Value()) && Valid(o)
      ensures ok ==> Routes() == [Generated(r.Value())] + old(Routes())
      ensures ok ==> routesVersion == old(routesVersion) + 1 && table.View() == []
      ensures !ok ==> Routes() == old(Routes()) && routesVersion == old(routesVersion)
      ensures !ok ==> table.View() == old(table.View())
    {
      ghost var rules, view := Routes(), table.View();
      var prepared, valid := PrepareRoutes(o, [r]);
      assert Routes() == rules && table.View() == view;
      ok := valid;
      if ok {
        assert [r][0] == r;
        Install(o, prepared + routesCache, [Generated(r.Value())] + Routes());
      }
    }

    method AddToLastRoute(o: Oracles, r: RouteRule) returns (ok: bool)
      requires Valid(o)
      modifies this`routesCache, this`routesVersion, table
      ensures ok == Compiles(o, r.Value()) && Valid(o)
      ensures ok ==> Routes() == old(Routes()) + [Generated(r.Value())]
      ensures ok ==> routesVersion == old(routesVersion) + 1 && table.View() == []
      ensures !ok ==> Routes() == old(Routes()) && routesVersion == old(routesVersion)
      ensures !ok ==> table.View() == old(table.View())
    {
      ghost var rules, view := Routes(), table.View();
      var prepared, valid := PrepareRoutes(o, [r]);
      assert Routes() == rules && table.View() == view;
      ok := valid;
      if ok {
        assert [r][0] == r;
        Install(o, routesCache + prepared, Routes() + [Generated(r.Value())]);
      }
    }

    method SetRoutes(o: Oracles, rules: seq<RouteRule>) returns (ok: bool)
      requires Valid(o)
      modifies this`routesCache, this`routesVersion, table
      ensures ok <==> forall i :: 0 <= i < |rules| ==> Compiles(o, rules[i].Value())
      ensures Valid(o)
      ensures ok ==> |Routes()| == |rules|
      ensures ok ==> forall i :: 0 <= i < |rules| ==> Routes()[i] == Generated(rules[i].Value())
      ensures ok ==> routesVersion == old(routesVersion) + 1 && table.View() == []
      ensures !ok ==> Routes() == old(Routes()) && routesVersion == old(routesVersion)
      ensures !ok ==> table.View() == old(table.View())
    {
      ghost var before, view := Routes(), table.View();
      var prepared, valid := PrepareRoutes(o, rules);
      assert Routes() == before && table.View() == view;
      ok := valid;
      if ok {
        ghost var values := seq(|rules|, i requires 0 <= i < |rules| reads rules => Generated(rules[i].Value()));
        Install(o, prepared, values);
      }
    }
  }

  // A miss leaves the list as it is.
  lemma MissChangesNothing(v: seq<Item>, k: string)
    ensures Lookup(v, k).None? ==> GetList(v, k) == v
  {
    IndexOfIs(v, k);
  }
}
