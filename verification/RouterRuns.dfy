/** The router under concurrency (internal/router/cache.go): lookups share a read lock, edits
    take the write lock, and a rebuild works on a snapshot and publishes only if no writer came
    in between.  A section under the write lock is one step, possible only while nobody reads. */
module RouterRuns {
  import opened Basics
  import opened HostName
  import opened RouteTable
  import opened Routing
  import opened Router

  datatype Edit = ToFront(route: Route) | ToBack(route: Route) | Replace(routes: seq<Route>)

  datatype Pc =
    // GetRoute; from Holding to Leaving the read lock is held
    | Starting(dst: string) | Holding(dst: string) | Missed(dst: string)
    | Found(dst: string, key: string, egress: Egress) | Leaving(dst: string, decision: Option<Egress>)
    | Decided(dst: string, decision: Option<Egress>, under: seq<Route>)
    // GenerateCache
    | Rebuilding(tries: nat) | Snapped(snapshot: seq<Route>, version: nat, tries: nat)
    | Rebuilt(snapshot: seq<Route>, version: nat, tries: nat) | Published | RebuildFailed
    // AddToFirstRoute, AddToLastRoute, SetRoutes
    | Edited

  // `log` lists the threads that changed the version, `edits` the edits that took effect.
  datatype State = State(routes: seq<Route>, version: nat, table: seq<Item>, maxSize: nat,
                         threads: map<nat, Pc>, log: seq<nat>, edits: seq<Edit>)

  predicate Reads(pc: Pc) { pc.Holding? || pc.Missed? || pc.Found? || pc.Leaving? }

  ghost predicate NoReader(s: State) { forall t :: t in s.threads ==> !Reads(s.threads[t]) }

  function AllClones(routes: seq<Route>): (r: seq<Route>)
    ensures |r| == |routes| && forall i :: 0 <= i < |r| ==> r[i] == Cloned(routes[i])
  {
    seq(|routes|, i requires 0 <= i < |routes| => Cloned(routes[i]))
  }

  function GenerateAll(routes: seq<Route>): (r: seq<Route>)
    ensures |r| == |routes| && forall i :: 0 <= i < |r| ==> r[i] == Generated(routes[i])
  {
    seq(|routes|, i requires 0 <= i < |routes| => Generated(routes[i]))
  }

  ghost predicate AllCompile(o: Oracles, routes: seq<Route>) {
    forall i :: 0 <= i < |routes| ==> Compiles(o, routes[i])
  }

  function Prepared(routes: seq<Route>): seq<Route> { GenerateAll(AllClones(routes)) }

  ghost predicate EditCompiles(o: Oracles, e: Edit) {
    match e
    case ToFront(r) => Compiles(o, r)
    case ToBack(r) => Compiles(o, r)
    case Replace(rs) => AllCompile(o, rs)
  }

  function Applied(routes: seq<Route>, e: Edit): seq<Route> {
    match e
    case ToFront(r) => Prepared([r]) + routes
    case ToBack(r) => routes + Prepared([r])
    case Replace(rs) => Prepared(rs)
  }

  function Replay(edits: seq<Edit>): seq<Route> {
    if edits == [] then [] else Applied(Replay(edits[..|edits| - 1]), edits[|edits| - 1])
  }

  ghost predicate Init(s: State) {
    && s.routes == [] && s.version == 0 && s.table == [] && s.maxSize > 0
    && s.threads == map[] && s.log == [] && s.edits == []
  }

  ghost predicate Spawn(s: State, s': State, t: nat, pc: Pc) {
    t !in s.threads && (pc.Starting? || pc == Rebuilding(0)) && s' == s.(threads := s.threads[t := pc])
  }

  // One lookup, step by step.
  ghost predicate Read(o: Oracles, s: State, s': State, t: nat) {
    && t in s.threads && s.maxSize > 0
    && match s.threads[t]
       case Starting(dst) => s' == s.(threads := s.threads[t := Holding(dst)])
       case Holding(dst) =>
         var hit := Lookup(s.table, RouteKey(dst));
         s' == s.(table := GetList(s.table, RouteKey(dst)),
                  threads := s.threads[t := if hit.Some? then Leaving(dst, hit) else Missed(dst)])
       case Missed(dst) =>
         var key := RouteKey(RouteKey(dst));
         var found := FirstMatch(o, s.routes, key);
         s' == s.(threads := s.threads[t := if found.Some? then Found(dst, key, found.value) else Leaving(dst, None)])
       case Found(dst, key, egress) =>
         s' == s.(table := SetList(s.table, key, egress, s.maxSize),
                  threads := s.threads[t := Leaving(dst, Some(egress))])
       case Leaving(dst, decision) => s' == s.(threads := s.threads[t := Decided(dst, decision, s.routes)])
       case _ => false
  }

  ghost predicate EditRoutes(o: Oracles, s: State, s': State, t: nat, e: Edit) {
    && t !in s.threads && NoReader(s) && EditCompiles(o, e)
    && s' == s.(routes := Applied(s.routes, e), version := s.version + 1, table := [],
                threads := s.threads[t := Edited], log := s.log + [t], edits := s.edits + [e])
  }

  // One round of GenerateCache: snapshot under the read lock, rebuild outside, compare and
  // publish under the write lock.
  ghost predicate Rebuild(o: Oracles, s: State, s': State, t: nat) {
    && t in s.threads
    && match s.threads[t]
       case Rebuilding(n) => s' == s.(threads := s.threads[t := Snapped(AllClones(s.routes), s.version, n)])
       case Snapped(rs, v, n) =>
         var next := if AllCompile(o, rs) then Rebuilt(GenerateAll(rs), v, n) else RebuildFailed;
         s' == s.(threads := s.threads[t := next])
       case Rebuilt(rs, v, n) =>
         && NoReader(s)
         && s' == if v != s.version then s.(threads := s.threads[t := Rebuilding(n + 1)])
                  else s.(routes := rs, version := s.version + 1, table := [],
                          threads := s.threads[t := Published], log := s.log + [t])
       case _ => false
  }

  ghost predicate Next(o: Oracles, s: State, s': State) {
    || (exists t, pc :: Spawn(s, s', t, pc)) || (exists t :: Read(o, s, s', t))
    || (exists t, e :: EditRoutes(o, s, s', t, e)) || (exists t :: Rebuild(o, s, s', t))
  }

  ghost predicate Run(o: Oracles, tr: seq<State>) {
    && |tr| > 0 && Init(tr[0])
    && forall i, j :: 0 <= i && i + 1 == j < |tr| ==> Next(o, tr[i], tr[j])
  }

  // --- Invariant -------------------------------------------------------------------------------

  // What a decision may be: the first match of the key, or of the key normalised once more.
  ghost predicate Plausible(o: Oracles, routes: seq<Route>, dst: string, decision: Option<Egress>) {
    decision == FirstMatch(o, routes, RouteKey(dst)) || decision == FirstMatch(o, routes, RouteKey(RouteKey(dst)))
  }

  ghost predicate ThreadOk(o: Oracles, s: State, pc: Pc) {
    match pc
    case Found(dst, key, egress) => key == RouteKey(RouteKey(dst)) && FirstMatch(o, s.routes, key) == Some(egress)
    case Leaving(dst, decision) => Plausible(o, s.routes, dst, decision)
    case Decided(dst, decision, under) => Plausible(o, under, dst, decision)
    case Rebuilding(n) => n <= s.version
    case Snapped(rs, v, n) => n <= v <= s.version && (v == s.version ==> rs == AllClones(s.routes))
    case Rebuilt(rs, v, n) => n <= v <= s.version && (v == s.version ==> rs == s.routes)
    case _ => true
  }

  ghost predicate ThreadsOk(o: Oracles, s: State) {
    forall t {:trigger ThreadOk(o, s, s.threads[t])} :: t in s.threads ==> ThreadOk(o, s, s.threads[t])
  }

  // Every change of version is the last act of its thread.
  ghost predicate LogOk(s: State) {
    && |s.log| == s.version
    && forall i :: 0 <= i < |s.log| ==>
         s.log[i] in s.threads && (s.threads[s.log[i]] == Edited || s.threads[s.log[i]] == Published)
  }

  ghost predicate TableOk(o: Oracles, s: State) { Bounded(s.table, s.maxSize) && Agrees(o, s.routes, s.table) }

  ghost predicate RoutesOk(o: Oracles, s: State) { AllGenerated(o, s.routes) && s.routes == Replay(s.edits) }

  ghost predicate Inv(o: Oracles, s: State) { TableOk(o, s) && RoutesOk(o, s) && LogOk(s) && ThreadsOk(o, s) }

  // --- Preservation ------------------------------------------------------------------------------

  // A thread that is not involved keeps its standing while nothing but the cache changes.
  lemma ThreadsFrame(o: Oracles, s: State, s': State, t: nat)
    requires ThreadsOk(o, s) && s'.routes == s.routes && s'.version == s.version
    requires forall u :: u in s'.threads && u != t ==> u in s.threads && s'.threads[u] == s.threads[u]
    requires t in s'.threads ==> ThreadOk(o, s', s'.threads[t])
    ensures ThreadsOk(o, s')
  {
    forall u | u in s'.threads ensures ThreadOk(o, s', s'.threads[u]) {
      if u != t { assert ThreadOk(o, s, s.threads[u]); }
    }
  }

  lemma SpawnKeeps(o: Oracles, s: State, s': State, t: nat, pc: Pc)
    requires Inv(o, s) && Spawn(s, s', t, pc)
    ensures Inv(o, s')
  {
    ThreadsFrame(o, s, s', t);
  }

  lemma ReadKeeps(o: Oracles, s: State, s': State, t: nat)
    requires Inv(o, s) && Read(o, s, s', t)
    ensures Inv(o, s')
  {
    assert ThreadOk(o, s, s.threads[t]);
    match s.threads[t] {
      case Holding(dst) => GetAgrees(o, s.routes, s.table, s.maxSize, RouteKey(dst));
      case Found(dst, key, egress) => SetAgrees(o, s.routes, s.table, s.maxSize, key, egress);
      case _ =>
    }
    ThreadsFrame(o, s, s', t);
  }

  lemma PreparedGenerated(o: Oracles, routes: seq<Route>)
    requires AllCompile(o, routes)
    ensures AllGenerated(o, Prepared(routes))
  {
    forall i | 0 <= i < |routes| ensures Compiles(o, Prepared(routes)[i]) {
      assert Prepared(routes)[i] == Generated(Cloned(routes[i])) == Generated(routes[i]);
    }
  }

  // A clone rebuilt is the rule it was cloned from, for rules as they are installed.
  lemma RebuildIdentity(o: Oracles, routes: seq<Route>)
    requires AllGenerated(o, routes)
    ensures GenerateAll(AllClones(routes)) == routes
  {
  }

  lemma AppliedGenerated(o: Oracles, routes: seq<Route>, e: Edit)
    requires AllGenerated(o, routes) && EditCompiles(o, e)
    ensures AllGenerated(o, Applied(routes, e))
  {
    match e
    case ToFront(r) =>
      PreparedGenerated(o, [r]);
      BothGenerated(o, Prepared([r]), routes);
    case ToBack(r) =>
      PreparedGenerated(o, [r]);
      BothGenerated(o, routes, Prepared([r]));
    case Replace(rs) => PreparedGenerated(o, rs);
  }

  lemma BothGenerated(o: Oracles, a: seq<Route>, b: seq<Route>)
    requires AllGenerated(o, a) && AllGenerated(o, b)
    ensures AllGenerated(o, a + b)
  {
  }

  lemma ReplayMore(edits: seq<Edit>, e: Edit)
    ensures Replay(edits + [e]) == Applied(Replay(edits), e)
  {
    assert (edits + [e])[..|edits|] == edits;
  }

  lemma EditRoutesOk(o: Oracles, s: State, s': State, t: nat, e: Edit)
    requires RoutesOk(o, s) && EditRoutes(o, s, s', t, e)
    ensures RoutesOk(o, s')
  {
    AppliedGenerated(o, s.routes, e);
    ReplayMore(s.edits, e);
  }

  lemma EditLog(o: Oracles, s: State, s': State, t: nat, e: Edit)
    requires LogOk(s) && EditRoutes(o, s, s', t, e)
    ensures LogOk(s')
  {
  }

  // A new version: pending snapshots become outdated, and nobody is reading.
  lemma ThreadsOutdated(o: Oracles, s: State, s': State, t: nat)
    requires ThreadsOk(o, s) && NoReader(s) && s'.version == s.version + 1
    requires t in s'.threads && (s'.threads[t] == Edited || s'.threads[t] == Published)
    requires forall u :: u in s'.threads && u != t ==> u in s.threads && s'.threads[u] == s.threads[u]
    ensures ThreadsOk(o, s')
  {
    forall u | u in s'.threads ensures ThreadOk(o, s', s'.threads[u]) {
      if u != t { assert ThreadOk(o, s, s.threads[u]) && !Reads(s.threads[u]); }
    }
  }

  lemma EditKeeps(o: Oracles, s: State, s': State, t: nat, e: Edit)
    requires Inv(o, s) && EditRoutes(o, s, s', t, e)
    ensures Inv(o, s')
  {
    EditRoutesOk(o, s, s', t, e);
    EditLog(o, s, s', t, e);
    EmptyAgrees(o, s'.routes);
    ThreadsOutdated(o, s, s', t);
  }

  lemma RebuildKeeps(o: Oracles, s: State, s': State, t: nat)
    requires Inv(o, s) && Rebuild(o, s, s', t)
    ensures Inv(o, s')
  {
    assert ThreadOk(o, s, s.threads[t]);
    if s.threads[t].Rebuilt? && s.threads[t].version == s.version {
      EmptyAgrees(o, s'.routes);
      ThreadsOutdated(o, s, s', t);
    } else {
      RebuildIdentity(o, s.routes);
      ThreadsFrame(o, s, s', t);
    }
  }

  lemma {:induction false} RunInv(o: Oracles, tr: seq<State>, i: nat)
    requires Run(o, tr) && i < |tr|
    ensures Inv(o, tr[i])
  {
    if i == 0 {
      EmptyAgrees(o, []);
    } else {
      RunInv(o, tr, i - 1);
      NextInv(o, tr[i - 1], tr[i]);
    }
  }

  lemma NextInv(o: Oracles, s: State, s': State)
    requires Inv(o, s) && Next(o, s, s')
    ensures Inv(o, s')
  {
    if t, pc :| Spawn(s, s', t, pc) {
      SpawnKeeps(o, s, s', t, pc);
    } else if t :| Read(o, s, s', t) {
      ReadKeeps(o, s, s', t);
    } else if t, e :| EditRoutes(o, s, s', t, e) {
      EditKeeps(o, s, s', t, e);
    } else {
      var t :| Rebuild(o, s, s', t);
      RebuildKeeps(o, s, s', t);
    }
  }

  // --- The theorems ---------------------------------------------------------------------------------

  /** In every state of every run each cached key maps to the destination of the first installed
      rule that matches it. */
  lemma CacheAlwaysAgrees(o: Oracles, tr: seq<State>, i: nat, k: string)
    requires Run(o, tr) && i < |tr| && Lookup(tr[i].table, k).Some?
    ensures Decides(o, tr[i].routes, k, Lookup(tr[i].table, k))
    ensures |tr[i].table| <= tr[i].maxSize
  {
    RunInv(o, tr, i);
    FirstMatchDecides(o, tr[i].routes, k);
  }

  // The thread looks up this host.
  predicate Serves(pc: Pc, dst: string) {
    match pc
    case Starting(d) => d == dst
    case Holding(d) => d == dst
    case Missed(d) => d == dst
    case Found(d, _, _) => d == dst
    case Leaving(d, _) => d == dst
    case Decided(d, _, _) => d == dst
    case _ => false
  }

  /** A concurrent lookup of a host that settles, from its start to its decision: it decided as a lookup with an empty
      cache does, by the first matching rule among those installed at a moment when it held the lock. */
  lemma DecisionsTransparent(o: Oracles, tr: seq<State>, i: nat, j: nat, t: nat, dst: string)
    requires Run(o, tr) && i <= j < |tr| && Settles(dst)
    requires t in tr[i].threads && tr[i].threads[t] == Starting(dst) && t in tr[j].threads && tr[j].threads[t].Decided?
    ensures var d := tr[j].threads[t];
            && Decides(o, d.under, RouteKey(dst), d.decision)
            && (forall maxSize: nat :: maxSize > 0 ==> d.decision == RouteFor(o, d.under, [], maxSize, dst).decision)
            && exists k :: i < k < j && HeldAt(tr, k, t, d.under)
  {
    RunInv(o, tr, j);
    var k := DecidedUnder(o, tr, i, j, t, dst);
    var d := tr[j].threads[t];
    assert ThreadOk(o, tr[j], d);
    RouteKeyIdempotentIff(dst);
    FirstMatchDecides(o, d.under, RouteKey(dst));
    EmptyAgrees(o, d.under);
  }

  // One step of a run, for a thread that looks up this host.
  ghost predicate Serving(s: State, s': State, t: nat, dst: string)
    requires t in s.threads
  {
    && t in s'.threads && Serves(s'.threads[t], dst)
    && (s'.threads[t] != s.threads[t] && s'.threads[t].Decided? ==>
          s.threads[t].Leaving? && s'.threads[t].under == s.routes)
  }

  lemma ReadServes(o: Oracles, s: State, s': State, u: nat, t: nat, dst: string)
    requires Read(o, s, s', u) && t in s.threads && Serves(s.threads[t], dst)
    ensures Serving(s, s', t, dst)
  {
  }

  lemma OtherServes(o: Oracles, s: State, s': State, u: nat, t: nat, dst: string)
    requires t in s.threads && Serves(s.threads[t], dst)
    requires (exists pc :: Spawn(s, s', u, pc)) || (exists e :: EditRoutes(o, s, s', u, e)) || Rebuild(o, s, s', u)
    ensures Serving(s, s', t, dst)
  {
    assert u != t;
  }

  lemma ServesStep(o: Oracles, s: State, s': State, t: nat, dst: string)
    requires Next(o, s, s') && t in s.threads && Serves(s.threads[t], dst)
    ensures Serving(s, s', t, dst)
  {
    if u :| Read(o, s, s', u) {
      ReadServes(o, s, s', u, t, dst);
    } else if u :| Rebuild(o, s, s', u) {
      OtherServes(o, s, s', u, t, dst);
    } else if u, pc :| Spawn(s, s', u, pc) {
      OtherServes(o, s, s', u, t, dst);
    } else if u, e :| EditRoutes(o, s, s', u, e) {
      OtherServes(o, s, s', u, t, dst);
    }
  }

  // The thread holds the read lock, and these are the rules installed.
  ghost predicate HeldAt(tr: seq<State>, k: nat, t: nat, under: seq<Route>) {
    k < |tr| && t in tr[k].threads && Reads(tr[k].threads[t]) && tr[k].routes == under
  }

  lemma {:induction false} DecidedUnder(o: Oracles, tr: seq<State>, i: nat, j: nat, t: nat, dst: string)
    returns (k: nat)
    requires Run(o, tr) && i <= j < |tr| && t in tr[i].threads && tr[i].threads[t] == Starting(dst)
    ensures t in tr[j].threads && Serves(tr[j].threads[t], dst)
    ensures tr[j].threads[t].Decided? ==> i < k < j && HeldAt(tr, k, t, tr[j].threads[t].under)
    decreases j
  {
    k := 0;
    if i < j {
      k := DecidedUnder(o, tr, i, j - 1, t, dst);
      StepServes(o, tr, j, t, dst);
      k := HeldBefore(tr, i, j, t, dst, k);
    }
  }

  lemma HeldBefore(tr: seq<State>, i: nat, j: nat, t: nat, dst: string, k: nat) returns (k': nat)
    requires i < j < |tr| && t in tr[i].threads && tr[i].threads[t] == Starting(dst)
    requires t in tr[j - 1].threads && Serving(tr[j - 1], tr[j], t, dst)
    requires tr[j - 1].threads[t].Decided? ==> i < k < j - 1 && HeldAt(tr, k, t, tr[j - 1].threads[t].under)
    ensures tr[j].threads[t].Decided? ==> i < k' < j && HeldAt(tr, k', t, tr[j].threads[t].under)
  {
    k' := if tr[j - 1].threads[t].Leaving? then j - 1 else k;
  }

  lemma StepServes(o: Oracles, tr: seq<State>, j: nat, t: nat, dst: string)
    requires Run(o, tr) && 0 < j < |tr| && t in tr[j - 1].threads && Serves(tr[j - 1].threads[t], dst)
    ensures Serving(tr[j - 1], tr[j], t, dst)
  {
    StepOf(o, tr, j);
    ServesStep(o, tr[j - 1], tr[j], t, dst);
  }

  /** From the moment a lookup has the lock until it leaves, the rules and their version stay the same, so the rules
      it decides under are those it found. */
  lemma {:induction false} RulesStableWhileReading(o: Oracles, tr: seq<State>, i: nat, j: nat, t: nat)
    requires Run(o, tr) && i <= j < |tr| && forall k :: i <= k <= j ==> t in tr[k].threads && Reads(tr[k].threads[t])
    ensures tr[j].routes == tr[i].routes && tr[j].version == tr[i].version
    decreases j
  {
    if i < j {
      RulesStableWhileReading(o, tr, i, j - 1, t);
      StepOf(o, tr, j);
      RulesStableStep(o, tr[j - 1], tr[j], t);
    }
  }

  lemma StepOf(o: Oracles, tr: seq<State>, i: nat)
    requires Run(o, tr) && 0 < i < |tr|
    ensures Next(o, tr[i - 1], tr[i])
  {
  }

  lemma RulesStableStep(o: Oracles, s: State, s': State, t: nat)
    requires Next(o, s, s') && t in s.threads && Reads(s.threads[t])
    ensures s'.routes == s.routes && s'.version == s.version
  {
  }

  /** No lost update: the installed rules are always the successful edits applied in order; a
      rebuild that publishes installs exactly what it replaces. */
  lemma NoLostUpdate(o: Oracles, tr: seq<State>, i: nat)
    requires Run(o, tr) && i < |tr|
    ensures tr[i].routes == Replay(tr[i].edits)
  {
    RunInv(o, tr, i);
  }

  /** What an edit does to the rules, whatever state it meets: all rules there were stay as they are, in order, behind
      or before the new one, or give way to the new list; the version rises and the cache is empty. */
  lemma EditTakesEffect(o: Oracles, s: State, s': State, t: nat, e: Edit)
    requires EditRoutes(o, s, s', t, e)
    ensures match e
            case ToFront(r) => s'.routes == [Generated(r)] + s.routes
            case ToBack(r) => s'.routes == s.routes + [Generated(r)]
            case Replace(rs) =>
              |s'.routes| == |rs| && forall i :: 0 <= i < |rs| ==> s'.routes[i] == Generated(rs[i])
    ensures s'.version == s.version + 1 && s'.table == [] && s'.edits == s.edits + [e]
  {
    match e
    case ToFront(r) => assert Prepared([r]) == [Generated(r)];
    case ToBack(r) => assert Prepared([r]) == [Generated(r)];
    case Replace(rs) =>
  }

  lemma PublishChangesNothing(o: Oracles, tr: seq<State>, i: nat, t: nat)
    requires Run(o, tr) && i + 1 < |tr| && Rebuild(o, tr[i], tr[i + 1], t)
    ensures tr[i + 1].routes == tr[i].routes && tr[i + 1].edits == tr[i].edits
    ensures tr[i + 1].threads[t] == Published ==> tr[i + 1].version == tr[i].version + 1 && tr[i + 1].table == []
  {
    RunInv(o, tr, i);
    assert ThreadOk(o, tr[i], tr[i].threads[t]);
  }

  /** A rebuild finds the version changed only because another thread's edit or rebuild succeeded
      since its snapshot, and it never retried more often than others succeeded. */
  lemma RetryIsSomeonesSuccess(o: Oracles, tr: seq<State>, i: nat, t: nat)
    requires Run(o, tr) && i < |tr| && t in tr[i].threads && tr[i].threads[t].Rebuilt?
    ensures var s, pc := tr[i], tr[i].threads[t];
            && pc.tries <= |s.log| && (forall j :: 0 <= j < |s.log| ==> s.log[j] != t)
            && (pc.version != s.version ==>
                  && pc.version < |s.log| && s.log[pc.version] in s.threads
                  && (s.threads[s.log[pc.version]] == Edited || s.threads[s.log[pc.version]] == Published))
  {
    RunInv(o, tr, i);
    assert ThreadOk(o, tr[i], tr[i].threads[t]);
  }
}
