/** What every run of the UDP relay keeps, and what is left when it has shut down. */
module UdpRelayProof {
  import opened Basics
  import opened ResourceLimiter
  import opened NatTable
  import opened UdpRelay
  import NatKey

  // --- Invariant: references -------------------------------------------------------------

  ghost predicate Owns(s: State, c: Call, e: nat) {
    && e in s.entries && s.entries[e].relay == c.relay
    && s.entries[e].clientAddr == c.clientAddr && s.entries[e].target == c.target
  }

  ghost predicate OutcomeOk(s: State, c: Call, o: Outcome) {
    o.Gave? ==>
      o.entry in s.entries && s.entries[o.entry].relay == c.relay && EntryKey(s.entries[o.entry]) == CallKey(c)
  }

  ghost predicate CallOk(s: State, c: Call) {
    && c.relay in s.relays && Exists(s.relays[c.relay]) && c.client == s.relays[c.relay].clientKey
    && match c.pc
       case Waiting(l) => l in s.calls && s.calls[l].relay == c.relay && CallKey(s.calls[l]) == CallKey(c)
       case Dialing(lim) => lim in s.natLims
       case Installing(e) => Owns(s, c, e)
       case Evicting(e, v) => Owns(s, c, e) && v in s.entries && s.entries[v].relay == c.relay
       case Recheck(e) => Owns(s, c, e)
       case Undoing(e) => Owns(s, c, e)
       case CloseOwn(e, o) => Owns(s, c, e) && OutcomeOk(s, c, o)
       case Returned(o) => OutcomeOk(s, c, o)
       case _ => true
  }

  ghost predicate RelayOk(s: State, r: nat, relay: Relay) {
    && relay.assocLim in s.assocLims && (relay.natLim.Some? ==> relay.natLim.value in s.natLims)
    && (!Exists(relay) ==> relay.table == map[])
    && (forall k :: k in relay.table ==>
          && relay.table[k] in s.entries && s.entries[relay.table[k]].relay == r
          && EntryKey(s.entries[relay.table[k]]) == k)
    && (relay.phase.Draining? ==> forall e :: e in relay.phase.todo ==> e in s.entries && s.entries[e].relay == r)
    && |relay.table| <= Limit(relay)
  }

  ghost predicate EntryOk(s: State, e: Entry) {
    e.relay in s.relays && Exists(s.relays[e.relay]) && e.lim in s.natLims && e.client == s.relays[e.relay].clientKey
  }

  ghost predicate ReverseOk(s: State, v: Reverse) {
    && v.relay in s.relays && v.entry in s.entries && s.entries[v.entry].relay == v.relay
    && v.key == EntryKey(s.entries[v.entry]) && v.clientAddr == s.entries[v.entry].clientAddr
    && (v.pc == RevDeleting || v.pc == Exited ==> s.entries[v.entry].status == Closed)
  }

  ghost predicate RelaysOk(s: State) {
    forall r {:trigger RelayOk(s, r, s.relays[r])} :: r in s.relays ==> RelayOk(s, r, s.relays[r])
  }

  ghost predicate EntriesOk(s: State) {
    forall e {:trigger EntryOk(s, s.entries[e])} :: e in s.entries ==> EntryOk(s, s.entries[e])
  }

  ghost predicate CallsOk(s: State) {
    forall t {:trigger CallOk(s, s.calls[t])} :: t in s.calls ==> CallOk(s, s.calls[t])
  }

  ghost predicate ReversesOk(s: State) {
    forall v {:trigger ReverseOk(s, s.reverses[v])} :: v in s.reverses ==> ReverseOk(s, s.reverses[v])
  }

  ghost predicate DeliveryOk(s: State, d: Delivery) { d.entry in s.entries && d.to == s.entries[d.entry].clientAddr }

  ghost predicate DeliveriesOk(s: State) {
    forall i {:trigger DeliveryOk(s, s.deliveries[i])} :: 0 <= i < |s.deliveries| ==> DeliveryOk(s, s.deliveries[i])
  }

  ghost predicate Refs(s: State) {
    && s.curNat in s.natLims && s.curAssoc in s.assocLims
    && RelaysOk(s) && EntriesOk(s) && CallsOk(s) && ReversesOk(s) && DeliveriesOk(s)
  }

  // --- Invariant: one flight per key ------------------------------------------------------

  predicate BeforeInstall(pc: Pc) { pc.Routing? || pc.Dialing? || pc.Installing? }

  predicate Exclusive(c: Call, d: Call) {
    !(c.relay == d.relay && CallKey(c) == CallKey(d) && InFlight(c.pc) && InFlight(d.pc))
  }

  ghost predicate KeyFree(relays: map<nat, Relay>, c: Call) {
    BeforeInstall(c.pc) && c.relay in relays ==> CallKey(c) !in relays[c.relay].table
  }

  ghost predicate OneFlight(calls: map<nat, Call>) {
    forall t, u {:trigger Exclusive(calls[t], calls[u])} ::
      t in calls && u in calls && t != u ==> Exclusive(calls[t], calls[u])
  }

  ghost predicate KeysFree(s: State) {
    forall t {:trigger KeyFree(s.relays, s.calls[t])} :: t in s.calls ==> KeyFree(s.relays, s.calls[t])
  }

  // --- Invariant: every open entry is somebody's to close ----------------------------------

  predicate MustClose(pc: Pc, e: nat) {
    || (pc.Installing? && pc.entry == e) || (pc.Evicting? && pc.victim == e)
    || (pc.Undoing? && pc.entry == e) || (pc.CloseOwn? && pc.entry == e)
  }

  predicate InTable(relays: map<nat, Relay>, e: nat, entry: Entry) {
    && entry.relay in relays && EntryKey(entry) in relays[entry.relay].table
    && relays[entry.relay].table[EntryKey(entry)] == e
  }

  predicate ToDrain(relays: map<nat, Relay>, e: nat, entry: Entry) {
    entry.relay in relays && relays[entry.relay].phase.Draining? && e in relays[entry.relay].phase.todo
  }

  ghost predicate CallMustClose(calls: map<nat, Call>, e: nat, entry: Entry) {
    exists t :: t in calls && MustClose(calls[t].pc, e) && calls[t].relay == entry.relay
  }

  ghost predicate ChargedAt(relays: map<nat, Relay>, calls: map<nat, Call>, e: nat, entry: Entry) {
    entry.status == Closed || InTable(relays, e, entry) || ToDrain(relays, e, entry) || CallMustClose(calls, e, entry)
  }

  ghost predicate Charged(s: State) {
    forall e {:trigger ChargedAt(s.relays, s.calls, e, s.entries[e])} ::
      e in s.entries ==> ChargedAt(s.relays, s.calls, e, s.entries[e])
  }

  // --- Invariant: after the drain, table entries are still being re-checked -----------------

  predicate WillRecheck(pc: Pc, e: nat) {
    (pc.Evicting? && pc.entry == e) || (pc.Recheck? && pc.entry == e) || (pc.Undoing? && pc.entry == e)
  }

  ghost predicate CallWillRecheck(calls: map<nat, Call>, r: nat, e: nat) {
    exists t :: t in calls && calls[t].relay == r && WillRecheck(calls[t].pc, e)
  }

  ghost predicate LateAt(calls: map<nat, Call>, r: nat, relay: Relay) {
    Drained(relay) ==> forall k :: k in relay.table ==> CallWillRecheck(calls, r, relay.table[k])
  }

  ghost predicate Late(s: State) {
    forall r {:trigger LateAt(s.calls, r, s.relays[r])} :: r in s.relays ==> LateAt(s.calls, r, s.relays[r])
  }

  // --- Invariant: the budget ---------------------------------------------------------------

  /** Dials between a granted acquisition and their entry, with the client they are charged to. */
  function Dials(calls: map<nat, Call>, lim: nat): map<nat, string> {
    map t | t in calls && calls[t].pc == Dialing(lim) :: calls[t].client
  }

  /** Entries that have not finished closing. */
  function Lives(entries: map<nat, Entry>, lim: nat): map<nat, string> {
    map e | e in entries && entries[e].lim == lim && entries[e].status != Closed :: entries[e].client
  }

  /** Associations that hold their unit. */
  function Associations(relays: map<nat, Relay>, lim: nat): map<nat, string> {
    map r | r in relays && relays[r].assocLim == lim && HoldsAssociation(relays[r]) :: relays[r].clientKey
  }

  ghost predicate NatBudgetAt(l: Limits, calls: map<nat, Call>, entries: map<nat, Entry>, lim: nat) {
    Sound(l) && Tallies(l, Dials(calls, lim), Lives(entries, lim))
  }

  ghost predicate NatBudget(s: State) {
    forall l {:trigger NatBudgetAt(s.natLims[l], s.calls, s.entries, l)} ::
      l in s.natLims ==> NatBudgetAt(s.natLims[l], s.calls, s.entries, l)
  }

  ghost predicate AssociationBudgetAt(l: Limits, relays: map<nat, Relay>, lim: nat) {
    Sound(l) && Tallies(l, Associations(relays, lim), map[])
  }

  ghost predicate AssociationBudget(s: State) {
    forall l {:trigger AssociationBudgetAt(s.assocLims[l], s.relays, l)} ::
      l in s.assocLims ==> AssociationBudgetAt(s.assocLims[l], s.relays, l)
  }

  ghost predicate Rest(s: State) { OneFlight(s.calls) && KeysFree(s) && Charged(s) && Late(s) }

  ghost predicate Budget(s: State) { NatBudget(s) && AssociationBudget(s) }

  ghost predicate Inv(s: State) { Refs(s) && Rest(s) && Budget(s) }

  lemma InitInv(s: State)
    requires Init(s)
    ensures Inv(s)
  {
    FreshValid(512, 256);
    FreshValid(64, 8);
    TallyEmpty(512, 256);
    TallyEmpty(64, 8);
    assert Dials(map[], s.curNat) == map[] && Lives(map[], s.curNat) == map[];
    assert Associations(map[], s.curAssoc) == map[];
  }

  // --- What no step takes back ----------------------------------------------------------------

  predicate EntryGrows(e: Entry, e': Entry) {
    && e'.relay == e.relay && e'.clientAddr == e.clientAddr && e'.target == e.target
    && e'.lim == e.lim && e'.client == e.client && (e.status == Closed ==> e'.status == Closed)
  }

  predicate RelayGrows(r: Relay, r': Relay) {
    && r'.clientKey == r.clientKey && r'.assocLim == r.assocLim && r'.natLim == r.natLim && r'.maxNat == r.maxNat
    && (Exists(r) ==> Exists(r'))
  }

  ghost predicate RelaysGrow(a: map<nat, Relay>, b: map<nat, Relay>) {
    forall r :: r in a ==> r in b && RelayGrows(a[r], b[r])
  }

  ghost predicate EntriesGrow(a: map<nat, Entry>, b: map<nat, Entry>) {
    forall e :: e in a ==> e in b && EntryGrows(a[e], b[e])
  }

  ghost predicate CallsGrow(a: map<nat, Call>, b: map<nat, Call>) {
    forall t :: t in a ==> t in b && b[t] == a[t].(pc := b[t].pc)
  }

  ghost predicate Grows(s: State, s': State) {
    && s.natLims.Keys <= s'.natLims.Keys && s.assocLims.Keys <= s'.assocLims.Keys
    && RelaysGrow(s.relays, s'.relays) && EntriesGrow(s.entries, s'.entries) && CallsGrow(s.calls, s'.calls)
  }

  // A well-formed component stays so whatever else happens.
  lemma CallOkGrows(s: State, s': State, c: Call)
    requires Grows(s, s') && CallOk(s, c)
    ensures CallOk(s', c)
  {
  }

  lemma RelayOkGrows(s: State, s': State, r: nat, relay: Relay)
    requires Grows(s, s') && RelayOk(s, r, relay)
    ensures RelayOk(s', r, relay)
  {
  }

  lemma EntryOkGrows(s: State, s': State, e: Entry, e': Entry)
    requires Grows(s, s') && EntryOk(s, e) && EntryGrows(e, e')
    ensures EntryOk(s', e')
  {
  }

  lemma ReverseOkGrows(s: State, s': State, v: Reverse)
    requires Grows(s, s') && ReverseOk(s, v)
    ensures ReverseOk(s', v)
  {
  }

  lemma CallsFrame(s: State, s': State, changed: set<nat>)
    requires CallsOk(s) && Grows(s, s')
    requires forall u :: u in s'.calls && u !in changed ==> u in s.calls && s'.calls[u] == s.calls[u]
    requires forall u :: u in s'.calls && u in changed ==> CallOk(s', s'.calls[u])
    ensures CallsOk(s')
  {
    forall u | u in s'.calls ensures CallOk(s', s'.calls[u]) {
      if u !in changed { CallOkGrows(s, s', s.calls[u]); }
    }
  }

  lemma RelaysFrame(s: State, s': State, changed: set<nat>)
    requires RelaysOk(s) && Grows(s, s')
    requires forall q :: q in s'.relays && q !in changed ==> q in s.relays && s'.relays[q] == s.relays[q]
    requires forall q :: q in s'.relays && q in changed ==> RelayOk(s', q, s'.relays[q])
    ensures RelaysOk(s')
  {
    forall q | q in s'.relays ensures RelayOk(s', q, s'.relays[q]) {
      if q !in changed { RelayOkGrows(s, s', q, s.relays[q]); }
    }
  }

  lemma EntriesFrame(s: State, s': State, changed: set<nat>)
    requires EntriesOk(s) && Grows(s, s')
    requires forall f :: f in s'.entries && f !in changed ==> f in s.entries
    requires forall f :: f in s'.entries && f in changed ==> EntryOk(s', s'.entries[f])
    ensures EntriesOk(s')
  {
    forall f | f in s'.entries ensures EntryOk(s', s'.entries[f]) {
      if f !in changed { EntryOkGrows(s, s', s.entries[f], s'.entries[f]); }
    }
  }

  lemma ReversesFrame(s: State, s': State, changed: set<nat>)
    requires ReversesOk(s) && Grows(s, s')
    requires forall w :: w in s'.reverses && w !in changed ==> w in s.reverses && s'.reverses[w] == s.reverses[w]
    requires forall w :: w in s'.reverses && w in changed ==> ReverseOk(s', s'.reverses[w])
    ensures ReversesOk(s')
  {
    forall w | w in s'.reverses ensures ReverseOk(s', s'.reverses[w]) {
      if w !in changed { ReverseOkGrows(s, s', s.reverses[w]); }
    }
  }

  lemma DeliveriesFrame(s: State, s': State)
    requires DeliveriesOk(s) && EntriesGrow(s.entries, s'.entries) && s'.deliveries == s.deliveries
    ensures DeliveriesOk(s')
  {
    forall i | 0 <= i < |s'.deliveries| ensures DeliveryOk(s', s'.deliveries[i]) {
      assert DeliveryOk(s, s.deliveries[i]);
    }
  }

  // --- Frames for the other invariants -----------------------------------------------------

  lemma FlightsFrame(calls: map<nat, Call>, t: nat, c: Call)
    requires OneFlight(calls)
    requires forall u :: u in calls && u != t ==> Exclusive(c, calls[u])
    ensures OneFlight(calls[t := c])
  {
  }

  // Once in flight, a call may move on: the others keep out.
  lemma StaysAlone(calls: map<nat, Call>, t: nat, pc: Pc)
    requires OneFlight(calls) && t in calls && (InFlight(pc) ==> InFlight(calls[t].pc))
    ensures OneFlight(calls[t := calls[t].(pc := pc)])
  {
    forall u | u in calls && u != t ensures Exclusive(calls[t].(pc := pc), calls[u]) {
      assert Exclusive(calls[t], calls[u]);
    }
    FlightsFrame(calls, t, calls[t].(pc := pc));
  }

  lemma KeysFreeFrame(s: State, s': State, t: nat)
    requires KeysFree(s)
    requires forall u :: u in s'.calls && u != t ==> u in s.calls && s'.calls[u] == s.calls[u]
    requires forall r :: r in s'.relays ==>
               s'.relays[r].table.Keys <= (if r in s.relays then s.relays[r].table.Keys else {})
    requires t in s'.calls ==> KeyFree(s'.relays, s'.calls[t])
    ensures KeysFree(s')
  {
    forall u | u in s'.calls ensures KeyFree(s'.relays, s'.calls[u]) {
      if u != t { assert KeyFree(s.relays, s.calls[u]); }
    }
  }

  // A call may leave an entry it must close only once that is closed.
  lemma ChargedCall(relays: map<nat, Relay>, calls: map<nat, Call>, t: nat, c: Call, e: nat, entry: Entry)
    requires ChargedAt(relays, calls, e, entry)
    requires t in calls && MustClose(calls[t].pc, e) && entry.status != Closed ==>
               MustClose(c.pc, e) && c.relay == calls[t].relay
    ensures ChargedAt(relays, calls[t := c], e, entry)
  {
    if entry.status != Closed && CallMustClose(calls, e, entry) {
      var u :| u in calls && MustClose(calls[u].pc, e) && calls[u].relay == entry.relay;
      assert MustClose(calls[t := c][u].pc, e);
    }
  }

  lemma LateCall(calls: map<nat, Call>, t: nat, c: Call, r: nat, relay: Relay)
    requires LateAt(calls, r, relay)
    requires t in calls && calls[t].relay == r && Drained(relay) ==>
               c.relay == r && forall e :: WillRecheck(calls[t].pc, e) ==> WillRecheck(c.pc, e)
    ensures LateAt(calls[t := c], r, relay)
  {
    if Drained(relay) {
      forall k | k in relay.table ensures CallWillRecheck(calls[t := c], r, relay.table[k]) {
        var u :| u in calls && calls[u].relay == r && WillRecheck(calls[u].pc, relay.table[k]);
        assert WillRecheck(calls[t := c][u].pc, relay.table[k]);
      }
    }
  }

  lemma DialsUpdate(calls: map<nat, Call>, t: nat, c: Call, lim: nat)
    ensures Dials(calls[t := c], lim) ==
            if c.pc == Dialing(lim) then Dials(calls, lim)[t := c.client] else Dials(calls, lim) - {t}
  {
  }

  lemma LivesUpdate(entries: map<nat, Entry>, e: nat, x: Entry, lim: nat)
    ensures Lives(entries[e := x], lim) ==
            if x.lim == lim && x.status != Closed then Lives(entries, lim)[e := x.client] else Lives(entries, lim) - {e}
  {
  }

  lemma AssociationsUpdate(relays: map<nat, Relay>, r: nat, x: Relay, lim: nat)
    ensures Associations(relays[r := x], lim) ==
            if x.assocLim == lim && HoldsAssociation(x) then Associations(relays, lim)[r := x.clientKey]
            else Associations(relays, lim) - {r}
  {
  }

  lemma DialsSame(calls: map<nat, Call>, t: nat, c: Call, lim: nat)
    requires (t in calls ==> !calls[t].pc.Dialing?) && !c.pc.Dialing?
    ensures Dials(calls[t := c], lim) == Dials(calls, lim)
  {
  }

  lemma LivesSame(entries: map<nat, Entry>, e: nat, x: Entry, lim: nat)
    requires e in entries && EntryGrows(entries[e], x) && (x.status == Closed) == (entries[e].status == Closed)
    ensures Lives(entries[e := x], lim) == Lives(entries, lim)
  {
  }

  lemma AssociationsSame(relays: map<nat, Relay>, r: nat, x: Relay, lim: nat)
    requires r in relays && RelayGrows(relays[r], x) && HoldsAssociation(x) == HoldsAssociation(relays[r])
    ensures Associations(relays[r := x], lim) == Associations(relays, lim)
  {
  }

  // A call that neither takes nor holds a unit leaves the budget alone.
  lemma NatBudgetCall(s: State, s': State, t: nat, c: Call)
    requires NatBudget(s) && s'.natLims == s.natLims && s'.entries == s.entries && s'.calls == s.calls[t := c]
    requires (t in s.calls ==> !s.calls[t].pc.Dialing?) && !c.pc.Dialing?
    ensures NatBudget(s')
  {
    forall l | l in s'.natLims ensures NatBudgetAt(s'.natLims[l], s'.calls, s'.entries, l) {
      NatBudgetAtCall(s.natLims[l], s.calls, s.entries, t, c, l);
    }
  }

  lemma NatBudgetAtCall(l: Limits, calls: map<nat, Call>, entries: map<nat, Entry>, t: nat, c: Call, lim: nat)
    requires NatBudgetAt(l, calls, entries, lim)
    requires (t in calls ==> !calls[t].pc.Dialing?) && !c.pc.Dialing?
    ensures NatBudgetAt(l, calls[t := c], entries, lim)
  {
    DialsSame(calls, t, c, lim);
  }

  lemma AssociationBudgetFrame(s: State, s': State, r: nat)
    requires AssociationBudget(s) && s'.assocLims == s.assocLims && r in s.relays && r in s'.relays
    requires s'.relays == s.relays[r := s'.relays[r]] && RelayGrows(s.relays[r], s'.relays[r])
    requires HoldsAssociation(s'.relays[r]) == HoldsAssociation(s.relays[r])
    ensures AssociationBudget(s')
  {
    forall l | l in s'.assocLims ensures AssociationBudgetAt(s'.assocLims[l], s'.relays, l) {
      AssociationBudgetAtFrame(s.assocLims[l], s.relays, r, s'.relays[r], l);
    }
  }

  lemma AssociationBudgetAtFrame(l: Limits, relays: map<nat, Relay>, r: nat, x: Relay, lim: nat)
    requires AssociationBudgetAt(l, relays, lim)
    requires r in relays && RelayGrows(relays[r], x) && HoldsAssociation(x) == HoldsAssociation(relays[r])
    ensures AssociationBudgetAt(l, relays[r := x], lim)
  {
    AssociationsSame(relays, r, x, lim);
  }

  // Only the changed components need a look.
  lemma RefsFrame(s: State, s': State, cs: set<nat>, rs: set<nat>, es: set<nat>, vs: set<nat>)
    requires Refs(s) && Grows(s, s') && s'.curNat in s'.natLims && s'.curAssoc in s'.assocLims
    requires forall u :: u in s'.calls && u !in cs ==> u in s.calls && s'.calls[u] == s.calls[u]
    requires forall u :: u in s'.calls && u in cs ==> CallOk(s', s'.calls[u])
    requires forall q :: q in s'.relays && q !in rs ==> q in s.relays && s'.relays[q] == s.relays[q]
    requires forall q :: q in s'.relays && q in rs ==> RelayOk(s', q, s'.relays[q])
    requires forall f :: f in s'.entries && f !in es ==> f in s.entries
    requires forall f :: f in s'.entries && f in es ==> EntryOk(s', s'.entries[f])
    requires forall w :: w in s'.reverses && w !in vs ==> w in s.reverses && s'.reverses[w] == s.reverses[w]
    requires forall w :: w in s'.reverses && w in vs ==> ReverseOk(s', s'.reverses[w])
    requires s'.deliveries == s.deliveries
    ensures Refs(s')
  {
    CallsFrame(s, s', cs);
    RelaysFrame(s, s', rs);
    EntriesFrame(s, s', es);
    ReversesFrame(s, s', vs);
    DeliveriesFrame(s, s');
  }

  // One relay, or one call and one relay, replaced.
  lemma RefsRelay(s: State, s': State, r: nat)
    requires Refs(s) && Grows(s, s') && s'.curNat in s'.natLims && s'.curAssoc in s'.assocLims
    requires r in s'.relays && s'.relays == s.relays[r := s'.relays[r]] && RelayOk(s', r, s'.relays[r])
    requires s'.calls == s.calls && s'.entries == s.entries && s'.reverses == s.reverses
    requires s'.deliveries == s.deliveries
    ensures Refs(s')
  {
    RefsFrame(s, s', {}, {r}, {}, {});
  }

  lemma RefsCallRelay(s: State, s': State, t: nat, r: nat)
    requires Refs(s) && Grows(s, s') && s'.curNat in s'.natLims && s'.curAssoc in s'.assocLims
    requires t in s'.calls && s'.calls == s.calls[t := s'.calls[t]] && CallOk(s', s'.calls[t])
    requires r in s'.relays && s'.relays == s.relays[r := s'.relays[r]] && RelayOk(s', r, s'.relays[r])
    requires s'.entries == s.entries && s'.reverses == s.reverses && s'.deliveries == s.deliveries
    ensures Refs(s')
  {
    RefsFrame(s, s', {t}, {r}, {}, {});
  }

  // --- Steps of a call that leave relays and entries alone ----------------------------------

  lemma CallStepRest(s: State, s': State, t: nat, c: Call)
    requires Rest(s) && s'.relays == s.relays && s'.entries == s.entries && s'.calls == s.calls[t := c]
    requires OneFlight(s'.calls) && KeyFree(s.relays, c)
    requires t in s.calls ==> c.relay == s.calls[t].relay
    requires t in s.calls ==>
               forall e :: e in s.entries && s.entries[e].status != Closed && MustClose(s.calls[t].pc, e) ==>
                             MustClose(c.pc, e)
    requires t in s.calls && c.relay in s.relays && Drained(s.relays[c.relay]) ==>
               forall e :: WillRecheck(s.calls[t].pc, e) ==> WillRecheck(c.pc, e)
    ensures Rest(s')
  {
    KeysFreeFrame(s, s', t);
    forall e | e in s'.entries ensures ChargedAt(s'.relays, s'.calls, e, s'.entries[e]) {
      ChargedCall(s.relays, s.calls, t, c, e, s.entries[e]);
    }
    forall r | r in s'.relays ensures LateAt(s'.calls, r, s'.relays[r]) {
      LateCall(s.calls, t, c, r, s.relays[r]);
    }
  }

  lemma AdvanceCallOk(s: State, s': State, t: nat, pc: Pc)
    requires Advance(s, s', t, pc) && CallOk(s, s.calls[t]) && RelayOk(s, s.calls[t].relay, s.relays[s.calls[t].relay])
    requires s.calls[t].pc.Waiting? ==> CallOk(s, s.calls[s.calls[t].pc.leader])
    ensures Grows(s, s') && CallOk(s', s'.calls[t])
  {
    AdvanceGrows(s, s', t, pc);
    if s.calls[t].pc.Waiting? { FollowsLeader(s, t, pc); } else { AdvanceHere(s, t, pc); }
    CallOkGrows(s, s', s.calls[t].(pc := pc));
  }

  lemma AdvanceHere(s: State, t: nat, pc: Pc)
    requires At(s, t) && MayAdvance(s, t, pc) && !s.calls[t].pc.Waiting?
    requires CallOk(s, s.calls[t]) && RelayOk(s, s.calls[t].relay, s.relays[s.calls[t].relay])
    ensures CallOk(s, s.calls[t].(pc := pc))
  {
  }

  lemma FollowsLeader(s: State, t: nat, pc: Pc)
    requires At(s, t) && MayAdvance(s, t, pc) && s.calls[t].pc.Waiting?
    requires CallOk(s, s.calls[t]) && CallOk(s, s.calls[s.calls[t].pc.leader])
    ensures CallOk(s, s.calls[t].(pc := pc))
  {
  }

  lemma AdvanceGrows(s: State, s': State, t: nat, pc: Pc)
    requires Advance(s, s', t, pc)
    ensures Grows(s, s')
  {
  }

  lemma AdvanceRefs(s: State, s': State, t: nat, pc: Pc)
    requires Refs(s) && Advance(s, s', t, pc)
    ensures Refs(s')
  {
    AdvanceCallOk(s, s', t, pc);
    RefsFrame(s, s', {t}, {}, {}, {});
  }

  lemma AdvanceRest(s: State, s': State, t: nat, pc: Pc)
    requires Rest(s) && Advance(s, s', t, pc)
    ensures Rest(s')
  {
    if InFlight(s.calls[t].pc) || !InFlight(pc) {
      StaysAlone(s.calls, t, pc);
    } else {
      Leads(s, t);
    }
    CallStepRest(s, s', t, s.calls[t].(pc := pc));
  }

  lemma Leads(s: State, t: nat)
    requires OneFlight(s.calls) && t in s.calls
    requires forall u :: SameFlight(s, t, u) ==> !InFlight(s.calls[u].pc)
    ensures OneFlight(s.calls[t := s.calls[t].(pc := DoubleCheck)])
  {
    var c := s.calls[t].(pc := DoubleCheck);
    forall u | u in s.calls && u != t ensures Exclusive(c, s.calls[u]) {
      assert SameFlight(s, t, u) ==> !InFlight(s.calls[u].pc);
    }
    FlightsFrame(s.calls, t, c);
  }

  lemma AdvanceBudget(s: State, s': State, t: nat, pc: Pc)
    requires Budget(s) && Advance(s, s', t, pc)
    ensures Budget(s')
  {
    NatBudgetCall(s, s', t, s.calls[t].(pc := pc));
  }

  lemma BeginRefs(s: State, s': State, t: nat, c: Call)
    requires Refs(s) && Begin(s, s', t, c)
    ensures Refs(s')
  {
    RefsFrame(s, s', {t}, {}, {}, {});
  }

  lemma BeginRest(s: State, s': State, t: nat, c: Call)
    requires Rest(s) && Begin(s, s', t, c)
    ensures Rest(s')
  {
    FlightsFrame(s.calls, t, c);
    CallStepRest(s, s', t, c);
  }

  lemma BeginBudget(s: State, s': State, t: nat, c: Call)
    requires Budget(s) && Begin(s, s', t, c)
    ensures Budget(s')
  {
    NatBudgetCall(s, s', t, c);
  }

  lemma StartReverseNew(s: State, s': State, t: nat, v: nat)
    requires StartReverse(s, s', t, v) && CallOk(s, s.calls[t])
    ensures Grows(s, s') && CallOk(s', s'.calls[t]) && ReverseOk(s', s'.reverses[v])
  {
  }

  lemma StartReverseRefs(s: State, s': State, t: nat, v: nat)
    requires Refs(s) && StartReverse(s, s', t, v)
    ensures Refs(s')
  {
    StartReverseNew(s, s', t, v);
    RefsFrame(s, s', {t}, {}, {}, {v});
  }

  lemma StartReverseRest(s: State, s': State, t: nat, v: nat)
    requires Rest(s) && StartReverse(s, s', t, v)
    ensures Rest(s')
  {
    var c := s.calls[t].(pc := Returned(Gave(s.calls[t].pc.entry)));
    StaysAlone(s.calls, t, c.pc);
    CallStepRest(s, s', t, c);
  }

  lemma StartReverseBudget(s: State, s': State, t: nat, v: nat)
    requires Budget(s) && StartReverse(s, s', t, v)
    ensures Budget(s')
  {
    NatBudgetCall(s, s', t, s'.calls[t]);
  }

  // --- Steps that take, hand over or return a NAT unit ------------------------------------------

  lemma AcquireRefs(s: State, s': State, t: nat, lim: nat)
    requires Refs(s) && AcquireUnit(s, s', t, lim)
    ensures Refs(s')
  {
    assert CallOk(s, s.calls[t]);
    RefsFrame(s, s', {t}, {}, {}, {});
  }

  lemma AcquireRest(s: State, s': State, t: nat, lim: nat)
    requires Rest(s) && AcquireUnit(s, s', t, lim)
    ensures Rest(s')
  {
    var c := s.calls[t].(pc := Dialing(lim));
    StaysAlone(s.calls, t, c.pc);
    assert KeyFree(s.relays, s.calls[t]);
    CallStepRest(s, s', t, c);
  }

  lemma AcquireBudget(s: State, s': State, t: nat, lim: nat)
    requires Budget(s) && AcquireUnit(s, s', t, lim)
    ensures Budget(s')
  {
    var c := s.calls[t].(pc := Dialing(lim));
    forall l | l in s'.natLims ensures NatBudgetAt(s'.natLims[l], s'.calls, s'.entries, l) {
      AcquireBudgetAt(s.natLims[l], s.calls, s.entries, t, lim, l);
    }
  }

  lemma AcquireBudgetAt(limits: Limits, calls: map<nat, Call>, entries: map<nat, Entry>, t: nat, lim: nat, l: nat)
    requires NatBudgetAt(limits, calls, entries, l)
    requires t in calls && calls[t].pc == Routing && (l == lim ==> Admits(limits, calls[t].client))
    ensures NatBudgetAt(if l == lim then Acquired(limits, calls[t].client) else limits,
                        calls[t := calls[t].(pc := Dialing(lim))], entries, l)
  {
    DialsUpdate(calls, t, calls[t].(pc := Dialing(lim)), l);
    assert t !in Dials(calls, l);
    if l == lim {
      AcquireValid(limits, calls[t].client);
      TallyAcquire(limits, Dials(calls, l), Lives(entries, l), t, calls[t].client);
    } else {
      assert Dials(calls, l) - {t} == Dials(calls, l);
    }
  }

  lemma DialFailRefs(s: State, s': State, t: nat)
    requires Refs(s) && DialFail(s, s', t)
    ensures Refs(s')
  {
    assert CallOk(s, s.calls[t]);
    RefsFrame(s, s', {t}, {}, {}, {});
  }

  lemma DialFailRest(s: State, s': State, t: nat)
    requires Rest(s) && DialFail(s, s', t)
    ensures Rest(s')
  {
    var c := s.calls[t].(pc := Returned(Failed(ErrDial)));
    StaysAlone(s.calls, t, c.pc);
    CallStepRest(s, s', t, c);
  }

  lemma DialFailBudget(s: State, s': State, t: nat)
    requires Budget(s) && DialFail(s, s', t)
    ensures Budget(s')
  {
    forall l | l in s'.natLims ensures NatBudgetAt(s'.natLims[l], s'.calls, s'.entries, l) {
      DialFailBudgetAt(s.natLims[l], s.calls, s.entries, t, l);
    }
  }

  lemma DialFailBudgetAt(limits: Limits, calls: map<nat, Call>, entries: map<nat, Entry>, t: nat, l: nat)
    requires NatBudgetAt(limits, calls, entries, l) && t in calls && calls[t].pc.Dialing?
    ensures NatBudgetAt(if l == calls[t].pc.lim then Released(limits, calls[t].client) else limits,
                        calls[t := calls[t].(pc := Returned(Failed(ErrDial)))], entries, l)
  {
    DialsUpdate(calls, t, calls[t].(pc := Returned(Failed(ErrDial))), l);
    BudgetGiveBack(limits, Dials(calls, l), Lives(entries, l), t, calls[t].client, l == calls[t].pc.lim);
  }

  // The unit of call `t`, if it is one of this limiter, goes back.
  lemma BudgetGiveBack(limits: Limits, dials: map<nat, string>, lives: map<nat, string>, t: nat, client: string,
                       here: bool)
    requires Sound(limits) && Tallies(limits, dials, lives)
    requires if here then t in dials && dials[t] == client else t !in dials
    ensures var after := if here then Released(limits, client) else limits;
            Sound(after) && Tallies(after, dials - {t}, lives)
  {
    if here {
      ReleaseValid(limits, client);
      TallyReleaseFirst(limits, dials, lives, t);
    } else {
      assert dials - {t} == dials;
    }
  }

  lemma DialOkNew(s: State, s': State, t: nat, e: nat, now: int)
    requires DialOk(s, s', t, e, now) && CallOk(s, s.calls[t])
    ensures Grows(s, s') && CallOk(s', s'.calls[t]) && EntryOk(s', s'.entries[e])
  {
  }

  lemma DialOkRefs(s: State, s': State, t: nat, e: nat, now: int)
    requires Refs(s) && DialOk(s, s', t, e, now)
    ensures Refs(s')
  {
    DialOkNew(s, s', t, e, now);
    RefsFrame(s, s', {t}, {}, {e}, {});
  }

  lemma DialOkRest(s: State, s': State, t: nat, e: nat, now: int)
    requires Rest(s) && DialOk(s, s', t, e, now)
    ensures Rest(s')
  {
    var c := s.calls[t].(pc := Installing(e));
    var mid := s.(calls := s.calls[t := c]);
    StaysAlone(s.calls, t, c.pc);
    assert KeyFree(s.relays, s.calls[t]);
    CallStepRest(s, mid, t, c);
    forall f | f in s'.entries ensures ChargedAt(s'.relays, s'.calls, f, s'.entries[f]) {
      if f == e { assert MustClose(s'.calls[t].pc, e); }
      else { assert ChargedAt(mid.relays, mid.calls, f, mid.entries[f]); }
    }
  }

  lemma DialOkBudget(s: State, s': State, t: nat, e: nat, now: int)
    requires Budget(s) && DialOk(s, s', t, e, now)
    ensures Budget(s')
  {
    forall l | l in s'.natLims ensures NatBudgetAt(s'.natLims[l], s'.calls, s'.entries, l) {
      DialOkBudgetAt(s.natLims[l], s.calls, s.entries, t, e, s'.entries[e], l);
    }
  }

  lemma DialOkBudgetAt(limits: Limits, calls: map<nat, Call>, entries: map<nat, Entry>, t: nat, e: nat, x: Entry,
                       l: nat)
    requires NatBudgetAt(limits, calls, entries, l) && t in calls && calls[t].pc.Dialing? && e !in entries
    requires x.lim == calls[t].pc.lim && x.client == calls[t].client && x.status == Open
    ensures NatBudgetAt(limits, calls[t := calls[t].(pc := Installing(e))], entries[e := x], l)
  {
    DialsUpdate(calls, t, calls[t].(pc := Installing(e)), l);
    LivesUpdate(entries, e, x, l);
    BudgetHandOver(limits, Dials(calls, l), Lives(entries, l), t, e, x.client, l == x.lim);
  }

  // The unit of call `t`, if it is one of this limiter, passes to entry `e`.
  lemma BudgetHandOver(limits: Limits, dials: map<nat, string>, lives: map<nat, string>, t: nat, e: nat,
                       client: string, here: bool)
    requires Tallies(limits, dials, lives) && e !in lives
    requires if here then t in dials && dials[t] == client else t !in dials
    ensures Tallies(limits, dials - {t}, if here then lives[e := client] else lives - {e})
  {
    if here {
      TallyHandOver(limits, dials, lives, t, e);
    } else {
      assert dials - {t} == dials && lives - {e} == lives;
    }
  }

  // --- Steps on entries -------------------------------------------------------------------------

  lemma EntryStepGrows(s: State, s': State, e: nat)
    requires FinishClose(s, s', e) || (e in s'.entries && Stir(s, s', e, s'.entries[e]))
    ensures Grows(s, s')
  {
  }

  lemma EntryStepRefs(s: State, s': State, e: nat)
    requires Refs(s) && (FinishClose(s, s', e) || (e in s'.entries && Stir(s, s', e, s'.entries[e])))
    ensures Refs(s')
  {
    EntryStepGrows(s, s', e);
    RefsFrame(s, s', {}, {}, {}, {});
  }

  lemma EntryStepRest(s: State, s': State, e: nat)
    requires Rest(s) && (FinishClose(s, s', e) || (e in s'.entries && Stir(s, s', e, s'.entries[e])))
    ensures Rest(s')
  {
    forall f | f in s'.entries ensures ChargedAt(s'.relays, s'.calls, f, s'.entries[f]) {
      assert ChargedAt(s.relays, s.calls, f, s.entries[f]);
      ChargedGrows(s.relays, s.calls, f, s.entries[f], s'.entries[f]);
    }
  }

  lemma ChargedGrows(relays: map<nat, Relay>, calls: map<nat, Call>, e: nat, x: Entry, x': Entry)
    requires ChargedAt(relays, calls, e, x) && EntryGrows(x, x')
    ensures ChargedAt(relays, calls, e, x')
  {
    if CallMustClose(calls, e, x) {
      var t :| t in calls && MustClose(calls[t].pc, e) && calls[t].relay == x.relay;
      assert MustClose(calls[t].pc, e) && calls[t].relay == x'.relay;
    }
  }

  lemma StirBudget(s: State, s': State, e: nat, x: Entry)
    requires Budget(s) && Stir(s, s', e, x)
    ensures Budget(s')
  {
    forall l | l in s'.natLims ensures NatBudgetAt(s'.natLims[l], s'.calls, s'.entries, l) {
      StirBudgetAt(s.natLims[l], s.calls, s.entries, e, x, l);
    }
  }

  lemma StirBudgetAt(limits: Limits, calls: map<nat, Call>, entries: map<nat, Entry>, e: nat, x: Entry, l: nat)
    requires NatBudgetAt(limits, calls, entries, l) && e in entries && EntryGrows(entries[e], x)
    requires (x.status == Closed) == (entries[e].status == Closed)
    ensures NatBudgetAt(limits, calls, entries[e := x], l)
  {
    LivesSame(entries, e, x, l);
  }

  lemma FinishCloseBudget(s: State, s': State, e: nat)
    requires Budget(s) && FinishClose(s, s', e)
    ensures Budget(s')
  {
    forall l | l in s'.natLims ensures NatBudgetAt(s'.natLims[l], s'.calls, s'.entries, l) {
      FinishCloseBudgetAt(s.natLims[l], s.calls, s.entries, e, l);
    }
  }

  lemma FinishCloseBudgetAt(limits: Limits, calls: map<nat, Call>, entries: map<nat, Entry>, e: nat, l: nat)
    requires NatBudgetAt(limits, calls, entries, l) && e in entries && entries[e].status == Closing
    ensures NatBudgetAt(if l == entries[e].lim then Released(limits, entries[e].client) else limits,
                        calls, entries[e := entries[e].(status := Closed)], l)
  {
    LivesUpdate(entries, e, entries[e].(status := Closed), l);
    TallySwap(limits, Dials(calls, l), Lives(entries, l));
    BudgetGiveBack(limits, Lives(entries, l), Dials(calls, l), e, entries[e].client, l == entries[e].lim);
    var after := if l == entries[e].lim then Released(limits, entries[e].client) else limits;
    TallySwap(after, Lives(entries, l) - {e}, Dials(calls, l));
  }

  // --- Steps on tables ----------------------------------------------------------------------------

  lemma UpdatesGrow(s: State, t: nat, pc: Pc, r: nat, relay: Relay)
    requires t in s.calls && r in s.relays && RelayGrows(s.relays[r], relay)
    ensures CallsGrow(s.calls, s.calls[t := s.calls[t].(pc := pc)]) && RelaysGrow(s.relays, s.relays[r := relay])
  {
  }

  lemma RelayOkTable(s: State, r: nat, relay: Relay, table: map<string, nat>)
    requires RelayOk(s, r, relay) && (!Exists(relay) ==> table == map[]) && |table| <= Limit(relay)
    requires forall k :: k in table ==>
               || (k in relay.table && table[k] == relay.table[k])
               || (table[k] in s.entries && s.entries[table[k]].relay == r && EntryKey(s.entries[table[k]]) == k)
    ensures RelayOk(s, r, relay.(table := table))
  {
  }

  lemma InstallRelayOk(s: State, s': State, t: nat, after: map<string, nat>, actual: nat, evicted: Option<string>,
                       installed: bool)
    requires Install(s, s', t, after, actual, evicted, installed)
    requires CallOk(s, s.calls[t]) && RelayOk(s, s.calls[t].relay, s.relays[s.calls[t].relay])
    ensures RelayOk(s, s.calls[t].relay, s'.relays[s.calls[t].relay])
  {
    var relay := s.relays[s.calls[t].relay];
    InstallBounded(relay.table, Stamps(s), CallKey(s.calls[t]), s.calls[t].pc.entry, Limit(relay),
                   after, actual, evicted, installed);
    RelayOkTable(s, s.calls[t].relay, relay, after);
  }

  lemma InstallCallOk(s: State, s': State, t: nat, after: map<string, nat>, actual: nat, evicted: Option<string>,
                      installed: bool)
    requires Install(s, s', t, after, actual, evicted, installed)
    requires CallOk(s, s.calls[t]) && RelayOk(s, s.calls[t].relay, s.relays[s.calls[t].relay])
    ensures CallOk(s, s'.calls[t])
  {
  }

  lemma InstallGrows(s: State, s': State, t: nat, after: map<string, nat>, actual: nat, evicted: Option<string>,
                     installed: bool)
    requires Install(s, s', t, after, actual, evicted, installed)
    requires CallOk(s, s.calls[t])
    ensures Grows(s, s')
  {
    var r := s.calls[t].relay;
    UpdatesGrow(s, t, s'.calls[t].pc, r, s'.relays[r]);
  }

  lemma InstallNew(s: State, s': State, t: nat, after: map<string, nat>, actual: nat, evicted: Option<string>,
                   installed: bool)
    requires Install(s, s', t, after, actual, evicted, installed)
    requires CallOk(s, s.calls[t]) && RelayOk(s, s.calls[t].relay, s.relays[s.calls[t].relay])
    ensures Grows(s, s') && CallOk(s', s'.calls[t]) && RelayOk(s', s.calls[t].relay, s'.relays[s.calls[t].relay])
  {
    var r := s.calls[t].relay;
    InstallGrows(s, s', t, after, actual, evicted, installed);
    InstallRelayOk(s, s', t, after, actual, evicted, installed);
    InstallCallOk(s, s', t, after, actual, evicted, installed);
    RelayOkGrows(s, s', r, s'.relays[r]);
    CallOkGrows(s, s', s'.calls[t]);
  }

  // What Install leaves alone.
  lemma InstallOnly(s: State, s': State, t: nat, after: map<string, nat>, actual: nat, evicted: Option<string>,
                    installed: bool)
    requires Install(s, s', t, after, actual, evicted, installed)
    ensures var r := s.calls[t].relay;
            && t in s'.calls && s'.calls == s.calls[t := s'.calls[t]]
            && r in s'.relays && s'.relays == s.relays[r := s'.relays[r]]
            && s' == s.(calls := s'.calls, relays := s'.relays)
  {
  }

  lemma InstallRefs(s: State, s': State, t: nat, after: map<string, nat>, actual: nat, evicted: Option<string>,
                    installed: bool)
    requires Refs(s) && Install(s, s', t, after, actual, evicted, installed)
    ensures Refs(s')
  {
    InstallNew(s, s', t, after, actual, evicted, installed);
    InstallOnly(s, s', t, after, actual, evicted, installed);
    RefsCallRelay(s, s', t, s.calls[t].relay);
  }

  // Inside its flight, the key of a call about to install is free: the duplicate branch of
  // Install is dead, and no other call in flight waits for the same key.
  lemma InstallsFresh(s: State, s': State, t: nat, after: map<string, nat>, actual: nat, evicted: Option<string>,
                      installed: bool)
    requires KeysFree(s) && Install(s, s', t, after, actual, evicted, installed)
    ensures installed
  {
    assert KeyFree(s.relays, s.calls[t]);
  }

  lemma InstallFlights(s: State, s': State, t: nat, after: map<string, nat>, actual: nat, evicted: Option<string>,
                       installed: bool)
    requires OneFlight(s.calls) && KeysFree(s) && Install(s, s', t, after, actual, evicted, installed)
    ensures OneFlight(s'.calls) && KeysFree(s')
  {
    InstallsFresh(s, s', t, after, actual, evicted, installed);
    StaysAlone(s.calls, t, s'.calls[t].pc);
    forall u | u in s'.calls ensures KeyFree(s'.relays, s'.calls[u]) {
      if u != t {
        assert KeyFree(s.relays, s.calls[u]);
        assert Exclusive(s.calls[t], s.calls[u]);
      }
    }
  }

  lemma InstallCharged(s: State, s': State, t: nat, after: map<string, nat>, actual: nat, evicted: Option<string>,
                       installed: bool, e: nat)
    requires Install(s, s', t, after, actual, evicted, installed) && installed && e in s.entries
    requires ChargedAt(s.relays, s.calls, e, s.entries[e]) && CallOk(s, s.calls[t])
    requires RelayOk(s, s.calls[t].relay, s.relays[s.calls[t].relay])
    ensures ChargedAt(s'.relays, s'.calls, e, s.entries[e])
  {
    var entry := s.entries[e];
    if entry.status == Closed {
    } else if e == s.calls[t].pc.entry {
      assert InTable(s'.relays, e, entry);
    } else if InTable(s.relays, e, entry) {
      InstallDisplaces(s, s', t, after, actual, evicted, installed, e);
    } else if !ToDrain(s.relays, e, entry) {
      var u :| u in s.calls && MustClose(s.calls[u].pc, e) && s.calls[u].relay == entry.relay;
      assert MustClose(s'.calls[u].pc, e);
    }
  }

  // An entry of the table stays there or is the victim, which the caller must close.
  lemma InstallDisplaces(s: State, s': State, t: nat, after: map<string, nat>, actual: nat, evicted: Option<string>,
                         installed: bool, e: nat)
    requires Install(s, s', t, after, actual, evicted, installed) && installed && e in s.entries
    requires InTable(s.relays, e, s.entries[e])
    ensures ChargedAt(s'.relays, s'.calls, e, s.entries[e])
  {
    var entry := s.entries[e];
    if entry.relay == s.calls[t].relay && evicted == Some(EntryKey(entry)) {
      assert MustClose(s'.calls[t].pc, e);
    } else {
      assert InTable(s'.relays, e, entry);
    }
  }

  lemma InstallLate(s: State, s': State, t: nat, after: map<string, nat>, actual: nat, evicted: Option<string>,
                    installed: bool, r: nat)
    requires Install(s, s', t, after, actual, evicted, installed) && installed
    requires r in s.relays && LateAt(s.calls, r, s.relays[r])
    ensures LateAt(s'.calls, r, s'.relays[r])
  {
    var c := s'.calls[t];
    LateCall(s.calls, t, c, r, s.relays[r]);
    if Drained(s'.relays[r]) && r == c.relay {
      forall k | k in s'.relays[r].table ensures CallWillRecheck(s'.calls, r, s'.relays[r].table[k]) {
        if k == CallKey(c) {
          assert WillRecheck(s'.calls[t].pc, after[k]);
        } else {
          assert k in s.relays[r].table && after[k] == s.relays[r].table[k];
        }
      }
    }
  }

  lemma InstallRest(s: State, s': State, t: nat, after: map<string, nat>, actual: nat, evicted: Option<string>,
                    installed: bool)
    requires Refs(s) && Rest(s) && Install(s, s', t, after, actual, evicted, installed)
    ensures Rest(s')
  {
    InstallFlights(s, s', t, after, actual, evicted, installed);
    InstallsFresh(s, s', t, after, actual, evicted, installed);
    assert CallOk(s, s.calls[t]) && RelayOk(s, s.calls[t].relay, s.relays[s.calls[t].relay]);
    forall e | e in s'.entries ensures ChargedAt(s'.relays, s'.calls, e, s'.entries[e]) {
      InstallCharged(s, s', t, after, actual, evicted, installed, e);
    }
    forall r | r in s'.relays ensures LateAt(s'.calls, r, s'.relays[r]) {
      InstallLate(s, s', t, after, actual, evicted, installed, r);
    }
  }

  lemma InstallBudget(s: State, s': State, t: nat, after: map<string, nat>, actual: nat, evicted: Option<string>,
                      installed: bool)
    requires Budget(s) && Install(s, s', t, after, actual, evicted, installed)
    ensures Budget(s')
  {
    NatBudgetCall(s, s', t, s'.calls[t]);
    AssociationBudgetFrame(s, s', s.calls[t].relay);
  }

  // --- Taking entries out of a table ---------------------------------------------------------------

  lemma DeletedShrinks(table: map<string, nat>, key: string, e: nat)
    ensures |Deleted(table, key, e)| <= |table| && Deleted(table, key, e).Keys <= table.Keys
  {
    if key in table && table[key] == e { assert (table - {key}).Keys == table.Keys - {key}; }
  }

  lemma UndoNew(s: State, s': State, t: nat)
    requires Undo(s, s', t)
    requires CallOk(s, s.calls[t]) && RelayOk(s, s.calls[t].relay, s.relays[s.calls[t].relay])
    ensures Grows(s, s') && CallOk(s', s'.calls[t]) && RelayOk(s', s.calls[t].relay, s'.relays[s.calls[t].relay])
  {
    var r := s.calls[t].relay;
    UpdatesGrow(s, t, s'.calls[t].pc, r, s'.relays[r]);
    DeletedShrinks(s.relays[r].table, CallKey(s.calls[t]), s.calls[t].pc.entry);
    RelayOkTable(s, r, s.relays[r], s'.relays[r].table);
    RelayOkGrows(s, s', r, s'.relays[r]);
    CallOkGrows(s, s', s'.calls[t]);
  }

  lemma UndoRefs(s: State, s': State, t: nat)
    requires Refs(s) && Undo(s, s', t)
    ensures Refs(s')
  {
    UndoNew(s, s', t);
    RefsCallRelay(s, s', t, s.calls[t].relay);
  }

  lemma UndoRest(s: State, s': State, t: nat)
    requires Refs(s) && Rest(s) && Undo(s, s', t)
    ensures Rest(s')
  {
    var c := s.calls[t];
    StaysAlone(s.calls, t, s'.calls[t].pc);
    DeletedShrinks(s.relays[c.relay].table, CallKey(c), c.pc.entry);
    KeysFreeFrame(s, s', t);
    assert CallOk(s, c) && RelayOk(s, c.relay, s.relays[c.relay]);
    forall e | e in s'.entries ensures ChargedAt(s'.relays, s'.calls, e, s'.entries[e]) {
      UndoCharged(s, s', t, e);
    }
    forall r | r in s'.relays ensures LateAt(s'.calls, r, s'.relays[r]) {
      UndoLate(s, s', t, r);
    }
  }

  lemma UndoCharged(s: State, s': State, t: nat, e: nat)
    requires Undo(s, s', t) && e in s.entries && CallOk(s, s.calls[t])
    requires ChargedAt(s.relays, s.calls, e, s.entries[e])
    ensures ChargedAt(s'.relays, s'.calls, e, s.entries[e])
  {
    if e == s.calls[t].pc.entry {
      assert MustClose(s'.calls[t].pc, e);
    } else {
      ChargedCall(s.relays, s.calls, t, s'.calls[t], e, s.entries[e]);
    }
  }

  lemma UndoLate(s: State, s': State, t: nat, r: nat)
    requires Undo(s, s', t) && r in s.relays && CallOk(s, s.calls[t]) && LateAt(s.calls, r, s.relays[r])
    requires RelayOk(s, s.calls[t].relay, s.relays[s.calls[t].relay])
    ensures LateAt(s'.calls, r, s'.relays[r])
  {
    if Drained(s'.relays[r]) {
      forall k | k in s'.relays[r].table ensures CallWillRecheck(s'.calls, r, s'.relays[r].table[k]) {
        var u :| u in s.calls && s.calls[u].relay == r && WillRecheck(s.calls[u].pc, s.relays[r].table[k]);
        assert u != t;
        assert WillRecheck(s'.calls[u].pc, s.relays[r].table[k]);
      }
    }
  }

  lemma UndoBudget(s: State, s': State, t: nat)
    requires Budget(s) && Undo(s, s', t)
    ensures Budget(s')
  {
    NatBudgetCall(s, s', t, s'.calls[t]);
    AssociationBudgetFrame(s, s', s.calls[t].relay);
  }

  lemma RevDeleteGrows(s: State, s': State, v: nat)
    requires RevDelete(s, s', v)
    ensures Grows(s, s')
  {
  }

  lemma RevDeleteNew(s: State, s': State, v: nat)
    requires RevDelete(s, s', v)
    requires ReverseOk(s, s.reverses[v]) && RelayOk(s, s.reverses[v].relay, s.relays[s.reverses[v].relay])
    ensures Grows(s, s') && ReverseOk(s', s'.reverses[v])
    ensures RelayOk(s', s.reverses[v].relay, s'.relays[s.reverses[v].relay])
  {
    var r := s.reverses[v].relay;
    RevDeleteGrows(s, s', v);
    DeletedShrinks(s.relays[r].table, s.reverses[v].key, s.reverses[v].entry);
    RelayOkTable(s, r, s.relays[r], s'.relays[r].table);
    RelayOkGrows(s, s', r, s'.relays[r]);
    ReverseOkGrows(s, s', s'.reverses[v]);
  }

  lemma RevDeleteRefs(s: State, s': State, v: nat)
    requires Refs(s) && RevDelete(s, s', v)
    ensures Refs(s')
  {
    RevDeleteNew(s, s', v);
    RefsFrame(s, s', {}, {s.reverses[v].relay}, {}, {v});
  }

  lemma RevDeleteRest(s: State, s': State, v: nat)
    requires Refs(s) && Rest(s) && RevDelete(s, s', v)
    ensures Rest(s')
  {
    var rev := s.reverses[v];
    assert ReverseOk(s, rev);
    DeletedShrinks(s.relays[rev.relay].table, rev.key, rev.entry);
    forall u | u in s'.calls ensures KeyFree(s'.relays, s'.calls[u]) { assert KeyFree(s.relays, s.calls[u]); }
    forall e | e in s'.entries ensures ChargedAt(s'.relays, s'.calls, e, s'.entries[e]) {
      assert ChargedAt(s.relays, s.calls, e, s.entries[e]);
    }
    forall r | r in s'.relays ensures LateAt(s'.calls, r, s'.relays[r]) {
      assert LateAt(s.calls, r, s.relays[r]);
    }
  }

  lemma RevDeleteBudget(s: State, s': State, v: nat)
    requires Budget(s) && RevDelete(s, s', v)
    ensures Budget(s')
  {
    AssociationBudgetFrame(s, s', s.reverses[v].relay);
  }

  // --- Steps of the association and its closer -------------------------------------------------------

  lemma PhaseGrows(s: State, s': State, r: nat, phase: Phase)
    requires EnterPhase(s, s', r, phase)
    ensures Grows(s, s')
  {
  }

  lemma PhaseRelayOk(s: State, s': State, r: nat, phase: Phase)
    requires EnterPhase(s, s', r, phase) && RelayOk(s, r, s.relays[r])
    ensures Grows(s, s') && RelayOk(s', r, s'.relays[r])
  {
    PhaseGrows(s, s', r, phase);
  }

  lemma PhaseRefs(s: State, s': State, r: nat, phase: Phase)
    requires Refs(s) && EnterPhase(s, s', r, phase)
    ensures Refs(s')
  {
    PhaseRelayOk(s, s', r, phase);
    RefsRelay(s, s', r);
  }

  lemma PhaseRest(s: State, s': State, r: nat, phase: Phase)
    requires Rest(s) && EnterPhase(s, s', r, phase)
    ensures Rest(s')
  {
    forall u | u in s'.calls ensures KeyFree(s'.relays, s'.calls[u]) { assert KeyFree(s.relays, s.calls[u]); }
    forall e | e in s'.entries ensures ChargedAt(s'.relays, s'.calls, e, s'.entries[e]) {
      assert ChargedAt(s.relays, s.calls, e, s.entries[e]);
    }
    forall q | q in s'.relays ensures LateAt(s'.calls, q, s'.relays[q]) {
      assert LateAt(s.calls, q, s.relays[q]);
    }
  }

  lemma PhaseBudget(s: State, s': State, r: nat, phase: Phase)
    requires Budget(s) && EnterPhase(s, s', r, phase)
    ensures Budget(s')
  {
    AssociationBudgetFrame(s, s', r);
  }

  lemma DrainGrows(s: State, s': State, r: nat)
    requires Drain(s, s', r)
    ensures Grows(s, s')
  {
  }

  lemma DrainRelayOk(s: State, s': State, r: nat)
    requires Drain(s, s', r) && RelayOk(s, r, s.relays[r])
    ensures Grows(s, s') && RelayOk(s', r, s'.relays[r])
  {
    DrainGrows(s, s', r);
  }

  lemma DrainRefs(s: State, s': State, r: nat)
    requires Refs(s) && Drain(s, s', r)
    ensures Refs(s')
  {
    DrainRelayOk(s, s', r);
    RefsRelay(s, s', r);
  }

  lemma DrainRest(s: State, s': State, r: nat)
    requires Rest(s) && Drain(s, s', r)
    ensures Rest(s')
  {
    forall u | u in s'.calls ensures KeyFree(s'.relays, s'.calls[u]) { assert KeyFree(s.relays, s.calls[u]); }
    forall e | e in s'.entries ensures ChargedAt(s'.relays, s'.calls, e, s'.entries[e]) {
      assert ChargedAt(s.relays, s.calls, e, s.entries[e]);
      if InTable(s.relays, e, s.entries[e]) && s.entries[e].relay == r { assert ToDrain(s'.relays, e, s'.entries[e]); }
    }
    forall q | q in s'.relays ensures LateAt(s'.calls, q, s'.relays[q]) {
      assert LateAt(s.calls, q, s.relays[q]);
    }
  }

  lemma DrainBudget(s: State, s': State, r: nat)
    requires Budget(s) && Drain(s, s', r)
    ensures Budget(s')
  {
    AssociationBudgetFrame(s, s', r);
  }

  lemma DisassociateGrows(s: State, s': State, r: nat)
    requires Disassociate(s, s', r)
    ensures Grows(s, s')
  {
  }

  lemma DisassociateRelayOk(s: State, s': State, r: nat)
    requires Disassociate(s, s', r) && RelayOk(s, r, s.relays[r])
    ensures Grows(s, s') && RelayOk(s', r, s'.relays[r])
  {
    DisassociateGrows(s, s', r);
  }

  lemma DisassociateRefs(s: State, s': State, r: nat)
    requires Refs(s) && Disassociate(s, s', r)
    ensures Refs(s')
  {
    DisassociateRelayOk(s, s', r);
    RefsRelay(s, s', r);
  }

  lemma DisassociateRest(s: State, s': State, r: nat)
    requires Rest(s) && Disassociate(s, s', r)
    ensures Rest(s')
  {
    forall u | u in s'.calls ensures KeyFree(s'.relays, s'.calls[u]) { assert KeyFree(s.relays, s.calls[u]); }
    forall e | e in s'.entries ensures ChargedAt(s'.relays, s'.calls, e, s'.entries[e]) {
      assert ChargedAt(s.relays, s.calls, e, s.entries[e]);
    }
    forall q | q in s'.relays ensures LateAt(s'.calls, q, s'.relays[q]) {
      assert LateAt(s.calls, q, s.relays[q]);
    }
  }

  lemma DisassociateBudget(s: State, s': State, r: nat)
    requires Budget(s) && Disassociate(s, s', r)
    ensures Budget(s')
  {
    forall l | l in s'.assocLims ensures AssociationBudgetAt(s'.assocLims[l], s'.relays, l) {
      DisassociateBudgetAt(s.assocLims[l], s.relays, r, s'.relays[r], l);
    }
  }

  lemma DisassociateBudgetAt(limits: Limits, relays: map<nat, Relay>, r: nat, x: Relay, l: nat)
    requires AssociationBudgetAt(limits, relays, l) && r in relays && HoldsAssociation(relays[r])
    requires !HoldsAssociation(x)
    requires x.assocLim == relays[r].assocLim
    ensures AssociationBudgetAt(if l == relays[r].assocLim then Released(limits, relays[r].clientKey) else limits,
                                relays[r := x], l)
  {
    AssociationsUpdate(relays, r, x, l);
    if l == relays[r].assocLim {
      ReleaseValid(limits, relays[r].clientKey);
      assert r in Associations(relays, l) && Associations(relays, l)[r] == relays[r].clientKey;
      TallyReleaseFirst(limits, Associations(relays, l), map[], r);
    } else {
      assert Associations(relays, l) - {r} == Associations(relays, l);
    }
  }

  lemma AssociateNew(s: State, s': State, r: nat, relay: Relay)
    requires Associate(s, s', r, relay)
    ensures Grows(s, s') && RelayOk(s', r, relay)
  {
  }

  lemma AssociateRefs(s: State, s': State, r: nat, relay: Relay)
    requires Refs(s) && Associate(s, s', r, relay)
    ensures Refs(s')
  {
    AssociateNew(s, s', r, relay);
    RefsRelay(s, s', r);
  }

  lemma AssociateRest(s: State, s': State, r: nat, relay: Relay)
    requires Rest(s) && Associate(s, s', r, relay)
    ensures Rest(s')
  {
    forall u | u in s'.calls ensures KeyFree(s'.relays, s'.calls[u]) { assert KeyFree(s.relays, s.calls[u]); }
    forall e | e in s'.entries ensures ChargedAt(s'.relays, s'.calls, e, s'.entries[e]) {
      assert ChargedAt(s.relays, s.calls, e, s.entries[e]);
    }
    forall q | q in s'.relays ensures LateAt(s'.calls, q, s'.relays[q]) {
      if q != r { assert LateAt(s.calls, q, s.relays[q]); }
    }
  }

  lemma AssociateBudget(s: State, s': State, r: nat, relay: Relay)
    requires Budget(s) && Associate(s, s', r, relay)
    ensures Budget(s')
  {
    forall l | l in s'.assocLims ensures AssociationBudgetAt(s'.assocLims[l], s'.relays, l) {
      AssociateBudgetAt(s.assocLims[l], s.relays, r, relay, l);
    }
  }

  lemma AssociateBudgetAt(limits: Limits, relays: map<nat, Relay>, r: nat, x: Relay, l: nat)
    requires AssociationBudgetAt(limits, relays, l) && r !in relays && HoldsAssociation(x)
    requires l == x.assocLim ==> Admits(limits, x.clientKey)
    ensures AssociationBudgetAt(if l == x.assocLim then Acquired(limits, x.clientKey) else limits, relays[r := x], l)
  {
    AssociationsUpdate(relays, r, x, l);
    assert r !in Associations(relays, l);
    if l == x.assocLim {
      AcquireValid(limits, x.clientKey);
      TallyAcquire(limits, Associations(relays, l), map[], r, x.clientKey);
    } else {
      assert Associations(relays, l) - {r} == Associations(relays, l);
    }
  }

  // --- Steps beside calls, relays and entries ----------------------------------------------------------

  lemma SettingsRefs(s: State, s': State, n: nat, a: nat, caps: Caps)
    requires Refs(s) && Settings(s, s', n, a, caps)
    ensures Refs(s')
  {
    RefsFrame(s, s', {}, {}, {}, {});
  }

  lemma RestSame(s: State, s': State)
    requires Rest(s) && s'.calls == s.calls && s'.relays == s.relays && s'.entries == s.entries
    ensures Rest(s')
  {
    forall u | u in s'.calls ensures KeyFree(s'.relays, s'.calls[u]) { assert KeyFree(s.relays, s.calls[u]); }
    forall e | e in s'.entries ensures ChargedAt(s'.relays, s'.calls, e, s'.entries[e]) {
      assert ChargedAt(s.relays, s.calls, e, s.entries[e]);
    }
    forall q | q in s'.relays ensures LateAt(s'.calls, q, s'.relays[q]) {
      assert LateAt(s.calls, q, s.relays[q]);
    }
  }

  // A fresh limiter counts nobody, and nobody refers to it yet.
  lemma SettingsBudget(s: State, s': State, n: nat, a: nat, caps: Caps)
    requires Refs(s) && Budget(s) && Settings(s, s', n, a, caps)
    ensures Budget(s')
  {
    forall l | l in s'.natLims ensures NatBudgetAt(s'.natLims[l], s'.calls, s'.entries, l) {
      if l == n {
        NobodyDials(s, n);
        FreshBudget(s'.natLims[n].maxTotal, s'.natLims[n].maxPerClient);
      } else {
        assert NatBudgetAt(s.natLims[l], s.calls, s.entries, l);
      }
    }
    forall l | l in s'.assocLims ensures AssociationBudgetAt(s'.assocLims[l], s'.relays, l) {
      if l == a {
        NobodyAssociates(s, a);
        FreshBudget(s'.assocLims[a].maxTotal, s'.assocLims[a].maxPerClient);
      } else {
        assert AssociationBudgetAt(s.assocLims[l], s.relays, l);
      }
    }
  }

  lemma FreshBudget(maxTotal: int, maxPerClient: int)
    ensures Sound(Fresh(maxTotal, maxPerClient)) && Tallies(Fresh(maxTotal, maxPerClient), map[], map[])
  {
    FreshValid(maxTotal, maxPerClient);
    TallyEmpty(maxTotal, maxPerClient);
  }

  lemma NobodyDials(s: State, n: nat)
    requires CallsOk(s) && EntriesOk(s) && n !in s.natLims
    ensures Dials(s.calls, n) == map[] && Lives(s.entries, n) == map[]
  {
    forall t | t in s.calls ensures s.calls[t].pc != Dialing(n) { assert CallOk(s, s.calls[t]); }
    forall e | e in s.entries ensures s.entries[e].lim != n { assert EntryOk(s, s.entries[e]); }
  }

  lemma NobodyAssociates(s: State, a: nat)
    requires RelaysOk(s) && a !in s.assocLims
    ensures Associations(s.relays, a) == map[]
  {
    forall r | r in s.relays ensures s.relays[r].assocLim != a { assert RelayOk(s, r, s.relays[r]); }
  }

  lemma ReverseStepRefs(s: State, s': State, v: nat, pc: ReversePc)
    requires Refs(s) && EndReverse(s, s', v, pc)
    ensures Refs(s')
  {
    assert ReverseOk(s, s.reverses[v]);
    RefsFrame(s, s', {}, {}, {}, {v});
  }

  lemma DeliverRefs(s: State, s': State, v: nat)
    requires Refs(s) && Deliver(s, s', v)
    ensures Refs(s')
  {
    var before := s'.(deliveries := s.deliveries);
    RefsFrame(s, before, {}, {}, {}, {});
    assert ReverseOk(s, s.reverses[v]);
    forall i | 0 <= i < |s'.deliveries| ensures DeliveryOk(s', s'.deliveries[i]) {
      if i < |s.deliveries| { assert DeliveryOk(s, s.deliveries[i]); }
    }
    SameButDeliveries(before, s');
  }

  lemma SameButDeliveries(s: State, s': State)
    requires Refs(s) && DeliveriesOk(s') && s' == s.(deliveries := s'.deliveries)
    ensures Refs(s')
  {
    CallsFrame(s, s', {});
    RelaysFrame(s, s', {});
    EntriesFrame(s, s', {});
    ReversesFrame(s, s', {});
  }

  lemma BudgetSame(s: State, s': State)
    requires Budget(s) && s'.calls == s.calls && s'.relays == s.relays && s'.entries == s.entries
    requires s'.natLims == s.natLims && s'.assocLims == s.assocLims
    ensures Budget(s')
  {
    forall l | l in s'.natLims ensures NatBudgetAt(s'.natLims[l], s'.calls, s'.entries, l) {
      assert NatBudgetAt(s.natLims[l], s.calls, s.entries, l);
    }
    forall l | l in s'.assocLims ensures AssociationBudgetAt(s'.assocLims[l], s'.relays, l) {
      assert AssociationBudgetAt(s.assocLims[l], s.relays, l);
    }
  }

  // --- Every step, every run ---------------------------------------------------------------------------

  // Steps of a call up to its dial, and from then on.
  predicate OfCall(step: Step) {
    step.Begin_? || step.Advance_? || step.AcquireUnit_? || step.DialFail_? || step.DialOk_?
  }

  predicate OfTable(step: Step) { step.Install_? || step.StartReverse_? || step.Undo_? }

  predicate OfRelay(step: Step) {
    step.Settings_? || step.Associate_? || step.Disassociate_? || step.EnterPhase_? || step.Drain_?
  }

  lemma NextRefsCall(s: State, s': State, step: Step)
    requires Refs(s) && NextStep(s, s', step) && OfCall(step)
    ensures Refs(s')
  {
    match step
    case Begin_(t, c) => BeginRefs(s, s', t, c);
    case Advance_(t, pc) => AdvanceRefs(s, s', t, pc);
    case AcquireUnit_(t, lim) => AcquireRefs(s, s', t, lim);
    case DialFail_(t) => DialFailRefs(s, s', t);
    case DialOk_(t, e, now) => DialOkRefs(s, s', t, e, now);
  }

  lemma NextRefsTable(s: State, s': State, step: Step)
    requires Refs(s) && NextStep(s, s', step) && OfTable(step)
    ensures Refs(s')
  {
    match step
    case Install_(t, after, actual, evicted, installed) => InstallRefs(s, s', t, after, actual, evicted, installed);
    case StartReverse_(t, v) => StartReverseRefs(s, s', t, v);
    case Undo_(t) => UndoRefs(s, s', t);
  }

  lemma NextRefsOther(s: State, s': State, step: Step)
    requires Refs(s) && NextStep(s, s', step) && !OfCall(step) && !OfTable(step)
    ensures Refs(s')
  {
    match step
    case Settings_(n, a, caps) => SettingsRefs(s, s', n, a, caps);
    case Associate_(r, relay) => AssociateRefs(s, s', r, relay);
    case Disassociate_(r) => DisassociateRefs(s, s', r);
    case EnterPhase_(r, phase) => PhaseRefs(s, s', r, phase);
    case Drain_(r) => DrainRefs(s, s', r);
    case Stir_(e, entry) => EntryStepRefs(s, s', e);
    case FinishClose_(e) => EntryStepRefs(s, s', e);
    case Deliver_(v) => DeliverRefs(s, s', v);
    case EndReverse_(v, pc) => ReverseStepRefs(s, s', v, pc);
    case RevDelete_(v) => RevDeleteRefs(s, s', v);
  }

  lemma NextRefs(s: State, s': State, step: Step)
    requires Refs(s) && NextStep(s, s', step)
    ensures Refs(s')
  {
    if OfTable(step) { NextRefsTable(s, s', step); }
    else if OfCall(step) { NextRefsCall(s, s', step); }
    else { NextRefsOther(s, s', step); }
  }

  lemma NextRestCall(s: State, s': State, step: Step)
    requires Refs(s) && Rest(s) && NextStep(s, s', step) && OfCall(step)
    ensures Rest(s')
  {
    match step
    case Begin_(t, c) => BeginRest(s, s', t, c);
    case Advance_(t, pc) => AdvanceRest(s, s', t, pc);
    case AcquireUnit_(t, lim) => AcquireRest(s, s', t, lim);
    case DialFail_(t) => DialFailRest(s, s', t);
    case DialOk_(t, e, now) => DialOkRest(s, s', t, e, now);
  }

  lemma NextRestTable(s: State, s': State, step: Step)
    requires Refs(s) && Rest(s) && NextStep(s, s', step) && OfTable(step)
    ensures Rest(s')
  {
    match step
    case Install_(t, after, actual, evicted, installed) => InstallRest(s, s', t, after, actual, evicted, installed);
    case StartReverse_(t, v) => StartReverseRest(s, s', t, v);
    case Undo_(t) => UndoRest(s, s', t);
  }

  lemma NextRestOther(s: State, s': State, step: Step)
    requires Refs(s) && Rest(s) && NextStep(s, s', step) && !OfCall(step) && !OfTable(step)
    ensures Rest(s')
  {
    match step
    case Settings_(n, a, caps) => RestSame(s, s');
    case Associate_(r, relay) => AssociateRest(s, s', r, relay);
    case Disassociate_(r) => DisassociateRest(s, s', r);
    case EnterPhase_(r, phase) => PhaseRest(s, s', r, phase);
    case Drain_(r) => DrainRest(s, s', r);
    case Stir_(e, entry) => EntryStepRest(s, s', e);
    case FinishClose_(e) => EntryStepRest(s, s', e);
    case Deliver_(v) => RestSame(s, s');
    case EndReverse_(v, pc) => RestSame(s, s');
    case RevDelete_(v) => RevDeleteRest(s, s', v);
  }

  lemma NextRest(s: State, s': State, step: Step)
    requires Refs(s) && Rest(s) && NextStep(s, s', step)
    ensures Rest(s')
  {
    if OfTable(step) { NextRestTable(s, s', step); }
    else if OfCall(step) { NextRestCall(s, s', step); }
    else { NextRestOther(s, s', step); }
  }

  lemma NextBudgetCall(s: State, s': State, step: Step)
    requires Refs(s) && Budget(s) && NextStep(s, s', step) && OfCall(step)
    ensures Budget(s')
  {
    match step
    case Begin_(t, c) => BeginBudget(s, s', t, c);
    case Advance_(t, pc) => AdvanceBudget(s, s', t, pc);
    case AcquireUnit_(t, lim) => AcquireBudget(s, s', t, lim);
    case DialFail_(t) => DialFailBudget(s, s', t);
    case DialOk_(t, e, now) => DialOkBudget(s, s', t, e, now);
  }

  lemma NextBudgetTable(s: State, s': State, step: Step)
    requires Refs(s) && Budget(s) && NextStep(s, s', step) && OfTable(step)
    ensures Budget(s')
  {
    match step
    case Install_(t, after, actual, evicted, installed) => InstallBudget(s, s', t, after, actual, evicted, installed);
    case StartReverse_(t, v) => StartReverseBudget(s, s', t, v);
    case Undo_(t) => UndoBudget(s, s', t);
  }

  lemma NextBudgetOther(s: State, s': State, step: Step)
    requires Refs(s) && Budget(s) && NextStep(s, s', step) && !OfCall(step) && !OfTable(step)
    ensures Budget(s')
  {
    match step
    case Settings_(n, a, caps) => SettingsBudget(s, s', n, a, caps);
    case Associate_(r, relay) => AssociateBudget(s, s', r, relay);
    case Disassociate_(r) => DisassociateBudget(s, s', r);
    case EnterPhase_(r, phase) => PhaseBudget(s, s', r, phase);
    case Drain_(r) => DrainBudget(s, s', r);
    case Stir_(e, entry) => StirBudget(s, s', e, entry);
    case FinishClose_(e) => FinishCloseBudget(s, s', e);
    case Deliver_(v) => BudgetSame(s, s');
    case EndReverse_(v, pc) => BudgetSame(s, s');
    case RevDelete_(v) => RevDeleteBudget(s, s', v);
  }

  lemma NextBudget(s: State, s': State, step: Step)
    requires Refs(s) && Budget(s) && NextStep(s, s', step)
    ensures Budget(s')
  {
    if OfTable(step) { NextBudgetTable(s, s', step); }
    else if OfCall(step) { NextBudgetCall(s, s', step); }
    else { NextBudgetOther(s, s', step); }
  }

  lemma {:induction false} RunInv(tr: seq<State>, i: nat)
    requires Run(tr) && i < |tr|
    ensures Inv(tr[i])
  {
    if i == 0 {
      InitInv(tr[0]);
    } else {
      RunInv(tr, i - 1);
      assert Next(tr[i - 1], tr[i]);
      var step :| NextStep(tr[i - 1], tr[i], step);
      NextRefs(tr[i - 1], tr[i], step);
      NextRest(tr[i - 1], tr[i], step);
      NextBudget(tr[i - 1], tr[i], step);
    }
  }

  // --- The theorems ---------------------------------------------------------------------------------------

  /** Budget conservation: in every state of every run a NAT limiter's total is the sum of
      its client counts and counts exactly the dials that hold a unit plus the entries not
      yet closed, over all relays, in total and per client; both caps hold. */
  lemma NatBudgetConserved(tr: seq<State>, i: nat, l: nat)
    requires Run(tr) && i < |tr| && l in tr[i].natLims
    ensures var s, lim := tr[i], tr[i].natLims[l];
            && lim.total == Sum(lim.byClient) == |Dials(s.calls, l)| + |Lives(s.entries, l)|
            && (forall c :: Count(lim, c) == |Of(Dials(s.calls, l), c)| + |Of(Lives(s.entries, l), c)|)
            && (lim.maxTotal > 0 ==> lim.total <= lim.maxTotal)
            && (lim.maxPerClient > 0 ==> forall c :: Count(lim, c) <= lim.maxPerClient)
  {
    RunInv(tr, i);
    assert NatBudgetAt(tr[i].natLims[l], tr[i].calls, tr[i].entries, l);
  }

  lemma AssociationBudgetConserved(tr: seq<State>, i: nat, l: nat)
    requires Run(tr) && i < |tr| && l in tr[i].assocLims
    ensures var s, lim := tr[i], tr[i].assocLims[l];
            && lim.total == Sum(lim.byClient) == |Associations(s.relays, l)|
            && (forall c :: Count(lim, c) == |Of(Associations(s.relays, l), c)|)
            && (lim.maxTotal > 0 ==> lim.total <= lim.maxTotal)
            && (lim.maxPerClient > 0 ==> forall c :: Count(lim, c) <= lim.maxPerClient)
  {
    RunInv(tr, i);
    var lim := tr[i].assocLims[l];
    assert AssociationBudgetAt(lim, tr[i].relays, l);
    forall c ensures Count(lim, c) == |Of(Associations(tr[i].relays, l), c)| {
      assert Of(map[], c) == {};
    }
  }

  function Configured(cap: int, default': int): int { if cap > 0 then cap else default' }

  ghost predicate CapsAre(l: Limits, total: int, perClient: int) {
    l.maxTotal == total && l.maxPerClient == perClient && l.total <= total && forall c :: Count(l, c) <= perClient
  }

  /** The limiters that SetUDPSettings installs carry the caps it was called with, each its own and the default for a
      cap that is not positive, and keep within them for the rest of the run, also once they are replaced. */
  lemma ConfiguredCapsHold(tr: seq<State>, i: nat, j: nat, n: nat, a: nat, caps: Caps)
    requires Run(tr) && i < j < |tr| && Settings(tr[i], tr[i + 1], n, a, caps)
    ensures tr[i + 1].curNat == n && tr[i + 1].curAssoc == a
    ensures n in tr[j].natLims
    ensures CapsAre(tr[j].natLims[n], Configured(caps.natEntries, 512), Configured(caps.natPerClient, 256))
    ensures a in tr[j].assocLims
    ensures CapsAre(tr[j].assocLims[a], Configured(caps.assoc, 64), Configured(caps.assocPerClient, 8))
  {
    RunKeeps(tr, i + 1, j);
    NatBudgetConserved(tr, j, n);
    AssociationBudgetConserved(tr, j, a);
  }

  ghost predicate SameCaps(a: map<nat, Limits>, b: map<nat, Limits>) {
    forall l :: l in a ==> l in b && b[l].maxTotal == a[l].maxTotal && b[l].maxPerClient == a[l].maxPerClient
  }

  // What every step keeps of calls, entries and limiters.
  ghost predicate Keeps(s: State, s': State) {
    && SameCaps(s.natLims, s'.natLims) && SameCaps(s.assocLims, s'.assocLims)
    && CallsGrow(s.calls, s'.calls) && EntriesGrow(s.entries, s'.entries)
  }

  lemma KeepsCall(s: State, s': State, step: Step)
    requires NextStep(s, s', step) && OfCall(step)
    ensures Keeps(s, s')
  {
    if step.AcquireUnit_? || step.DialFail_? { KeepsUnit(s, s', step); } else { KeepsPlain(s, s', step); }
  }

  lemma KeepsUnit(s: State, s': State, step: Step)
    requires NextStep(s, s', step) && (step.AcquireUnit_? || step.DialFail_?)
    ensures Keeps(s, s')
  {
  }

  lemma KeepsPlain(s: State, s': State, step: Step)
    requires NextStep(s, s', step) && (step.Begin_? || step.Advance_? || step.DialOk_?)
    ensures Keeps(s, s')
  {
  }

  lemma KeepsTable(s: State, s': State, step: Step)
    requires NextStep(s, s', step) && OfTable(step)
    ensures Keeps(s, s')
  {
  }

  lemma KeepsRelay(s: State, s': State, step: Step)
    requires NextStep(s, s', step) && OfRelay(step)
    ensures Keeps(s, s')
  {
  }

  lemma KeepsRest(s: State, s': State, step: Step)
    requires NextStep(s, s', step) && !OfCall(step) && !OfTable(step) && !OfRelay(step)
    ensures Keeps(s, s')
  {
  }

  lemma NextKeeps(s: State, s': State)
    requires Next(s, s')
    ensures Keeps(s, s')
  {
    var step :| NextStep(s, s', step);
    if OfCall(step) {
      KeepsCall(s, s', step);
    } else if OfTable(step) {
      KeepsTable(s, s', step);
    } else if OfRelay(step) {
      KeepsRelay(s, s', step);
    } else {
      KeepsRest(s, s', step);
    }
  }

  lemma KeepsTrans(s: State, s': State, s'': State)
    requires Keeps(s, s') && Keeps(s', s'')
    ensures Keeps(s, s'')
  {
  }

  lemma {:induction false} RunKeeps(tr: seq<State>, i: nat, j: nat)
    requires Run(tr) && i <= j < |tr|
    ensures Keeps(tr[i], tr[j])
    decreases j
  {
    if i < j {
      RunKeeps(tr, i, j - 1);
      NextKeeps(tr[j - 1], tr[j]);
      KeepsTrans(tr[i], tr[j - 1], tr[j]);
    }
  }

  /** No association ever holds more entries than its own limit, 64 unless one was configured. */
  lemma TableCapped(tr: seq<State>, i: nat, r: nat)
    requires Run(tr) && i < |tr| && r in tr[i].relays
    ensures |tr[i].relays[r].table| <= Configured(tr[i].relays[r].maxNat, 64)
  {
    RunInv(tr, i);
    assert RelayOk(tr[i], r, tr[i].relays[r]);
  }

  predicate AtCap(l: Limits, client: string) {
    (l.maxTotal > 0 && l.total >= l.maxTotal) || (l.maxPerClient > 0 && Count(l, client) >= l.maxPerClient)
  }

  /** A call is refused for the budget only while a limiter it may be charged to stands at one of its two caps, and is
      granted its unit only while the one it is charged to stands at neither. */
  lemma RefusedOnlyAtCap(s: State, s': State, step: Step, t: nat)
    requires NextStep(s, s', step) && At(s, t) && s.calls[t].pc == Routing && t in s'.calls
    ensures s'.calls[t].pc == Returned(Failed(ErrNatLimit)) ==>
              exists l :: && l in s.natLims && Charges(s.relays[s.calls[t].relay], l)
                          && AtCap(s.natLims[l], s.calls[t].client)
    ensures s'.calls[t].pc.Dialing? ==>
              && s'.calls[t].pc.lim in s.natLims && Charges(s.relays[s.calls[t].relay], s'.calls[t].pc.lim)
              && !AtCap(s.natLims[s'.calls[t].pc.lim], s.calls[t].client)
  {
    if step.Advance_? && step.t == t {
      RefusedAtCap(s, s', t, step.pc);
    } else if step.AcquireUnit_? && step.t == t {
      GrantedBelowCap(s, s', t, step.lim);
    } else if OfCall(step) {
      RoutingAlone(s, s', step, t);
    } else {
      RoutingBeside(s, s', step, t);
    }
  }

  lemma RefusedAtCap(s: State, s': State, t: nat, pc: Pc)
    requires Advance(s, s', t, pc) && s.calls[t].pc == Routing
    ensures s'.calls[t].pc == pc && !pc.Dialing?
    ensures pc == Returned(Failed(ErrNatLimit)) ==>
              exists l :: && l in s.natLims && Charges(s.relays[s.calls[t].relay], l)
                          && AtCap(s.natLims[l], s.calls[t].client)
  {
    if pc == Returned(Failed(ErrNatLimit)) {
      var l :| l in s.natLims && Charges(s.relays[s.calls[t].relay], l) && !Admits(s.natLims[l], s.calls[t].client);
      assert AtCap(s.natLims[l], s.calls[t].client);
    }
  }

  lemma GrantedBelowCap(s: State, s': State, t: nat, lim: nat)
    requires AcquireUnit(s, s', t, lim)
    ensures s'.calls[t].pc == Dialing(lim) && !AtCap(s.natLims[lim], s.calls[t].client)
  {
  }

  lemma RoutingAlone(s: State, s': State, step: Step, t: nat)
    requires NextStep(s, s', step) && OfCall(step) && t in s.calls && s.calls[t].pc == Routing
    requires (step.Advance_? || step.AcquireUnit_?) ==> step.t != t
    ensures t in s'.calls && s'.calls[t].pc == Routing
  {
  }

  lemma RoutingBeside(s: State, s': State, step: Step, t: nat)
    requires NextStep(s, s', step) && !OfCall(step) && t in s.calls && s.calls[t].pc == Routing
    ensures t in s'.calls && s'.calls[t].pc == Routing
  {
  }

  ghost predicate Quiet(s: State, r: nat) {
    forall t :: t in s.calls && s.calls[t].relay == r ==> s.calls[t].pc.Returned?
  }

  /** Shutdown leaves nothing behind: once Close has returned and no getOrCreateNAT call is
      under way, the table is empty, every entry ever built is closed, no dial and no entry
      of the relay holds a NAT unit, and its association unit is back. */
  lemma ShutdownLeavesNothing(tr: seq<State>, i: nat, r: nat)
    requires Run(tr) && i < |tr| && r in tr[i].relays
    requires tr[i].relays[r].phase == Finished && Quiet(tr[i], r)
    ensures tr[i].relays[r].table == map[]
    ensures forall e :: e in tr[i].entries && tr[i].entries[e].relay == r ==> tr[i].entries[e].status == Closed
    ensures forall l, t :: t in Dials(tr[i].calls, l) ==> tr[i].calls[t].relay != r
    ensures forall l, e :: e in Lives(tr[i].entries, l) ==> tr[i].entries[e].relay != r
    ensures forall l :: r !in Associations(tr[i].relays, l)
  {
    RunInv(tr, i);
    EmptyWhenQuiet(tr[i], r);
    forall e | e in tr[i].entries && tr[i].entries[e].relay == r ensures tr[i].entries[e].status == Closed {
      ClosedWhenQuiet(tr[i], r, e);
    }
  }

  lemma EmptyWhenQuiet(s: State, r: nat)
    requires Late(s) && r in s.relays && Drained(s.relays[r]) && Quiet(s, r)
    ensures s.relays[r].table == map[]
  {
    assert LateAt(s.calls, r, s.relays[r]);
    assert forall e :: !CallWillRecheck(s.calls, r, e);
  }

  lemma ClosedWhenQuiet(s: State, r: nat, e: nat)
    requires Charged(s) && r in s.relays && s.relays[r].phase == Finished && s.relays[r].table == map[] && Quiet(s, r)
    requires e in s.entries && s.entries[e].relay == r
    ensures s.entries[e].status == Closed
  {
    assert ChargedAt(s.relays, s.calls, e, s.entries[e]);
  }

  // The call is before its first test of `done`, or has been refused.
  ghost predicate TurnedAway(s: State, t: nat) {
    && t in s.calls && s.calls[t].relay in s.relays && Done(s.relays[s.calls[t].relay])
    && (s.calls[t].pc == CheckDone || s.calls[t].pc == Returned(Failed(ErrClosed)))
  }

  /** A call that has yet to test `done` when it is closed gets nothing but the refusal. */
  lemma ClosedRefuses(tr: seq<State>, i: nat, j: nat, t: nat)
    requires Run(tr) && i <= j < |tr|
    requires t in tr[i].calls && tr[i].calls[t].pc == CheckDone
    requires tr[i].calls[t].relay in tr[i].relays && Done(tr[i].relays[tr[i].calls[t].relay])
    ensures t in tr[j].calls
    ensures tr[j].calls[t].pc == CheckDone || tr[j].calls[t].pc == Returned(Failed(ErrClosed))
  {
    RunTurnsAway(tr, i, j);
    assert TurnedAway(tr[i], t);
  }

  ghost predicate TurnsAway(s: State, s': State) {
    forall t {:trigger TurnedAway(s, t)} {:trigger TurnedAway(s', t)} :: TurnedAway(s, t) ==> TurnedAway(s', t)
  }

  lemma {:induction false} RunTurnsAway(tr: seq<State>, i: nat, j: nat)
    requires Run(tr) && i <= j < |tr|
    ensures TurnsAway(tr[i], tr[j])
    decreases j
  {
    if i < j {
      RunTurnsAway(tr, i, j - 1);
      NextTurnsAway(tr[j - 1], tr[j]);
      TurnsAwayTrans(tr[i], tr[j - 1], tr[j]);
    }
  }

  lemma TurnsAwayTrans(s: State, s': State, s'': State)
    requires TurnsAway(s, s') && TurnsAway(s', s'')
    ensures TurnsAway(s, s'')
  {
  }

  lemma NextTurnsAway(s: State, s': State)
    requires Next(s, s')
    ensures TurnsAway(s, s')
  {
    var step :| NextStep(s, s', step);
    forall t | TurnedAway(s, t) ensures TurnedAway(s', t) { TurnedAwayStep(s, s', step, t); }
  }

  lemma TurnedAwayStep(s: State, s': State, step: Step, t: nat)
    requires NextStep(s, s', step) && TurnedAway(s, t)
    ensures TurnedAway(s', t)
  {
    if OfCall(step) {
      CallTurnedAway(s, s', step, t);
    } else if OfRelay(step) {
      RelayTurnedAway(s, s', step, t);
    } else {
      RestTurnedAway(s, s', step, t);
    }
  }

  lemma CallTurnedAway(s: State, s': State, step: Step, t: nat)
    requires NextStep(s, s', step) && OfCall(step) && TurnedAway(s, t)
    ensures TurnedAway(s', t)
  {
  }

  lemma RelayTurnedAway(s: State, s': State, step: Step, t: nat)
    requires NextStep(s, s', step) && OfRelay(step) && TurnedAway(s, t)
    ensures TurnedAway(s', t)
  {
  }

  lemma RestTurnedAway(s: State, s': State, step: Step, t: nat)
    requires NextStep(s, s', step) && !OfCall(step) && !OfRelay(step) && TurnedAway(s, t)
    ensures TurnedAway(s', t)
  {
  }

  /** Once every association is gone and no call is under way, every limiter ever installed,
      current or replaced, is back at zero. */
  lemma EverythingReturned(tr: seq<State>, i: nat)
    requires Run(tr) && i < |tr|
    requires forall r :: r in tr[i].relays ==> tr[i].relays[r].phase == Finished || tr[i].relays[r].phase == Refused
    requires forall t :: t in tr[i].calls ==> tr[i].calls[t].pc.Returned?
    ensures forall l :: l in tr[i].natLims ==> tr[i].natLims[l].total == 0 && tr[i].natLims[l].byClient == map[]
    ensures forall l :: l in tr[i].assocLims ==> tr[i].assocLims[l].total == 0 && tr[i].assocLims[l].byClient == map[]
  {
    var s := tr[i];
    RunInv(tr, i);
    forall e | e in s.entries ensures s.entries[e].status == Closed {
      assert EntryOk(s, s.entries[e]);
      ShutdownLeavesNothing(tr, i, s.entries[e].relay);
    }
    forall l | l in s.natLims ensures s.natLims[l].total == 0 && s.natLims[l].byClient == map[] {
      assert Dials(s.calls, l) == map[] && Lives(s.entries, l) == map[];
      assert NatBudgetAt(s.natLims[l], s.calls, s.entries, l);
      TallyNone(s.natLims[l]);
    }
    forall l | l in s.assocLims ensures s.assocLims[l].total == 0 && s.assocLims[l].byClient == map[] {
      assert Associations(s.relays, l) == map[];
      assert AssociationBudgetAt(s.assocLims[l], s.relays, l);
      TallyNone(s.assocLims[l]);
    }
  }

  /** Flow isolation: an entry handed to a caller was built for the association, client address and target the
      call was made with, provided neither client text holds a bar, or both are texts of UDP addresses; and it stays
      an entry for them. */
  lemma FlowIsolation(tr: seq<State>, h: nat, i: nat, j: nat, t: nat)
    requires Run(tr) && h <= i <= j < |tr| && t in tr[h].calls
    requires t in tr[i].calls && tr[i].calls[t].pc.Returned? && tr[i].calls[t].pc.outcome.Gave?
    ensures var c, e := tr[h].calls[t], tr[i].calls[t].pc.outcome.entry;
            && e in tr[j].entries && tr[j].entries[e].relay == c.relay
            && (ToldApart(c.clientAddr, tr[j].entries[e].clientAddr) ==>
                  tr[j].entries[e].clientAddr == c.clientAddr && tr[j].entries[e].target == c.target)
  {
    RunInv(tr, i);
    RunKeeps(tr, h, i);
    RunKeeps(tr, i, j);
    assert CallOk(tr[i], tr[i].calls[t]);
    GivenForFlow(tr[i], tr[i].calls[t]);
  }

  lemma GivenForFlow(s: State, c: Call)
    requires CallOk(s, c) && c.pc.Returned? && c.pc.outcome.Gave?
    ensures var x := s.entries[c.pc.outcome.entry];
            ToldApart(c.clientAddr, x.clientAddr) ==> x.clientAddr == c.clientAddr && x.target == c.target
  {
    var x := s.entries[c.pc.outcome.entry];
    if '|' !in c.clientAddr && '|' !in x.clientAddr {
      NatKey.KeyTargetInjective(c.clientAddr, c.target, x.clientAddr, x.target);
    } else if NatKey.RealClient(c.clientAddr) && NatKey.RealClient(x.clientAddr) {
      NatKey.RealClientsKey(c.clientAddr, c.target, x.clientAddr, x.target);
    }
  }

  ghost predicate ToldApart(a: string, b: string) {
    ('|' !in a && '|' !in b) || (NatKey.RealClient(a) && NatKey.RealClient(b))
  }

  /** Every datagram a reverse relay ever wrote went to the client its entry was built for. */
  lemma ReverseOnlyToOwnClient(tr: seq<State>, i: nat, d: nat)
    requires Run(tr) && i < |tr| && d < |tr[i].deliveries|
    ensures var s := tr[i];
            s.deliveries[d].entry in s.entries && s.deliveries[d].to == s.entries[s.deliveries[d].entry].clientAddr
  {
    RunInv(tr, i);
    assert DeliveryOk(tr[i], tr[i].deliveries[d]);
  }

  ghost predicate Lost(s: State, s': State, r: nat, k: string)
    requires r in s.relays && k in s.relays[r].table
  {
    !(r in s'.relays && k in s'.relays[r].table && s'.relays[r].table[k] == s.relays[r].table[k])
  }

  ghost predicate LostTo(s: State, step: Step, r: nat, k: string)
    requires r in s.relays && k in s.relays[r].table
  {
    match step
    case Drain_(q) => q == r
    case Install_(t, _, _, evicted, _) => t in s.calls && s.calls[t].relay == r && evicted == Some(k)
    case Undo_(t) =>
      && t in s.calls && s.calls[t].relay == r
      && s.calls[t].pc.Undoing? && s.calls[t].pc.entry == s.relays[r].table[k]
    case RevDelete_(v) => v in s.reverses && s.reverses[v].relay == r && s.reverses[v].entry == s.relays[r].table[k]
    case _ => false
  }

  /** An entry leaves its table, in any step from any state, only by being the reported eviction
      victim, by the closer's drain, or at the hands of its own flow: an exiting flow never removes a
      newer entry that reuses its key. */
  lemma LeavesTableOnly(s: State, s': State, step: Step, r: nat, k: string)
    requires NextStep(s, s', step) && r in s.relays && k in s.relays[r].table && Lost(s, s', r, k)
    ensures LostTo(s, step, r, k)
  {
    if OfTable(step) { TableLoss(s, s', step, r, k); }
    else if step.RevDelete_? || step.Drain_? { RelayLoss(s, s', step, r, k); }
    else { Lossless(s, s', step, r); }
  }

  lemma TableLoss(s: State, s': State, step: Step, r: nat, k: string)
    requires NextStep(s, s', step) && OfTable(step) && r in s.relays && k in s.relays[r].table && Lost(s, s', r, k)
    ensures LostTo(s, step, r, k)
  {
    match step
    case Install_(t, after, actual, evicted, installed) =>
      InstallLoss(s, s', t, after, actual, evicted, installed, r, k);
    case Undo_(t) => UndoLoss(s, s', t, r, k);
    case StartReverse_(_, _) => LosslessCall(s, s', step);
  }

  lemma RelayLoss(s: State, s': State, step: Step, r: nat, k: string)
    requires NextStep(s, s', step) && (step.RevDelete_? || step.Drain_?)
    requires r in s.relays && k in s.relays[r].table && Lost(s, s', r, k)
    ensures LostTo(s, step, r, k)
  {
    match step
    case RevDelete_(v) => RevDeleteLoss(s, s', v, r, k);
    case Drain_(q) => DrainLoss(s, s', q, r, k);
  }

  lemma InstallLoss(s: State, s': State, t: nat, after: map<string, nat>, actual: nat, evicted: Option<string>,
                    installed: bool, r: nat, k: string)
    requires Install(s, s', t, after, actual, evicted, installed)
    requires r in s.relays && k in s.relays[r].table && Lost(s, s', r, k)
    ensures s.calls[t].relay == r && evicted == Some(k)
  {
  }

  lemma UndoLoss(s: State, s': State, t: nat, r: nat, k: string)
    requires Undo(s, s', t) && r in s.relays && k in s.relays[r].table && Lost(s, s', r, k)
    ensures s.calls[t].relay == r && s.calls[t].pc.entry == s.relays[r].table[k]
  {
  }

  lemma RevDeleteLoss(s: State, s': State, v: nat, r: nat, k: string)
    requires RevDelete(s, s', v) && r in s.relays && k in s.relays[r].table && Lost(s, s', r, k)
    ensures s.reverses[v].relay == r && s.reverses[v].entry == s.relays[r].table[k]
  {
  }

  lemma DrainLoss(s: State, s': State, q: nat, r: nat, k: string)
    requires Drain(s, s', q) && r in s.relays && k in s.relays[r].table && Lost(s, s', r, k)
    ensures q == r
  {
  }

  lemma Lossless(s: State, s': State, step: Step, r: nat)
    requires NextStep(s, s', step) && !step.Install_? && !step.Undo_? && !step.RevDelete_? && !step.Drain_?
    requires r in s.relays
    ensures r in s'.relays && s'.relays[r].table == s.relays[r].table
  {
    if OfCall(step) || step.StartReverse_? { LosslessCall(s, s', step); }
  }

  lemma LosslessCall(s: State, s': State, step: Step)
    requires NextStep(s, s', step) && (OfCall(step) || step.StartReverse_?)
    ensures s'.relays == s.relays
  {
  }
}
