/** The SOCKS5 UDP relay of internal/socks/udp.go as a transition system: any number of
    associations, of concurrent `getOrCreateNAT` calls, of reverse relays and of closers,
    over shared limiters that `SetUDPSettings` may replace at any moment.  Every
    lock-protected section and every channel or once operation is one step. */
module UdpRelay {
  import opened Basics
  import opened ResourceLimiter
  import opened NatTable
  import NatKey

  const DEFAULT_MAX_NAT_ENTRIES := 64

  // sync.Once around an entry's Close: `Closing` while the body runs, `Closed` after it.
  datatype Status = Open | Closing | Closed

  datatype Entry = Entry(relay: nat, clientAddr: string, target: string,
                         lim: nat, client: string, lastSeen: int, status: Status)

  datatype Failure = ErrClosed | ErrRoute | ErrNatLimit | ErrDial

  datatype Outcome = Gave(entry: nat) | Failed(why: Failure)

  // Program points of getOrCreateNAT; those from DoubleCheck to CloseOwn are inside the
  // single-flight section of the call's key.
  datatype Pc =
    | CheckDone | FirstLoad | Joining | Waiting(leader: nat)
    | DoubleCheck | Routing | Dialing(lim: nat) | Installing(entry: nat)
    | Evicting(entry: nat, victim: nat) | Recheck(entry: nat) | Undoing(entry: nat)
    | CloseOwn(entry: nat, andThen: Outcome) | Returned(outcome: Outcome)

  // `client` is the budget key of the relay's client, `clientAddr` the datagram's source.
  datatype Call = Call(relay: nat, client: string, clientAddr: string, target: string, pc: Pc)

  datatype ReversePc = Relaying | RevClosing | RevDeleting | Exited

  datatype Reverse = Reverse(relay: nat, entry: nat, key: string, clientAddr: string, pc: ReversePc)

  // Life of an association: from taking its unit, through the phases of Close.
  datatype Phase = Listening | Refused | Serving | Signalled | Draining(todo: set<nat>) | Releasing | Finished

  datatype Relay = Relay(clientKey: string, assocLim: nat, natLim: Option<nat>, maxNat: int,
                         phase: Phase, table: map<string, nat>)

  // A datagram a reverse relay wrote towards a client.
  datatype Delivery = Delivery(entry: nat, to: string)

  datatype State = State(
    natLims: map<nat, Limits>, assocLims: map<nat, Limits>, curNat: nat, curAssoc: nat,
    relays: map<nat, Relay>, entries: map<nat, Entry>,
    calls: map<nat, Call>, reverses: map<nat, Reverse>, deliveries: seq<Delivery>)

  // The caps among the UDP settings; zero or less selects the default.
  datatype Caps = Caps(assoc: int, assocPerClient: int, natEntries: int, natPerClient: int)

  predicate Done(r: Relay) { r.phase.Signalled? || Drained(r) }

  predicate Drained(r: Relay) { r.phase.Draining? || r.phase.Releasing? || r.phase.Finished? }

  predicate Exists(r: Relay) { r.phase.Serving? || Done(r) }

  predicate HoldsAssociation(r: Relay) { !r.phase.Refused? && !r.phase.Finished? }

  function Limit(r: Relay): int { OrDefault(r.maxNat, DEFAULT_MAX_NAT_ENTRIES) }

  function CallKey(c: Call): string { NatKey.Key(c.clientAddr, c.target) }

  function EntryKey(e: Entry): string { NatKey.Key(e.clientAddr, e.target) }

  predicate InFlight(pc: Pc) {
    pc.DoubleCheck? || pc.Routing? || pc.Dialing? || pc.Installing? || pc.Evicting? || pc.Recheck? || pc.Undoing? ||
    pc.CloseOwn?
  }

  // --- Steps ----------------------------------------------------------------------------

  ghost predicate Init(s: State) {
    && s.natLims.Keys == {s.curNat} && s.assocLims.Keys == {s.curAssoc}
    && s.natLims[s.curNat] == Fresh(512, 256) && s.assocLims[s.curAssoc] == Fresh(64, 8)
    && s.relays == map[] && s.entries == map[] && s.calls == map[] && s.reverses == map[] && s.deliveries == []
  }

  // SetUDPSettings installs fresh limiters; the old ones stay with their holders.
  ghost predicate Settings(s: State, s': State, n: nat, a: nat, caps: Caps) {
    && n !in s.natLims && a !in s.assocLims
    && s' == s.(natLims := s.natLims[n := Fresh(OrDefault(caps.natEntries, 512), OrDefault(caps.natPerClient, 256))],
                assocLims := s.assocLims[a := Fresh(OrDefault(caps.assoc, 64), OrDefault(caps.assocPerClient, 8))],
                curNat := n, curAssoc := a)
  }

  // NewUDPRelay takes its association unit, on a settings snapshot that may be outdated.
  ghost predicate Associate(s: State, s': State, r: nat, relay: Relay) {
    && r !in s.relays && relay.assocLim in s.assocLims && (relay.natLim.Some? ==> relay.natLim.value in s.natLims)
    && relay.phase == Listening && relay.table == map[]
    && Admits(s.assocLims[relay.assocLim], relay.clientKey)
    && s' == s.(relays := s.relays[r := relay],
                assocLims := s.assocLims[relay.assocLim := Acquired(s.assocLims[relay.assocLim], relay.clientKey)])
  }

  // The association unit goes back: after a failed listen, or as the last act of Close.
  ghost predicate Disassociate(s: State, s': State, r: nat) {
    && r in s.relays && (s.relays[r].phase == Listening || s.relays[r].phase == Releasing)
    && s.relays[r].assocLim in s.assocLims
    && var relay := s.relays[r];
       s' == s.(relays := s.relays[r := relay.(phase := if relay.phase == Listening then Refused else Finished)],
                assocLims := s.assocLims[relay.assocLim := Released(s.assocLims[relay.assocLim], relay.clientKey)])
  }

  // Phase changes that touch nothing else: a successful listen, close(done), and the
  // closer's walk over the drained entries, each waited for until it is closed.
  ghost predicate MayEnter(s: State, r: nat, phase: Phase)
    requires r in s.relays
  {
    match s.relays[r].phase
    case Listening => phase == Serving
    case Serving => phase == Signalled
    case Draining(todo) =>
      || (todo == {} && phase == Releasing)
      || exists e :: e in todo && e in s.entries && s.entries[e].status == Closed && phase == Draining(todo - {e})
    case _ => false
  }

  ghost predicate EnterPhase(s: State, s': State, r: nat, phase: Phase) {
    r in s.relays && MayEnter(s, r, phase) && s' == s.(relays := s.relays[r := s.relays[r].(phase := phase)])
  }

  ghost predicate Drain(s: State, s': State, r: nat) {
    && r in s.relays && s.relays[r].phase == Signalled
    && s' == s.(relays := s.relays[r := s.relays[r].(phase := Draining(s.relays[r].table.Values), table := map[])])
  }

  ghost predicate Begin(s: State, s': State, t: nat, c: Call) {
    && t !in s.calls && c.relay in s.relays && Exists(s.relays[c.relay]) && c.pc == CheckDone
    && c.client == s.relays[c.relay].clientKey
    && s' == s.(calls := s.calls[t := c])
  }

  ghost predicate SameFlight(s: State, t: nat, u: nat) {
    && t in s.calls && u in s.calls
    && s.calls[t].relay == s.calls[u].relay && CallKey(s.calls[t]) == CallKey(s.calls[u])
  }

  // The limiter a dial is charged to: the relay's own, or else whatever is installed.
  ghost predicate Charges(relay: Relay, lim: nat) {
    relay.natLim.Some? ==> relay.natLim.value == lim
  }

  // Moves of getOrCreateNAT that change nothing but its own program point: the tests of
  // done, both loads of the table, joining or leading the flight, refusals, and waiting
  // for an entry's Close to finish.
  ghost predicate MayAdvance(s: State, t: nat, pc: Pc)
    requires t in s.calls && s.calls[t].relay in s.relays
  {
    var c := s.calls[t];
    var relay := s.relays[c.relay];
    match c.pc
    case CheckDone => pc == if Done(relay) then Returned(Failed(ErrClosed)) else FirstLoad
    case FirstLoad => pc == if CallKey(c) in relay.table then Returned(Gave(relay.table[CallKey(c)])) else Joining
    case Joining =>
      || (pc == DoubleCheck && forall u :: SameFlight(s, t, u) ==> !InFlight(s.calls[u].pc))
      || (pc.Waiting? && SameFlight(s, t, pc.leader) && InFlight(s.calls[pc.leader].pc))
    case Waiting(leader) => leader in s.calls && s.calls[leader].pc.Returned? && pc == s.calls[leader].pc
    case DoubleCheck => pc == if CallKey(c) in relay.table then Returned(Gave(relay.table[CallKey(c)])) else Routing
    case Routing =>
      || pc == Returned(Failed(ErrRoute))
      || (pc == Returned(Failed(ErrNatLimit)) &&
          exists lim :: lim in s.natLims && Charges(relay, lim) && !Admits(s.natLims[lim], c.client))
    case Evicting(e, v) => v in s.entries && s.entries[v].status == Closed && pc == Recheck(e)
    case Recheck(e) => Done(relay) && pc == Undoing(e)
    case CloseOwn(e, o) => e in s.entries && s.entries[e].status == Closed && pc == Returned(o)
    case _ => false
  }

  ghost predicate At(s: State, t: nat) {
    t in s.calls && s.calls[t].relay in s.relays
  }

  ghost predicate Advance(s: State, s': State, t: nat, pc: Pc) {
    At(s, t) && MayAdvance(s, t, pc) && s' == s.(calls := s.calls[t := s.calls[t].(pc := pc)])
  }

  ghost predicate AcquireUnit(s: State, s': State, t: nat, lim: nat) {
    && At(s, t) && s.calls[t].pc == Routing && lim in s.natLims
    && Charges(s.relays[s.calls[t].relay], lim) && Admits(s.natLims[lim], s.calls[t].client)
    && s' == s.(calls := s.calls[t := s.calls[t].(pc := Dialing(lim))],
                natLims := s.natLims[lim := Acquired(s.natLims[lim], s.calls[t].client)])
  }

  ghost predicate DialFail(s: State, s': State, t: nat) {
    && At(s, t) && s.calls[t].pc.Dialing? && s.calls[t].pc.lim in s.natLims
    && var lim := s.calls[t].pc.lim;
       s' == s.(calls := s.calls[t := s.calls[t].(pc := Returned(Failed(ErrDial)))],
                natLims := s.natLims[lim := Released(s.natLims[lim], s.calls[t].client)])
  }

  ghost predicate DialOk(s: State, s': State, t: nat, e: nat, now: int) {
    && At(s, t) && s.calls[t].pc.Dialing? && e !in s.entries
    && var c := s.calls[t];
       s' == s.(calls := s.calls[t := c.(pc := Installing(e))],
                entries := s.entries[e := Entry(c.relay, c.clientAddr, c.target, c.pc.lim, c.client, now, Open)])
  }

  function Stamps(s: State): map<nat, int> {
    map e | e in s.entries :: s.entries[e].lastSeen
  }

  ghost predicate Install(s: State, s': State, t: nat, after: map<string, nat>, actual: nat,
                          evicted: Option<string>, installed: bool) {
    && At(s, t) && s.calls[t].pc.Installing?
    && (forall k :: k in s.relays[s.calls[t].relay].table ==> s.relays[s.calls[t].relay].table[k] in s.entries)
    && var c := s.calls[t];
       var relay := s.relays[c.relay];
       var e := c.pc.entry;
       && Installs(relay.table, Stamps(s), CallKey(c), e, Limit(relay), after, actual, evicted, installed)
       && s' == s.(calls := s.calls[t := c.(pc := if !installed then CloseOwn(e, Gave(actual))
                                                  else if evicted.Some? then Evicting(e, relay.table[evicted.value])
                                                  else Recheck(e))],
                   relays := s.relays[c.relay := relay.(table := after)])
  }

  // done was still open after the store: hand the entry out and start its reverse relay.
  ghost predicate StartReverse(s: State, s': State, t: nat, v: nat) {
    && At(s, t) && s.calls[t].pc.Recheck? && v !in s.reverses && !Done(s.relays[s.calls[t].relay])
    && var c := s.calls[t];
       s' == s.(calls := s.calls[t := c.(pc := Returned(Gave(c.pc.entry)))],
                reverses := s.reverses[v := Reverse(c.relay, c.pc.entry, CallKey(c), c.clientAddr, Relaying)])
  }

  // done was closed in the meantime: take the entry back out of the table.
  ghost predicate Undo(s: State, s': State, t: nat) {
    && At(s, t) && s.calls[t].pc.Undoing?
    && var c := s.calls[t];
       var relay := s.relays[c.relay];
       s' == s.(calls := s.calls[t := c.(pc := CloseOwn(c.pc.entry, Failed(ErrClosed)))],
                relays := s.relays[c.relay := relay.(table := Deleted(relay.table, CallKey(c), c.pc.entry))])
  }

  // Somebody stands before entry.Close() on e.
  ghost predicate Wants(s: State, e: nat) {
    || (exists t :: t in s.calls && s.calls[t].pc.Evicting? && s.calls[t].pc.victim == e)
    || (exists t :: t in s.calls && s.calls[t].pc.CloseOwn? && s.calls[t].pc.entry == e)
    || (exists v :: v in s.reverses && s.reverses[v].pc == RevClosing && s.reverses[v].entry == e)
    || (exists r :: r in s.relays && s.relays[r].phase.Draining? && e in s.relays[r].phase.todo)
  }

  // Winning the once of Close, or a fresh activity stamp.
  ghost predicate Stir(s: State, s': State, e: nat, entry: Entry) {
    && e in s.entries
    && (|| (s.entries[e].status == Open && Wants(s, e) && entry == s.entries[e].(status := Closing))
        || entry == s.entries[e].(lastSeen := entry.lastSeen))
    && s' == s.(entries := s.entries[e := entry])
  }

  // The once body ends: socket and route closed, the unit back to the entry's limiter.
  ghost predicate FinishClose(s: State, s': State, e: nat) {
    && e in s.entries && s.entries[e].status == Closing && s.entries[e].lim in s.natLims
    && var lim := s.entries[e].lim;
       s' == s.(entries := s.entries[e := s.entries[e].(status := Closed)],
                natLims := s.natLims[lim := Released(s.natLims[lim], s.entries[e].client)])
  }

  ghost predicate Deliver(s: State, s': State, v: nat) {
    && v in s.reverses && s.reverses[v].pc == Relaying
    && s' == s.(deliveries := s.deliveries + [Delivery(s.reverses[v].entry, s.reverses[v].clientAddr)])
  }

  // The read loop ends for whatever reason; the deferred function closes, then deletes.
  ghost predicate EndReverse(s: State, s': State, v: nat, pc: ReversePc) {
    && v in s.reverses
    && (|| (s.reverses[v].pc == Relaying && pc == RevClosing)
        || (s.reverses[v].pc == RevClosing && pc == RevDeleting && s.reverses[v].entry in s.entries &&
            s.entries[s.reverses[v].entry].status == Closed))
    && s' == s.(reverses := s.reverses[v := s.reverses[v].(pc := pc)])
  }

  ghost predicate RevDelete(s: State, s': State, v: nat) {
    && v in s.reverses && s.reverses[v].pc == RevDeleting && s.reverses[v].relay in s.relays
    && var rev := s.reverses[v];
       var relay := s.relays[rev.relay];
       s' == s.(reverses := s.reverses[v := rev.(pc := Exited)],
                relays := s.relays[rev.relay := relay.(table := Deleted(relay.table, rev.key, rev.entry))])
  }

  datatype Step =
    | Settings_(n: nat, a: nat, caps: Caps) | Associate_(r: nat, relay: Relay) | Disassociate_(r: nat)
    | EnterPhase_(r: nat, phase: Phase) | Drain_(r: nat)
    | Begin_(t: nat, call: Call) | Advance_(t: nat, pc: Pc) | AcquireUnit_(t: nat, lim: nat) | DialFail_(t: nat)
    | DialOk_(t: nat, e: nat, now: int)
    | Install_(t: nat, after: map<string, nat>, actual: nat, evicted: Option<string>, installed: bool)
    | StartReverse_(t: nat, v: nat) | Undo_(t: nat)
    | Stir_(e: nat, entry: Entry) | FinishClose_(e: nat)
    | Deliver_(v: nat) | EndReverse_(v: nat, revPc: ReversePc) | RevDelete_(v: nat)

  ghost predicate NextStep(s: State, s': State, step: Step) {
    match step
    case Settings_(n, a, caps) => Settings(s, s', n, a, caps)
    case Associate_(r, relay) => Associate(s, s', r, relay)
    case Disassociate_(r) => Disassociate(s, s', r)
    case EnterPhase_(r, phase) => EnterPhase(s, s', r, phase)
    case Drain_(r) => Drain(s, s', r)
    case Begin_(t, c) => Begin(s, s', t, c)
    case Advance_(t, pc) => Advance(s, s', t, pc)
    case AcquireUnit_(t, lim) => AcquireUnit(s, s', t, lim)
    case DialFail_(t) => DialFail(s, s', t)
    case DialOk_(t, e, now) => DialOk(s, s', t, e, now)
    case Install_(t, after, actual, evicted, installed) => Install(s, s', t, after, actual, evicted, installed)
    case StartReverse_(t, v) => StartReverse(s, s', t, v)
    case Undo_(t) => Undo(s, s', t)
    case Stir_(e, entry) => Stir(s, s', e, entry)
    case FinishClose_(e) => FinishClose(s, s', e)
    case Deliver_(v) => Deliver(s, s', v)
    case EndReverse_(v, pc) => EndReverse(s, s', v, pc)
    case RevDelete_(v) => RevDelete(s, s', v)
  }

  ghost predicate Next(s: State, s': State) {
    exists step :: NextStep(s, s', step)
  }

  ghost predicate Run(tr: seq<State>) {
    && |tr| > 0 && Init(tr[0])
    && forall i, j {:trigger Next(tr[i], tr[j])} :: 0 <= i && i + 1 == j < |tr| ==> Next(tr[i], tr[j])
  }
}
