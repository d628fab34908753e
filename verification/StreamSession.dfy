/** A byte-stream session end to end: the client's forwarder and the server's, stepping in any order,
    joined by a stream that delivers each side's messages in order and may stop at any point. */
module StreamSession {
  import opened Basics
  import opened SessionWire
  import Server = ServerSession
  import Client = TcpClient

  datatype State = State(server: Server.State, client: Client.State)

  predicate Linked(s: State) {
    s.server.log.inbox <= s.client.log.outbox && s.client.log.inbox <= s.server.log.outbox
  }

  ghost predicate Init(s: State) { Server.Init(s.server) && Client.Init(s.client) }

  ghost predicate Next(s: State, s': State) {
    && Linked(s')
    && (|| (Server.Next(s.server, s'.server) && s'.client == s.client)
        || (Client.Next(s.client, s'.client) && s'.server == s.server))
  }

  ghost predicate Run(tr: seq<State>) {
    && |tr| > 0 && Init(tr[0])
    && forall i, j :: 0 <= i && i + 1 == j < |tr| ==> Next(tr[i], tr[j])
  }

  ghost predicate Inv(s: State) { Linked(s) && Server.Inv(s.server) && Client.Inv(s.client) }

  lemma NextInv(s: State, s': State)
    requires Inv(s) && Next(s, s')
    ensures Inv(s')
  {
    if s'.client == s.client && Server.Next(s.server, s'.server) { Server.NextInv(s.server, s'.server); }
    else { Client.NextInv(s.client, s'.client); }
  }

  lemma InitInv(s: State)
    requires Init(s)
    ensures Inv(s)
  {
    Server.InitInv(s.server);
    Client.InitInv(s.client);
  }

  lemma StepOf(tr: seq<State>, i: nat)
    requires Run(tr) && 0 < i < |tr|
    ensures Next(tr[i - 1], tr[i])
  {
  }

  lemma {:induction false} RunInv(tr: seq<State>, i: nat)
    requires Run(tr) && i < |tr|
    ensures Inv(tr[i])
  {
    if i == 0 {
      InitInv(tr[0]);
    } else {
      RunInv(tr, i - 1);
      StepOf(tr, i);
      NextInv(tr[i - 1], tr[i]);
    }
  }

  /** The bytes that reach the target are a prefix of those read from the caller, and the bytes that
      reach the caller a prefix of those read from the target. */
  lemma BytesDelivered(tr: seq<State>, i: nat)
    requires Run(tr) && i < |tr|
    ensures Concat(tr[i].server.log.written) <= Concat(tr[i].client.log.taken)
    ensures Concat(tr[i].client.log.written) <= Concat(tr[i].server.log.given)
  {
    RunInv(tr, i);
    UpDelivered(tr[i]);
    DownDelivered(tr[i]);
  }

  lemma UpDelivered(s: State)
    requires Inv(s)
    ensures Concat(s.server.log.written) <= Concat(s.client.log.taken)
  {
    Server.InvConveyed(s.server);
    PayloadsPrefix(s.server.log.inbox, s.client.log.outbox);
    Client.InvSends(s.client);
    if s.server.ctl.udp { ConcatPrefix(s.server.log.written, Payloads(s.server.log.inbox)); }
    ConcatPrefix(Payloads(s.server.log.inbox), s.client.log.taken);
  }

  lemma DownDelivered(s: State)
    requires Inv(s)
    ensures Concat(s.client.log.written) <= Concat(s.server.log.given)
  {
    Client.InvConveyed(s.client);
    Server.InvConveyed(s.server);
    SessionsPrefix(s.client.log.inbox, s.server.log.outbox);
    ConcatPrefix(Sessions(s.client.log.inbox), Sessions(s.server.log.outbox));
  }

  // No message got out behind one that was lost: no Send failed, or a failed Send ended the stream.
  predicate Unbroken(l: Server.Log) { EndsInEof(l.outbox) ==> l.outbox == l.trace }

  /** A clean end is a complete one: when the client's loop ended on the server's end of session, over a stream that
      is not broken, the caller has got exactly the bytes the target connection gave, those of a last Read that also
      brought an error included. */
  lemma CleanEnd(tr: seq<State>, i: nat)
    requires Run(tr) && i < |tr| && tr[i].client.ctl.rx.RxStopped? && EndsInEof(tr[i].client.log.inbox)
    requires Unbroken(tr[i].server.log)
    ensures Concat(tr[i].client.log.written) == Concat(tr[i].server.log.given)
  {
    RunInv(tr, i);
    CleanInv(tr[i]);
  }

  lemma CleanInv(s: State)
    requires Inv(s) && s.client.ctl.rx.RxStopped? && EndsInEof(s.client.log.inbox) && Unbroken(s.server.log)
    ensures Concat(s.client.log.written) == Concat(s.server.log.given)
  {
    Server.InvConveyed(s.server);
    EofIsAll(s.client.log.inbox, s.server.log.outbox);
    assert Sessions(s.server.log.trace) + [] == Sessions(s.server.log.trace);
  }

  lemma EofIsAll(seen: seq<Dst>, out: seq<Dst>)
    requires seen <= out && ServerLanguage(out) && EndsInEof(seen)
    ensures seen == out
  {
    assert out[|seen| - 1].status == EOF;
  }

  /** The server never calls a message of this client invalid. */
  lemma ServerNeverObjects(tr: seq<State>, i: nat)
    requires Run(tr) && i < |tr|
    ensures !tr[i].server.log.invalid
  {
    RunInv(tr, i);
    var s := tr[i];
    Client.InvSends(s.client);
    LanguagesCut(s.server.log.inbox, s.client.log.outbox, [], []);
  }

  /** The acknowledgement is signalled at most once, and the caller told at most once. */
  lemma AcknowledgedOnce(tr: seq<State>, i: nat)
    requires Run(tr) && i < |tr|
    ensures tr[i].client.ctl.told <= tr[i].client.ctl.signals <= 1
    ensures tr[i].client.ctl.rx.RxHave? ==> tr[i].client.ctl.localCloses == 0
  {
    RunInv(tr, i);
    var s := tr[i];
    Client.InvConveyed(s.client);
    Server.InvConveyed(s.server);
    LanguagesCut([], [], s.client.log.inbox, s.server.log.outbox);
    Client.OneAcceptance(s.client.log.inbox);
  }

  /** The client never calls a message of this server invalid or its status unknown, whatever the address. */
  lemma ClientNeverObjects(tr: seq<State>, i: nat)
    requires Run(tr) && i < |tr|
    ensures !tr[i].client.log.invalid
  {
    RunInv(tr, i);
    Server.InvConveyed(tr[i].server);
    LanguagesCut([], [], tr[i].client.log.inbox, tr[i].server.log.outbox);
  }

  // --- When the client finds a payload empty ---------------------------------------------------------

  lemma EmptyOnlyFromDatagrams(s: State)
    requires Inv(s) && s.client.log.emptied
    ensures s.server.ctl.udp && s.server.ctl.dialled
  {
    var seen, out := s.client.log.inbox, s.server.log.outbox;
    Server.InvConveyed(s.server);
    LanguagesCut([], [], seen, out);
    SessionsPrefix(seen, out);
    NonEmptyCut(Sessions(seen), Sessions(out));
  }

  lemma NonEmptyCut(a: seq<Chunk>, b: seq<Chunk>)
    ensures a <= b && Client.NonEmpty(b) ==> Client.NonEmpty(a)
  {
    assert a <= b ==> forall i :: 0 <= i < |a| ==> a[i] == b[i];
  }

  // A dialled server knows the family of the address the client was given.
  lemma FamilyKnown(s: State)
    requires Inv(s) && s.server.ctl.dialled
    ensures s.server.ctl.udp <==> WantsUdp(s.client.addr, TCP, s.server.settings)
    ensures Dialable(s.client.addr, TCP, s.server.settings)
  {
    Client.InvSends(s.client);
    assert s.server.log.inbox[0] == s.client.log.outbox[0];
    ResolvedFamily(s.client.addr, TCP, s.server.settings);
  }

  ghost predicate From(s: State, addr: string, settings: DialSettings) {
    s.client.addr == addr && s.server.settings == settings
  }

  ghost predicate Reaches(s: State) {
    exists tr: seq<State> :: Run(tr) && tr[|tr| - 1] == s
  }

  lemma ReachesInv(s: State)
    requires Reaches(s)
    ensures Inv(s)
  {
    var tr :| Run(tr) && tr[|tr| - 1] == s;
    RunInv(tr, |tr| - 1);
  }

  lemma Extend(s: State, s': State)
    requires Reaches(s) && Next(s, s')
    ensures Reaches(s')
  {
    var tr :| Run(tr) && tr[|tr| - 1] == s;
    RunOn(tr, s');
    assert (tr + [s'])[|tr|] == s';
  }

  lemma RunOn(tr: seq<State>, s': State)
    requires Run(tr) && Next(tr[|tr| - 1], s')
    ensures Run(tr + [s'])
  {
    var more := tr + [s'];
    forall i, j | 0 <= i && i + 1 == j < |more| ensures Next(more[i], more[j]) {
      if j < |tr| { assert more[i] == tr[i] && more[j] == tr[j]; }
    }
  }

  lemma ServerMoves(s: State, v: Server.State)
    requires Reaches(s) && Server.Next(s.server, v) && Linked(State(v, s.client))
    ensures Reaches(State(v, s.client))
  {
    Extend(s, State(v, s.client));
  }

  lemma ClientMoves(s: State, c: Client.State)
    requires Reaches(s) && Client.Next(s.client, c) && Linked(State(s.server, c))
    ensures Reaches(State(s.server, c))
  {
    Extend(s, State(s.server, c));
  }

  // The client after its header is out.
  function Called(addr: string): Client.State {
    var c := Client.Initial(addr);
    c.(ctl := c.ctl.(greeting := Client.Greeted(true)), log := c.log.(outbox := [SrcHeader(addr, TCP)]))
  }

  lemma CallReaches(addr: string, settings: DialSettings)
    ensures Reaches(State(Server.Initial(settings), Called(addr)))
  {
    var s, c := State(Server.Initial(settings), Client.Initial(addr)), Client.Initial(addr);
    assert Run([s]) && [s][0] == s;
    var c1 := c.(ctl := c.ctl.(greeting := Client.SendingHeader));
    assert Client.MainControl(c.ctl, c1.ctl);
    ClientMoves(s, c1);
    assert Client.GreetEnd(c1, Called(addr), true, true);
    ClientMoves(State(s.server, c1), Called(addr));
  }

  // The server after dialling a datagram target.
  function Dialled(addr: string, settings: DialSettings): Server.State {
    var v := Server.Initial(settings);
    v.(ctl := v.ctl.(udp := true, addrOk := true, dialled := true, up := Server.Acking),
       log := v.log.(inbox := [SrcHeader(addr, TCP)]))
  }

  lemma DialReaches(addr: string, settings: DialSettings)
    requires WantsUdp(addr, TCP, settings) && Dialable(addr, TCP, settings)
    ensures Reaches(State(Dialled(addr, settings), Called(addr)))
  {
    CallReaches(addr, settings);
    var h, c, v := SrcHeader(addr, TCP), Called(addr), Server.Initial(settings);
    var v1 := v.(ctl := v.ctl.(up := Server.Resolving(h)), log := v.log.(inbox := [h]));
    assert Server.TakeHeader(v, v1, h);
    ServerMoves(State(v, c), v1);
    ResolvedFamily(addr, TCP, settings);
    var v2 := v1.(ctl := v1.ctl.(udp := true, addrOk := true, up := Server.Dialing));
    assert Server.Resolve(v1, v2);
    ServerMoves(State(v1, c), v2);
    assert Server.OpenControl(v2.ctl, Dialled(addr, settings).ctl);
    ServerMoves(State(v2, c), Dialled(addr, settings));
  }

  // The server after accepting, about to read from the target.
  function Accepting(addr: string, settings: DialSettings): Server.State {
    var v, m := Dialled(addr, settings), Dst(Accepted, Header(""));
    v.(ctl := v.ctl.(ackTaken := true, up := Server.Selecting, rx := Server.RxRecv, down := Server.Reading,
                     watch := Server.Watching),
       log := v.log.(trace := [m], outbox := [m]))
  }

  lemma AcceptReaches(addr: string, settings: DialSettings)
    requires WantsUdp(addr, TCP, settings) && Dialable(addr, TCP, settings)
    ensures Reaches(State(Accepting(addr, settings), Called(addr)))
  {
    DialReaches(addr, settings);
    var c, v, m := Called(addr), Dialled(addr, settings), Dst(Accepted, Header(""));
    var v1 := v.(ctl := v.ctl.(up := Server.Selecting, rx := Server.RxRecv));
    assert Server.OpenControl(v.ctl, v1.ctl);
    ServerMoves(State(v, c), v1);
    var v2 := v1.(ctl := v1.ctl.(ackTaken := true, down := Server.Accepting));
    assert Server.AwaitControl(v1.ctl, v2.ctl);
    ServerMoves(State(v1, c), v2);
    var v3 := v2.(ctl := v2.ctl.(down := Server.SendingAccept), log := v2.log.(trace := [m]));
    assert Server.Accept(v2, v3, "", true, None);
    ServerMoves(State(v2, c), v3);
    assert Server.Accept(v3, Accepting(addr, settings), "", true, None);
    ServerMoves(State(v3, c), Accepting(addr, settings));
  }

  // The server after an empty datagram from the target.
  function Relayed(addr: string, settings: DialSettings): Server.State {
    var v, m := Accepting(addr, settings), Dst(Session, Payload([]));
    v.(log := v.log.(trace := v.log.trace + [m], outbox := v.log.outbox + [m], given := [[]]))
  }

  // In between, with the empty datagram in hand.
  function Holding(addr: string, settings: DialSettings): Server.State {
    var v := Accepting(addr, settings);
    v.(ctl := v.ctl.(down := Server.Holding([], None)), log := v.log.(given := [[]]))
  }

  lemma ReadReaches(addr: string, settings: DialSettings)
    requires WantsUdp(addr, TCP, settings) && Dialable(addr, TCP, settings)
    ensures Reaches(State(Holding(addr, settings), Called(addr)))
  {
    AcceptReaches(addr, settings);
    assert Server.Read(Accepting(addr, settings), Holding(addr, settings), [], None);
    ServerMoves(State(Accepting(addr, settings), Called(addr)), Holding(addr, settings));
  }

  lemma RelayReaches(addr: string, settings: DialSettings)
    requires WantsUdp(addr, TCP, settings) && Dialable(addr, TCP, settings)
    ensures Reaches(State(Relayed(addr, settings), Called(addr)))
  {
    ReadReaches(addr, settings);
    var c, v, m := Called(addr), Holding(addr, settings), Dst(Session, Payload([]));
    var v2 := v.(ctl := v.ctl.(down := Server.SendingData([], None)), log := v.log.(trace := v.log.trace + [m]));
    assert Server.Relay(v, v2, true, None);
    ServerMoves(State(v, c), v2);
    assert Server.Relay(v2, Relayed(addr, settings), true, None);
    ServerMoves(State(v2, c), Relayed(addr, settings));
  }

  // The client at work, having received the acceptance.
  function Receiving(addr: string): Client.State {
    var c, m := Called(addr), Dst(Accepted, Header(""));
    c.(ctl := c.ctl.(main := Client.Working, pump := Client.PumpRead, rx := Client.RxHave(m), up := Client.UpSelect,
                     down := Client.DownSelect, ack := Client.AckWait),
       log := c.log.(inbox := [m]))
  }

  lemma ReceiveReaches(addr: string, settings: DialSettings)
    requires WantsUdp(addr, TCP, settings) && Dialable(addr, TCP, settings)
    ensures Reaches(State(Relayed(addr, settings), Receiving(addr)))
  {
    RelayReaches(addr, settings);
    var v, c, m := Relayed(addr, settings), Called(addr), Dst(Accepted, Header(""));
    var c1 := Receiving(addr).(log := c.log);
    c1 := c1.(ctl := c1.ctl.(rx := Client.RxRecv));
    assert Client.MainControl(c.ctl, c1.ctl);
    ClientMoves(State(v, c), c1);
    assert Client.Take(c1, Receiving(addr), m);
    ClientMoves(State(v, c1), Receiving(addr));
  }

  lemma ObjectionReaches(addr: string, settings: DialSettings) returns (c: Client.State)
    requires WantsUdp(addr, TCP, settings) && Dialable(addr, TCP, settings)
    ensures c.addr == addr && c.log.emptied && Reaches(State(Relayed(addr, settings), c))
  {
    SignalReaches(addr, settings);
    c := RejectEmpty(Relayed(addr, settings), Signalled(addr));
  }

  function Signalled(addr: string): Client.State {
    var c := Receiving(addr);
    c.(ctl := c.ctl.(rx := Client.RxRecv, local := [""], signals := 1))
  }

  lemma SignalReaches(addr: string, settings: DialSettings)
    requires WantsUdp(addr, TCP, settings) && Dialable(addr, TCP, settings)
    ensures Reaches(State(Relayed(addr, settings), Signalled(addr)))
  {
    ReceiveReaches(addr, settings);
    assert Client.Handle(Receiving(addr), Signalled(addr), WriteResult(0, false));
    ClientMoves(State(Relayed(addr, settings), Receiving(addr)), Signalled(addr));
  }

  lemma RejectEmpty(v: Server.State, c: Client.State) returns (d: Client.State)
    requires Reaches(State(v, c)) && c.ctl.rx == Client.RxRecv
    requires v.log.outbox == c.log.inbox + [Dst(Session, Payload([]))]
    requires Linked(State(v, c))
    ensures d.addr == c.addr && d.log.emptied && Reaches(State(v, d))
  {
    var m := Dst(Session, Payload([]));
    var c1 := c.(ctl := c.ctl.(rx := Client.RxHave(m)), log := c.log.(inbox := c.log.inbox + [m]));
    assert Client.Take(c, c1, m);
    ClientMoves(State(v, c), c1);
    d := c1.(ctl := c1.ctl.(rx := Client.RxStopped(InvalidPayload)), log := c1.log.(emptied := true));
    assert Client.Handle(c1, d, WriteResult(0, false));
    ClientMoves(State(v, c1), d);
  }

  /** The client can be brought to report an empty payload if and only if the server gets to dial and takes the
      session for datagrams, and so relays empty ones: the address carries "udp://", or no scheme while the server's
      configured network is itself a UDP one, and splits into host and port. */
  lemma EmptyPayloadIff(addr: string, settings: DialSettings)
    ensures (exists s :: Reaches(s) && From(s, addr, settings) && s.client.log.emptied) <==>
            WantsUdp(addr, TCP, settings) && Dialable(addr, TCP, settings)
  {
    if WantsUdp(addr, TCP, settings) && Dialable(addr, TCP, settings) {
      var c := ObjectionReaches(addr, settings);
      assert From(State(Relayed(addr, settings), c), addr, settings);
    }
    if s :| Reaches(s) && From(s, addr, settings) && s.client.log.emptied {
      ReachesInv(s);
      EmptyOnlyFromDatagrams(s);
      FamilyKnown(s);
    }
  }
}
