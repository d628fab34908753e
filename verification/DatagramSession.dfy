/** A datagram session end to end: StreamPacketConn on the client and the forwarder on the server,
    joined by a stream that delivers each side's messages in order and may stop at any point. */
module DatagramSession {
  import opened Basics
  import opened SessionWire
  import Server = ServerSession
  import Client = PacketClient

  datatype State = State(server: Server.State, client: Client.State)

  predicate Linked(s: State) {
    s.server.log.inbox <= s.client.send.outbox && s.client.recv.inbox <= s.server.log.outbox
  }

  ghost predicate Init(s: State) { Server.Init(s.server) && Client.Init(s.client) }

  ghost predicate Next(s: State, s': State) {
    && Linked(s')
    && (|| (Server.Next(s.server, s'.server) && s'.client == s.client)
        || (Client.Next(s.client, s'.client) && s'.server == s.server))
  }

  ghost predicate Run(tr: seq<State>) {
    && |tr| > 0 && Init(tr[0])
    && forall i, j :: 0 <= i && i + 1 == j < |tr| ==> Next(tr[i], tr[j])
  }

  ghost predicate Inv(s: State) { Linked(s) && Server.Inv(s.server) && Client.Inv(s.client) }

  lemma NextInv(s: State, s': State)
    requires Inv(s) && Next(s, s')
    ensures Inv(s')
  {
    if s'.client == s.client && Server.Next(s.server, s'.server) { Server.NextInv(s.server, s'.server); }
    else { Client.NextInv(s.client, s'.client); }
  }

  lemma InitInv(s: State)
    requires Init(s)
    ensures Inv(s)
  {
    Server.InitInv(s.server);
    Client.InitInv(s.client);
  }

  lemma StepOf(tr: seq<State>, i: nat)
    requires Run(tr) && 0 < i < |tr|
    ensures Next(tr[i - 1], tr[i])
  {
  }

  lemma {:induction false} RunInv(tr: seq<State>, i: nat)
    requires Run(tr) && i < |tr|
    ensures Inv(tr[i])
  {
    if i == 0 {
      InitInv(tr[0]);
    } else {
      RunInv(tr, i - 1);
      StepOf(tr, i);
      NextInv(tr[i - 1], tr[i]);
    }
  }

  // The first reads from the target, as they came out of the buffers of the calls that got them.
  ghost predicate Delivered(r: Client.RecvSide, given: seq<Chunk>) {
    && |r.copies| <= |given|
    && forall i :: 0 <= i < |r.copies| ==>
         && r.copies[i].call < |r.rooms|
         && Client.CopyOk(given[i], r.rooms[r.copies[i].call], r.copies[i])
  }

  /** The calls of ReadFrom that return a datagram get, in order and with their boundaries, the datagrams the target
      sent, as much of each as fits the buffer; if none was short, what they return is a prefix of what the target
      sent, and it is one of the bytes whatever the server dialled.  What the server writes is a prefix of the bytes
      of the datagrams sent. */
  lemma DatagramsDelivered(tr: seq<State>, i: nat)
    requires Run(tr) && i < |tr|
    ensures var r, l := tr[i].client.recv, tr[i].server.log;
            && (tr[i].server.ctl.udp ==> Delivered(r, l.given))
            && ((forall k :: 0 <= k < |r.copies| ==> !r.copies[k].short) ==>
                  && (tr[i].server.ctl.udp ==> Client.Outputs(r.copies) <= l.given)
                  && Concat(Client.Outputs(r.copies)) <= Concat(l.given))
    ensures Concat(tr[i].server.log.written) <= Concat(tr[i].client.send.attempts)
  {
    RunInv(tr, i);
    DownDelivered(tr[i]);
    UpDelivered(tr[i]);
  }

  lemma DownDelivered(s: State)
    requires Inv(s)
    ensures var r, given := s.client.recv, s.server.log.given;
            && (s.server.ctl.udp ==> Delivered(r, given))
            && ((forall k :: 0 <= k < |r.copies| ==> !r.copies[k].short) ==>
                  && (s.server.ctl.udp ==> Client.Outputs(r.copies) <= given)
                  && Concat(Client.Outputs(r.copies)) <= Concat(given))
  {
    var r, sent := s.client.recv, Sessions(s.server.log.outbox);
    Client.RecvInOrder(r);
    Server.InvConveyed(s.server);
    SessionsPrefix(r.inbox, s.server.log.outbox);
    OutputsOf(r, Sessions(r.inbox)[..|r.copies|], sent, s.server.log.given, s.server.ctl.udp);
  }

  lemma OutputsOf(r: Client.RecvSide, got: seq<Chunk>, sent: seq<Chunk>, given: seq<Chunk>, udp: bool)
    requires Client.Returned(r, got) && got <= sent && Conveyed(sent, given, udp) && Concat(sent) <= Concat(given)
    ensures udp ==> Delivered(r, given)
    ensures (forall k :: 0 <= k < |r.copies| ==> !r.copies[k].short) ==>
              && (udp ==> Client.Outputs(r.copies) <= given) && Concat(Client.Outputs(r.copies)) <= Concat(given)
  {
    if forall k :: 0 <= k < |r.copies| ==> !r.copies[k].short {
      WholeOutputs(r, got);
      ConcatPrefix(got, sent);
    }
    if udp { assert forall k :: 0 <= k < |got| ==> got[k] == given[k]; }
  }

  // Where no buffer was short, the calls returned what they got.
  lemma WholeOutputs(r: Client.RecvSide, got: seq<Chunk>)
    requires Client.Returned(r, got) && forall k :: 0 <= k < |r.copies| ==> !r.copies[k].short
    ensures Client.Outputs(r.copies) == got
  {
    forall k | 0 <= k < |got| ensures Client.Outputs(r.copies)[k] == got[k] {
      assert Client.CopyOk(got[k], r.rooms[r.copies[k].call], r.copies[k]);
    }
  }

  lemma UpDelivered(s: State)
    requires Inv(s)
    ensures Conveyed(s.server.log.written, s.client.send.attempts, s.server.ctl.udp)
    ensures Concat(s.server.log.written) <= Concat(s.client.send.attempts)
  {
    Server.InvConveyed(s.server);
    PayloadsPrefix(s.server.log.inbox, s.client.send.outbox);
    ConveyedFurther(s.server.log.written, Payloads(s.server.log.inbox), s.client.send.attempts, s.server.ctl.udp);
    if s.server.ctl.udp { ConcatPrefix(s.server.log.written, s.client.send.attempts); }
  }

  /** The server never calls a message of this client invalid. */
  lemma ServerNeverObjects(tr: seq<State>, i: nat)
    requires Run(tr) && i < |tr|
    ensures !tr[i].server.log.invalid
  {
    RunInv(tr, i);
    LanguagesCut(tr[i].server.log.inbox, tr[i].client.send.outbox, [], []);
  }

  /** ReadFrom reports an error status only when the server's dial was refused: the server sent Error,
      and nothing was or will be exchanged with a target. */
  lemma RefusedMeansNotDialled(tr: seq<State>, i: nat)
    requires Run(tr) && i < |tr| && tr[i].client.recv.refused
    ensures Server.StartsWith(tr[i].server.log.outbox, Error) && tr[i].server.log.written == []
    ensures tr[i].client.recv.copies == []
  {
    RunInv(tr, i);
    ErrorOpens(tr[i]);
  }

  lemma ErrorOpens(s: State)
    requires Inv(s) && s.client.recv.refused
    ensures Server.StartsWith(s.server.log.outbox, Error) && s.server.log.written == [] && s.client.recv.copies == []
  {
    Client.RecvInOrder(s.client.recv);
    Server.InvConveyed(s.server);
    RefusalOpens(s.client.recv.inbox, s.server.log.outbox);
    ErrorUndialled(s.server);
  }

  lemma RefusalOpens(seen: seq<Dst>, out: seq<Dst>)
    requires seen <= out && ServerLanguage(out) && Client.Refusal(seen)
    ensures Server.StartsWith(out, Error) && Sessions(seen) == []
  {
    var k :| 0 <= k < |seen| && (seen[k].status == Error || seen[k].status == Unknown);
    assert seen[k] == out[k] && WellShaped(out[k]);
    ErrorAlone(out, seen);
  }

  lemma ErrorUndialled(v: Server.State)
    requires Server.Inv(v) && Server.StartsWith(v.log.outbox, Error)
    ensures v.log.written == []
  {
    Server.ErrorCarriesNothing(v.ctl, v.log);
  }

  lemma {:induction false} ErrorAlone(ms: seq<Dst>, part: seq<Dst>)
    requires ServerLanguage(ms) && Server.StartsWith(ms, Error) && part <= ms
    ensures Sessions(part) == []
  {
    if part != [] {
      assert part[|part| - 1] == ms[|part| - 1];
      ErrorAlone(ms, part[..|part| - 1]);
    }
  }

  // --- When boundaries are kept ---------------------------------------------------------------------

  lemma FamilyKnown(s: State)
    requires Inv(s) && s.server.ctl.dialled
    ensures s.server.ctl.udp <==> WantsUdp(s.client.send.addr, UDP, s.server.settings)
    ensures Dialable(s.client.send.addr, UDP, s.server.settings)
  {
    assert s.server.log.inbox[0] == s.client.send.outbox[0];
    ResolvedFamily(s.client.send.addr, UDP, s.server.settings);
  }

  ghost predicate From(s: State, addr: string, settings: DialSettings) {
    s.client.send.addr == addr && s.server.settings == settings
  }

  ghost predicate Reaches(s: State) {
    exists tr: seq<State> :: Run(tr) && tr[|tr| - 1] == s
  }

  lemma ReachesInv(s: State)
    requires Reaches(s)
    ensures Inv(s)
  {
    var tr :| Run(tr) && tr[|tr| - 1] == s;
    RunInv(tr, |tr| - 1);
  }

  lemma Extend(s: State, s': State)
    requires Reaches(s) && Next(s, s')
    ensures Reaches(s')
  {
    var tr :| Run(tr) && tr[|tr| - 1] == s;
    RunOn(tr, s');
    assert (tr + [s'])[|tr|] == s';
  }

  lemma RunOn(tr: seq<State>, s': State)
    requires Run(tr) && Next(tr[|tr| - 1], s')
    ensures Run(tr + [s'])
  {
    var more := tr + [s'];
    forall i, j | 0 <= i && i + 1 == j < |more| ensures Next(more[i], more[j]) {
      if j < |tr| { assert more[i] == tr[i] && more[j] == tr[j] && Next(tr[i], tr[j]); }
    }
  }

  lemma ServerMoves(s: State, v: Server.State)
    requires Reaches(s) && Server.Next(s.server, v) && Linked(State(v, s.client))
    ensures Reaches(State(v, s.client))
  {
    Extend(s, State(v, s.client));
  }

  lemma Sends(s: State, c: Client.SendSide)
    requires Reaches(s) && Client.SendNext(s.client.send, c) && Linked(State(s.server, s.client.(send := c)))
    ensures Reaches(State(s.server, s.client.(send := c)))
  {
    Extend(s, State(s.server, s.client.(send := c)));
  }

  function Idle(): Client.RecvSide {
    Client.RecvSide(Client.LoopRecv, None, Client.NoReader, [], [], [], [], false)
  }

  // A session just opened, and one with a datagram of two bytes on its way.
  function Opened(addr: string): Client.SendSide {
    Client.SendSide(addr, false, Client.Open, Client.Greeted(true), None, map[], map[], map[], false, [],
                    [SrcHeader(addr, UDP)])
  }

  function Wrote(addr: string): Client.SendSide {
    Opened(addr).(mu := Some(Client.Writer(0)), writes := map[0 := Client.InFlight([1, 2], Client.ForAny)],
                  sends := map[0 := Client.Ended(true)], attempts := [[1, 2]],
                  outbox := [SrcHeader(addr, UDP), SrcPayload([1, 2])])
  }

  lemma OpenReaches(addr: string, settings: DialSettings)
    ensures Reaches(State(Server.Initial(settings), Client.State(Opened(addr), Idle())))
  {
    var c := Client.SendSide(addr, false, Client.Dialling, Client.Greet, None, map[], map[], map[], false, [], []);
    var s := State(Server.Initial(settings), Client.State(c, Idle()));
    assert Run([s]) && [s][0] == s;
    var c1 := c.(greeting := Client.SendingHeader);
    assert Client.DialStep(c, c1);
    Sends(s, c1);
    var c2 := c1.(greeting := Client.Greeted(true), outbox := [SrcHeader(addr, UDP)]);
    assert Client.GreetEnd(c1, c2, true, true);
    Sends(State(s.server, Client.State(c1, Idle())), c2);
    assert Client.DialStep(c2, Opened(addr));
    Sends(State(s.server, Client.State(c2, Idle())), Opened(addr));
  }

  // The writer holds writeMu.
  function Entered(addr: string): Client.SendSide {
    Opened(addr).(mu := Some(Client.Writer(0)), writes := map[0 := Client.Locked([1, 2])])
  }

  lemma EnterReaches(addr: string, settings: DialSettings)
    ensures Reaches(State(Server.Initial(settings), Client.State(Entered(addr), Idle())))
  {
    OpenReaches(addr, settings);
    var v, c := Server.Initial(settings), Opened(addr);
    var c1 := c.(writes := map[0 := Client.Queued([1, 2])]);
    assert Client.WriteCall(c, c1, 0, [1, 2]);
    Sends(State(v, Client.State(c, Idle())), c1);
    assert Client.WriteEnter(c1, Entered(addr), 0);
    Sends(State(v, Client.State(c1, Idle())), Entered(addr));
  }

  // Its Send is under way.
  function Sending(addr: string): Client.SendSide {
    Spawned(addr).(sends := map[0 := Client.Sending([1, 2])], attempts := [[1, 2]])
  }

  // Its goroutine has been started.
  function Spawned(addr: string): Client.SendSide {
    Entered(addr).(writes := map[0 := Client.InFlight([1, 2], Client.ForAny)],
                   sends := map[0 := Client.Spawned([1, 2])])
  }

  function Cleared(addr: string): Client.SendSide {
    Entered(addr).(writes := map[0 := Client.Cleared([1, 2])])
  }

  lemma ClearReaches(addr: string, settings: DialSettings)
    ensures Reaches(State(Server.Initial(settings), Client.State(Cleared(addr), Idle())))
  {
    EnterReaches(addr, settings);
    assert Client.WriteEnter(Entered(addr), Cleared(addr), 0);
    Sends(State(Server.Initial(settings), Client.State(Entered(addr), Idle())), Cleared(addr));
  }

  lemma SpawnReaches(addr: string, settings: DialSettings)
    ensures Reaches(State(Server.Initial(settings), Client.State(Spawned(addr), Idle())))
  {
    ClearReaches(addr, settings);
    assert Client.WriteEnter(Cleared(addr), Spawned(addr), 0);
    Sends(State(Server.Initial(settings), Client.State(Cleared(addr), Idle())), Spawned(addr));
  }

  lemma StartReaches(addr: string, settings: DialSettings)
    ensures Reaches(State(Server.Initial(settings), Client.State(Sending(addr), Idle())))
  {
    SpawnReaches(addr, settings);
    assert Client.SendBegin(Spawned(addr), Sending(addr), 0);
    Sends(State(Server.Initial(settings), Client.State(Spawned(addr), Idle())), Sending(addr));
  }

  lemma WriteReaches(addr: string, settings: DialSettings)
    ensures Reaches(State(Server.Initial(settings), Client.State(Wrote(addr), Idle())))
  {
    StartReaches(addr, settings);
    assert Client.SendEnd(Sending(addr), Wrote(addr), 0, true, true);
    Sends(State(Server.Initial(settings), Client.State(Sending(addr), Idle())), Wrote(addr));
  }

  // The server in the middle of a session over a byte stream.
  function Streaming(addr: string, settings: DialSettings): Server.State {
    var v := Server.Initial(settings);
    v.(ctl := v.ctl.(addrOk := true, dialled := true, up := Server.Selecting, rx := Server.RxRecv),
       log := v.log.(inbox := [SrcHeader(addr, UDP)]))
  }

  lemma StreamReaches(addr: string, settings: DialSettings)
    requires !WantsUdp(addr, UDP, settings) && Dialable(addr, UDP, settings)
    ensures Reaches(State(Streaming(addr, settings), Client.State(Wrote(addr), Idle())))
  {
    WriteReaches(addr, settings);
    var h, c, v := SrcHeader(addr, UDP), Client.State(Wrote(addr), Idle()), Server.Initial(settings);
    var v1 := v.(ctl := v.ctl.(up := Server.Resolving(h)), log := v.log.(inbox := [h]));
    assert Server.TakeHeader(v, v1, h);
    ServerMoves(State(v, c), v1);
    ResolvedFamily(addr, UDP, settings);
    var v2 := v1.(ctl := v1.ctl.(addrOk := true, up := Server.Dialing));
    assert Server.Resolve(v1, v2);
    ServerMoves(State(v1, c), v2);
    var v3 := v2.(ctl := v2.ctl.(dialled := true, up := Server.Acking));
    assert Server.OpenControl(v2.ctl, v3.ctl);
    ServerMoves(State(v2, c), v3);
    assert Server.OpenControl(v3.ctl, Streaming(addr, settings).ctl);
    ServerMoves(State(v3, c), Streaming(addr, settings));
  }

  // It has received the datagram.
  function Received(addr: string, settings: DialSettings): Server.State {
    var v, m := Streaming(addr, settings), SrcPayload([1, 2]);
    v.(ctl := v.ctl.(rx := Server.RxHave(m)), log := v.log.(inbox := v.log.inbox + [m]))
  }

  lemma ReceiveReaches(addr: string, settings: DialSettings)
    requires !WantsUdp(addr, UDP, settings) && Dialable(addr, UDP, settings)
    ensures Reaches(State(Received(addr, settings), Client.State(Wrote(addr), Idle())))
  {
    StreamReaches(addr, settings);
    assert Server.TakePayload(Streaming(addr, settings), Received(addr, settings), SrcPayload([1, 2]));
    ServerMoves(State(Streaming(addr, settings), Client.State(Wrote(addr), Idle())), Received(addr, settings));
  }

  lemma CutReaches(addr: string, settings: DialSettings) returns (s: State)
    requires !WantsUdp(addr, UDP, settings) && Dialable(addr, UDP, settings)
    ensures Reaches(s) && From(s, addr, settings) && !(s.server.log.written <= s.client.send.attempts)
  {
    ReceiveReaches(addr, settings);
    var m, c, v1 := SrcPayload([1, 2]), Client.State(Wrote(addr), Idle()), Received(addr, settings);
    var v2 := v1.(ctl := v1.ctl.(rx := Server.RxStopped(Failed)), log := v1.log.(written := [[1]]));
    assert m.data[..1] == [1];
    assert Server.Forwarded(m, false, WriteResult(1, true)) == Server.Effect([[1]], Some(Failed));
    assert Server.Forward(v1, v2, WriteResult(1, true));
    ServerMoves(State(v1, c), v2);
    s := State(v2, c);
    assert v2.log.written[0] != c.send.attempts[0];
  }

  /** What the server writes is a prefix of the datagrams sent, in order and with their boundaries, in
      every session to an address if and only if the address is not "tcp://" before a host and port: then the
      server writes to a byte stream, where a datagram may be cut. */
  lemma BoundariesKeptIff(addr: string, settings: DialSettings)
    ensures (forall s :: Reaches(s) && From(s, addr, settings) ==> s.server.log.written <= s.client.send.attempts)
            <==> !(HasPrefix(addr, "tcp://") && Splits(addr[6..]))
  {
    SchemesApart(addr);
    if HasPrefix(addr, "tcp://") && Splits(addr[6..]) {
      var s := CutReaches(addr, settings);
      assert Reaches(s) && From(s, addr, settings);
    } else {
      forall s | Reaches(s) && From(s, addr, settings) ensures s.server.log.written <= s.client.send.attempts {
        ReachesInv(s);
        BoundariesKept(s);
      }
    }
  }

  lemma SchemesApart(addr: string)
    ensures HasPrefix(addr, "udp://") ==> !HasPrefix(addr, "tcp://")
  {
    assert HasPrefix(addr, "udp://") ==> addr[0] == "udp://"[0] == 'u';
    assert HasPrefix(addr, "tcp://") ==> addr[0] == "tcp://"[0] == 't';
  }

  lemma BoundariesKept(s: State)
    requires Inv(s)
    requires var addr, settings := s.client.send.addr, s.server.settings;
             WantsUdp(addr, UDP, settings) || !Dialable(addr, UDP, settings)
    ensures s.server.log.written <= s.client.send.attempts
  {
    UpDelivered(s);
    if s.server.ctl.dialled { FamilyKnown(s); } else { assert s.server.log.written == []; }
  }
}
