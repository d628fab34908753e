/** A datagram session on the client: Client.DialPacket of internal/transport/rpc/client/client.go and
    StreamPacketConn of packet_conn.go, with any number of concurrent WriteTo and Close calls. */
module PacketClient {
  import opened Basics
  import opened SessionWire

  // --- The send side ------------------------------------------------------------------------------

  // DialPacket; a handshake that timed out may still be sending.
  datatype Dial = Dialling | DialFailed | Open
  datatype Greeting = Greet | SendingHeader | Greeted(ok: bool)

  datatype Party = Writer(id: nat) | Closer(id: nat)

  // WriteTo: waiting for writeMu, holding it, past the tests of context and deadline, in the select or in one of
  // the two waits for the aborted Send.  A cancellation may fall between any two of these.
  datatype Await = ForAny | ForSend
  datatype Write =
    | Queued(data: Chunk) | Locked(data: Chunk) | Cleared(data: Chunk) | InFlight(data: Chunk, await': Await)
    | Exited(data: Chunk, ok: bool)

  // The goroutine each WriteTo starts for its Send, which begins some time later.
  datatype Send = Spawned(data: Chunk) | Sending(data: Chunk) | Ended(ok: bool)

  // Close: cancelled, inside CloseSend, done.
  datatype Close = CloseQueued | CloseSending | CloseDone

  /** `mu` is the holder of writeMu; `cut` is set once a Send has failed, after which the stream takes
      nothing more.  `attempts` lists the datagrams of all Sends begun, `outbox` the messages out. */
  datatype SendSide = SendSide(addr: string, ctxDone: bool, dial: Dial, greeting: Greeting, mu: Option<Party>,
                               writes: map<nat, Write>, sends: map<nat, Send>, closes: map<nat, Close>,
                               cut: bool, attempts: seq<Chunk>, outbox: seq<Src>)

  predicate SendInit(s: SendSide) {
    s == SendSide(s.addr, false, Dialling, Greet, None, map[], map[], map[], false, [], [])
  }

  predicate Cancel(s: SendSide, s': SendSide) { s' == s.(ctxDone := true) }

  predicate DialStep(s: SendSide, s': SendSide) {
    || (s.greeting == Greet && s' == s.(greeting := SendingHeader))
    || (s.dial == Dialling && s.greeting == SendingHeader && s' == s.(ctxDone := true, dial := DialFailed))
    || (s.dial == Dialling && s.greeting.Greeted?
        && s' == if s.greeting.ok then s.(dial := Open) else s.(ctxDone := true, dial := DialFailed))
  }

  predicate GreetEnd(s: SendSide, s': SendSide, ok: bool, out: bool) {
    && s.greeting == SendingHeader && (ok ==> out)
    && s' == s.(greeting := Greeted(ok), outbox := if out then s.outbox + [SrcHeader(s.addr, UDP)] else s.outbox)
  }

  predicate WriteCall(s: SendSide, s': SendSide, i: nat, data: Chunk) {
    s.dial == Open && i !in s.writes && s' == s.(writes := s.writes[i := Queued(data)])
  }

  // Until its goroutine has been started.
  predicate WriteEnter(s: SendSide, s': SendSide, i: nat) {
    && i in s.writes
    && match s.writes[i]
       case Queued(data) => s.mu.None? && s' == s.(mu := Some(Writer(i)), writes := s.writes[i := Locked(data)])
       case Locked(data) =>
         // cancelled or past the deadline; or neither
         || s' == s.(mu := None, writes := s.writes[i := Exited(data, false)])
         || (!s.ctxDone && s' == s.(writes := s.writes[i := Cleared(data)]))
       case Cleared(data) =>
         s' == s.(writes := s.writes[i := InFlight(data, ForAny)], sends := s.sends[i := Spawned(data)])
       case _ => false
  }

  predicate SendBegin(s: SendSide, s': SendSide, i: nat) {
    && i in s.sends && s.sends[i].Spawned?
    && s' == s.(sends := s.sends[i := Sending(s.sends[i].data)], attempts := s.attempts + [s.sends[i].data])
  }

  predicate SendEnd(s: SendSide, s': SendSide, i: nat, ok: bool, out: bool) {
    && i in s.sends && s.sends[i].Sending? && (ok ==> out) && (out ==> !s.cut)
    && s' == s.(sends := s.sends[i := Ended(ok)], cut := s.cut || !ok,
                outbox := if out then s.outbox + [SrcPayload(s.sends[i].data)] else s.outbox)
  }

  // The select of WriteTo, and waiting for the Send after the context or the deadline was first.
  predicate WriteWait(s: SendSide, s': SendSide, i: nat, expired: bool) {
    && i in s.writes && s.writes[i].InFlight? && i in s.sends
    && var data := s.writes[i].data;
       || (s.sends[i].Ended?
           && s' == s.(mu := None,
                       writes := s.writes[i := Exited(data, s.writes[i].await' == ForAny && s.sends[i].ok)]))
       || (s.writes[i].await' == ForAny && (s.ctxDone || expired)
           && s' == s.(ctxDone := true, writes := s.writes[i := InFlight(data, ForSend)]))
  }

  predicate CloseStep(s: SendSide, s': SendSide, i: nat) {
    && s.dial == Open
    && if i !in s.closes then s' == s.(ctxDone := true, closes := s.closes[i := CloseQueued])
       else match s.closes[i]
         case CloseQueued => s.mu.None? && s' == s.(mu := Some(Closer(i)), closes := s.closes[i := CloseSending])
         case CloseSending => s' == s.(mu := None, closes := s.closes[i := CloseDone])
         case CloseDone => false
  }

  ghost predicate SendNext(s: SendSide, s': SendSide) {
    || Cancel(s, s') || DialStep(s, s') || (exists ok, out :: GreetEnd(s, s', ok, out))
    || (exists i, data :: WriteCall(s, s', i, data)) || (exists i :: WriteEnter(s, s', i))
    || (exists i :: SendBegin(s, s', i)) || (exists i, ok, out :: SendEnd(s, s', i, ok, out))
    || (exists i, expired :: WriteWait(s, s', i, expired)) || (exists i :: CloseStep(s, s', i))
  }

  // --- Invariant of the send side --------------------------------------------------------------------

  ghost predicate WriteOk(s: SendSide, i: nat, x: Write) {
    match x
    case Queued(_) => i !in s.sends && s.mu != Some(Writer(i))
    case Locked(_) => i !in s.sends && s.mu == Some(Writer(i))
    case Cleared(_) => i !in s.sends && s.mu == Some(Writer(i))
    case InFlight(data, await') =>
      && i in s.sends && s.mu == Some(Writer(i)) && (!s.sends[i].Ended? ==> s.sends[i].data == data)
      && (s.sends[i] == Ended(true) ==> data in Payloads(s.outbox))
      && (await' == ForSend ==> s.ctxDone)
    case Exited(data, ok) =>
      && s.mu != Some(Writer(i)) && (i in s.sends ==> s.sends[i].Ended?)
      && (ok ==> i in s.sends && s.sends[i] == Ended(true))
      && (i in s.sends && s.sends[i] == Ended(true) ==> data in Payloads(s.outbox) && (ok || s.ctxDone))
  }

  ghost predicate WritesOk(s: SendSide) {
    && (forall i {:trigger WriteOk(s, i, s.writes[i])} :: i in s.writes ==> WriteOk(s, i, s.writes[i]))
    && (forall i :: i in s.sends ==> i in s.writes)
  }

  ghost predicate ClosesOk(s: SendSide) {
    forall i :: i in s.closes ==> (s.closes[i] == CloseSending <==> s.mu == Some(Closer(i)))
  }

  predicate HolderOk(s: SendSide) {
    s.mu.Some? ==> match s.mu.value case Writer(i) => i in s.writes case Closer(i) => i in s.closes
  }

  predicate DialOk(s: SendSide) {
    && (s.dial == Open ==> s.greeting == Greeted(true))
    && (s.dial != Open ==> s.writes == map[] && s.closes == map[] && s.attempts == [] && Payloads(s.outbox) == [])
    && (!s.greeting.Greeted? ==> s.outbox == [])
    && (s.greeting == Greeted(true) ==> s.outbox != [])
    && (s.outbox != [] ==> s.outbox[0] == SrcHeader(s.addr, UDP))
    && ClientLanguage(s.outbox)
  }

  // The datagram being sent.
  function InHand(s: SendSide): seq<Chunk> {
    if s.mu.Some? && s.mu.value.Writer? && s.mu.value.id in s.sends && s.sends[s.mu.value.id].Sending?
    then [s.sends[s.mu.value.id].data] else []
  }

  predicate Ordered(s: SendSide) {
    Payloads(s.outbox) <= s.attempts && (!s.cut ==> s.attempts == Payloads(s.outbox) + InHand(s))
  }

  ghost predicate SendInv(s: SendSide) { WritesOk(s) && ClosesOk(s) && HolderOk(s) && DialOk(s) && Ordered(s) }

  lemma DialInv(s: SendSide, s': SendSide)
    requires SendInv(s) && DialStep(s, s')
    ensures SendInv(s')
  {
    assert s.dial != Open;
  }

  lemma GreetEndInv(s: SendSide, s': SendSide, ok: bool, out: bool)
    requires SendInv(s) && GreetEnd(s, s', ok, out)
    ensures SendInv(s')
  {
    assert s.dial != Open;
    PayloadsAppend(s.outbox, SrcHeader(s.addr, UDP));
  }

  lemma WriteCallInv(s: SendSide, s': SendSide, i: nat, data: Chunk)
    requires SendInv(s) && WriteCall(s, s', i, data)
    ensures SendInv(s')
  {
    forall j | j in s'.writes ensures WriteOk(s', j, s'.writes[j]) { if j != i { assert WriteOk(s, j, s.writes[j]); } }
  }

  lemma WriteLockInv(s: SendSide, s': SendSide, i: nat)
    requires SendInv(s) && WriteEnter(s, s', i) && s.writes[i].Queued?
    ensures SendInv(s')
  {
    assert WriteOk(s, i, s.writes[i]);
    forall j | j in s'.writes ensures WriteOk(s', j, s'.writes[j]) { assert WriteOk(s, j, s.writes[j]); }
  }

  lemma WriteTestInv(s: SendSide, s': SendSide, i: nat)
    requires SendInv(s) && WriteEnter(s, s', i) && s.writes[i].Locked?
    ensures SendInv(s')
  {
    assert WriteOk(s, i, s.writes[i]);
    forall j | j in s'.writes ensures WriteOk(s', j, s'.writes[j]) { assert WriteOk(s, j, s.writes[j]); }
  }

  lemma WriteStartInv(s: SendSide, s': SendSide, i: nat)
    requires SendInv(s) && WriteEnter(s, s', i) && s.writes[i].Cleared?
    ensures SendInv(s')
  {
    assert WriteOk(s, i, s.writes[i]);
    forall j | j in s'.writes ensures WriteOk(s', j, s'.writes[j]) { assert WriteOk(s, j, s.writes[j]); }
  }

  lemma WriteEnterInv(s: SendSide, s': SendSide, i: nat)
    requires SendInv(s) && WriteEnter(s, s', i)
    ensures SendInv(s')
  {
    if s.writes[i].Queued? { WriteLockInv(s, s', i); }
    else if s.writes[i].Locked? { WriteTestInv(s, s', i); }
    else { WriteStartInv(s, s', i); }
  }

  lemma SendBeginInv(s: SendSide, s': SendSide, i: nat)
    requires SendInv(s) && SendBegin(s, s', i)
    ensures SendInv(s')
  {
    assert WriteOk(s, i, s.writes[i]);
    forall j | j in s'.writes ensures WriteOk(s', j, s'.writes[j]) { assert WriteOk(s, j, s.writes[j]); }
  }

  lemma SendEndWrites(s: SendSide, s': SendSide, i: nat, ok: bool, out: bool)
    requires WritesOk(s) && SendEnd(s, s', i, ok, out)
    ensures WritesOk(s')
  {
    assert WriteOk(s, i, s.writes[i]);
    var data := s.sends[i].data;
    PayloadsAppend(s.outbox, SrcPayload(data));
    if out { assert Payloads(s'.outbox)[|Payloads(s.outbox)|] == data; }
    forall j | j in s'.writes ensures WriteOk(s', j, s'.writes[j]) { assert WriteOk(s, j, s.writes[j]); }
  }

  lemma SendEndInv(s: SendSide, s': SendSide, i: nat, ok: bool, out: bool)
    requires SendInv(s) && SendEnd(s, s', i, ok, out)
    ensures SendInv(s')
  {
    assert WriteOk(s, i, s.writes[i]);
    PayloadsAppend(s.outbox, SrcPayload(s.sends[i].data));
    SendEndWrites(s, s', i, ok, out);
  }

  lemma WriteWaitInv(s: SendSide, s': SendSide, i: nat, expired: bool)
    requires SendInv(s) && WriteWait(s, s', i, expired)
    ensures SendInv(s')
  {
    assert WriteOk(s, i, s.writes[i]);
    forall j | j in s'.writes ensures WriteOk(s', j, s'.writes[j]) { assert WriteOk(s, j, s.writes[j]); }
  }

  lemma CloseInv(s: SendSide, s': SendSide, i: nat)
    requires SendInv(s) && CloseStep(s, s', i)
    ensures SendInv(s')
  {
    forall j | j in s'.writes ensures WriteOk(s', j, s'.writes[j]) { assert WriteOk(s, j, s.writes[j]); }
  }

  lemma CancelInv(s: SendSide, s': SendSide)
    requires SendInv(s) && Cancel(s, s')
    ensures SendInv(s')
  {
    forall j | j in s'.writes ensures WriteOk(s', j, s'.writes[j]) { assert WriteOk(s, j, s.writes[j]); }
  }

  lemma SendNextInv(s: SendSide, s': SendSide)
    requires SendInv(s) && SendNext(s, s')
    ensures SendInv(s')
  {
    if Cancel(s, s') { CancelInv(s, s'); }
    else if DialStep(s, s') { DialInv(s, s'); }
    else if ok, out :| GreetEnd(s, s', ok, out) { GreetEndInv(s, s', ok, out); }
    else if i, data :| WriteCall(s, s', i, data) { WriteCallInv(s, s', i, data); }
    else if i :| WriteEnter(s, s', i) { WriteEnterInv(s, s', i); }
    else if i :| SendBegin(s, s', i) { SendBeginInv(s, s', i); }
    else if i, ok, out :| SendEnd(s, s', i, ok, out) { SendEndInv(s, s', i, ok, out); }
    else if i, expired :| WriteWait(s, s', i, expired) { WriteWaitInv(s, s', i, expired); }
    else if i :| CloseStep(s, s', i) { CloseInv(s, s', i); }
  }

  // --- The receive side -------------------------------------------------------------------------------

  // What readLoop puts into recvCh, which holds one at most.
  datatype Item = Msg(m: Dst) | Err
  datatype Loop = LoopRecv | LoopHave(item: Item) | LoopDone

  // The ReadFrom that holds readMu; `room` is the length of its buffer.
  datatype Reader = NoReader | Selecting(room: nat) | Deciding(room: nat, item: Item)

  // What a call of ReadFrom copied, and whether it reported a short buffer.
  datatype Copy = Copy(call: nat, data: Chunk, short: bool)

  /** `consumed` lists the messages taken out of recvCh, `rooms` the buffer lengths of all calls of ReadFrom and
      `copies` what those calls returned; `refused` is set when one reported an error status. */
  datatype RecvSide = RecvSide(loop: Loop, queue: Option<Item>, reader: Reader, inbox: seq<Dst>, consumed: seq<Dst>,
                               rooms: seq<nat>, copies: seq<Copy>, refused: bool)

  predicate RecvInit(r: RecvSide) { r == RecvSide(LoopRecv, None, NoReader, [], [], [], [], false) }

  function Messages(item: Item): seq<Dst> { if item.Msg? then [item.m] else [] }

  // readLoop drops what it holds when the context is done.
  predicate LoopStep(r: RecvSide, r': RecvSide, item: Item, ctxDone: bool) {
    match r.loop
    case LoopRecv => r' == r.(loop := LoopHave(item), inbox := r.inbox + Messages(item))
    case LoopHave(x) =>
      || (ctxDone && r' == r.(loop := LoopDone))
      || (r.queue.None? && r' == r.(queue := Some(x), loop := if x.Err? then LoopDone else LoopRecv))
    case LoopDone => false
  }

  // A call of ReadFrom gets readMu.
  predicate ReadCall(r: RecvSide, r': RecvSide, room: nat) {
    r.reader == NoReader && r' == r.(reader := Selecting(room), rooms := r.rooms + [room])
  }

  // Its select, and what it does with a message.
  predicate ReadStep(r: RecvSide, r': RecvSide) {
    match r.reader
    case NoReader => false
    case Selecting(n) =>
      // cancelled, past the deadline or closed; or an item
      || r' == r.(reader := NoReader)
      || (r.queue.Some? && r' == r.(reader := Deciding(n, r.queue.value), queue := None,
                                    consumed := r.consumed + Messages(r.queue.value)))
    case Deciding(n, x) => r' == if x.Err? then r.(reader := NoReader) else Decided(r, n, x.m)
  }

  function Decided(r: RecvSide, room: nat, m: Dst): RecvSide {
    match m.status
    case Accepted => r.(reader := Selecting(room))
    case EOF => r.(reader := NoReader)
    case Session => r.(reader := NoReader, copies := r.copies + [Copied(|r.rooms| - 1, Data(m), room)])
    case _ => r.(reader := NoReader, refused := true)
  }

  function Copied(call: int, data: Chunk, room: nat): Copy {
    var n := if |data| <= room then |data| else room;
    Copy(if call < 0 then 0 else call, data[..n], n < |data|)
  }

  // A datagram as it comes out of a buffer of that length: as much as fits, short exactly if that is not all.
  predicate CopyOk(data: Chunk, room: nat, c: Copy) {
    && c.data <= data && |c.data| == (if |data| <= room then |data| else room)
    && (c.short <==> |data| > room)
  }

  function InQueue(r: RecvSide): seq<Dst> { if r.queue.None? then [] else Messages(r.queue.value) }

  // Nothing is lost or reordered between the stream and ReadFrom, until the loop ends.
  predicate Flow(r: RecvSide) {
    if r.loop.LoopDone? then r.consumed + InQueue(r) <= r.inbox
    else r.inbox == r.consumed + InQueue(r) + if r.loop.LoopHave? then Messages(r.loop.item) else []
  }

  ghost predicate Refusal(ms: seq<Dst>) {
    exists i :: 0 <= i < |ms| && (ms[i].status == Error || ms[i].status == Unknown)
  }

  // A message taken out and not yet acted on.
  predicate Taken(r: RecvSide) { r.reader.Deciding? && r.reader.item.Msg? }

  // The calls that returned something, in order, each with the next datagram.
  ghost predicate Returned(r: RecvSide, datagrams: seq<Chunk>) {
    && |datagrams| == |r.copies|
    && (forall i :: 0 <= i < |r.copies| ==>
          r.copies[i].call < |r.rooms| && CopyOk(datagrams[i], r.rooms[r.copies[i].call], r.copies[i]))
    && (forall i, j :: 0 <= i < j < |r.copies| ==> r.copies[i].call < r.copies[j].call)
  }

  // The call in progress has returned nothing yet, and works with the buffer it came with.
  predicate Current(r: RecvSide) {
    !r.reader.NoReader? ==>
      && r.rooms != [] && r.rooms[|r.rooms| - 1] == r.reader.room
      && forall i :: 0 <= i < |r.copies| ==> r.copies[i].call < |r.rooms| - 1
  }

  ghost predicate Given(r: RecvSide, datagrams: seq<Chunk>) {
    && Sessions(r.consumed) == datagrams + (if Taken(r) then Download(r.reader.item.m) else [])
    && Returned(r, datagrams) && Current(r)
    && (Taken(r) ==> r.consumed != [] && r.consumed[|r.consumed| - 1] == r.reader.item.m)
    && (Refusal(r.consumed) <==> r.refused || Refuses(r))
  }

  // The message taken out and not yet acted on is a refusal.
  predicate Refuses(r: RecvSide) { Taken(r) && (r.reader.item.m.status == Error || r.reader.item.m.status == Unknown) }

  ghost predicate RecvInv(r: RecvSide) { Flow(r) && exists datagrams :: Given(r, datagrams) }

  lemma LoopInv(r: RecvSide, r': RecvSide, item: Item, ctxDone: bool)
    requires RecvInv(r) && LoopStep(r, r', item, ctxDone)
    ensures RecvInv(r')
  {
    LoopFlow(r, r', item, ctxDone);
    var datagrams :| Given(r, datagrams);
    GivenFrame(r, r', datagrams);
  }

  lemma LoopFlow(r: RecvSide, r': RecvSide, item: Item, ctxDone: bool)
    requires Flow(r) && LoopStep(r, r', item, ctxDone)
    ensures Flow(r')
    ensures r'.reader == r.reader && r'.consumed == r.consumed && r'.rooms == r.rooms
    ensures r'.copies == r.copies && r'.refused == r.refused
  {
  }

  lemma GivenFrame(r: RecvSide, r': RecvSide, datagrams: seq<Chunk>)
    requires Given(r, datagrams) && r'.reader == r.reader && r'.consumed == r.consumed && r'.rooms == r.rooms
    requires r'.copies == r.copies && r'.refused == r.refused
    ensures Given(r', datagrams)
  {
  }

  lemma ReadFlow(r: RecvSide, r': RecvSide)
    requires Flow(r) && ReadStep(r, r')
    ensures Flow(r')
  {
  }

  lemma CallGiven(r: RecvSide, r': RecvSide, room: nat, datagrams: seq<Chunk>)
    requires Given(r, datagrams) && ReadCall(r, r', room)
    ensures Given(r', datagrams)
  {
  }

  lemma TakeGiven(r: RecvSide, r': RecvSide, datagrams: seq<Chunk>)
    requires Given(r, datagrams) && ReadStep(r, r') && !r.reader.Deciding?
    ensures Given(r', datagrams)
  {
    if r'.consumed != r.consumed {
      var m := r.queue.value.m;
      SessionsAppend(r.consumed, m);
      RefusalKept(r.consumed, m);
    }
  }

  lemma RefusalKept(ms: seq<Dst>, m: Dst)
    ensures Refusal(ms + [m]) <==> Refusal(ms) || m.status == Error || m.status == Unknown
  {
    assert (ms + [m])[|ms|] == m;
    if i :| 0 <= i < |ms| && (ms[i].status == Error || ms[i].status == Unknown) { assert (ms + [m])[i] == ms[i]; }
  }

  lemma DecideGiven(r: RecvSide, r': RecvSide, datagrams: seq<Chunk>)
    requires Given(r, datagrams) && ReadStep(r, r') && r.reader.Deciding?
    ensures Given(r', datagrams + if Taken(r) then Download(r.reader.item.m) else [])
  {
    if Taken(r) && r.reader.item.m.status == Session {
      ReturnsOneMore(r, r', datagrams, Data(r.reader.item.m));
    } else {
      assert datagrams + [] == datagrams;
      DecideNone(r, r', datagrams);
    }
  }

  lemma DecideNone(r: RecvSide, r': RecvSide, datagrams: seq<Chunk>)
    requires Given(r, datagrams) && ReadStep(r, r') && r.reader.Deciding?
    requires Taken(r) ==> r.reader.item.m.status != Session
    ensures Given(r', datagrams)
  {
    assert !Taken(r') && (r'.refused <==> r.refused || Refuses(r));
    ActedOn(r, r', datagrams);
  }

  lemma ActedOn(r: RecvSide, r': RecvSide, datagrams: seq<Chunk>)
    requires Given(r, datagrams) && !r.reader.NoReader? && !Taken(r') && (r'.refused <==> r.refused || Refuses(r))
    requires Taken(r) ==> r.reader.item.m.status != Session
    requires r'.consumed == r.consumed && r'.rooms == r.rooms && r'.copies == r.copies
    requires r'.reader.NoReader? || r'.reader.room == r.reader.room
    ensures Given(r', datagrams)
  {
  }

  lemma ReturnsOneMore(r: RecvSide, r': RecvSide, datagrams: seq<Chunk>, data: Chunk)
    requires Returned(r, datagrams) && Current(r) && !r.reader.NoReader? && r'.rooms == r.rooms
    requires r'.copies == r.copies + [Copied(|r.rooms| - 1, data, r.reader.room)]
    ensures Returned(r', datagrams + [data])
  {
    assert CopyOk(data, r.reader.room, Copied(|r.rooms| - 1, data, r.reader.room));
  }

  lemma ReadInv(r: RecvSide, r': RecvSide, room: nat)
    requires RecvInv(r) && (ReadCall(r, r', room) || ReadStep(r, r'))
    ensures RecvInv(r')
  {
    var datagrams :| Given(r, datagrams);
    if ReadCall(r, r', room) {
      CallGiven(r, r', room, datagrams);
    } else {
      ReadFlow(r, r');
      if r.reader.Deciding? { DecideGiven(r, r', datagrams); } else { TakeGiven(r, r', datagrams); }
    }
  }

  // --- Both sides --------------------------------------------------------------------------------------

  datatype State = State(send: SendSide, recv: RecvSide)

  ghost predicate Init(s: State) { SendInit(s.send) && RecvInit(s.recv) }

  // The read loop and its readers exist once the session is open.
  ghost predicate RecvNext(s: State, s': State) {
    && s.send.dial == Open && s'.send == s.send
    && (|| (exists item :: LoopStep(s.recv, s'.recv, item, s.send.ctxDone))
        || (exists room :: ReadCall(s.recv, s'.recv, room)) || ReadStep(s.recv, s'.recv))
  }

  ghost predicate Next(s: State, s': State) {
    (SendNext(s.send, s'.send) && s'.recv == s.recv) || RecvNext(s, s')
  }

  ghost predicate Run(tr: seq<State>) {
    && |tr| > 0 && Init(tr[0])
    && forall i, j {:trigger Next(tr[i], tr[j])} :: 0 <= i && i + 1 == j < |tr| ==> Next(tr[i], tr[j])
  }

  ghost predicate Inv(s: State) { SendInv(s.send) && RecvInv(s.recv) }

  lemma NextInv(s: State, s': State)
    requires Inv(s) && Next(s, s')
    ensures Inv(s')
  {
    if SendNext(s.send, s'.send) && s'.recv == s.recv { SendNextInv(s.send, s'.send); }
    else if item :| LoopStep(s.recv, s'.recv, item, s.send.ctxDone) { LoopInv(s.recv, s'.recv, item, s.send.ctxDone); }
    else if room :| ReadCall(s.recv, s'.recv, room) { ReadInv(s.recv, s'.recv, room); }
    else { ReadInv(s.recv, s'.recv, 0); }
  }

  lemma InitInv(s: State)
    requires Init(s)
    ensures Inv(s)
  {
    assert Given(s.recv, []);
  }

  lemma {:induction false} RunInv(tr: seq<State>, i: nat)
    requires Run(tr) && i < |tr|
    ensures Inv(tr[i])
  {
    if i == 0 {
      InitInv(tr[0]);
    } else {
      RunInv(tr, i - 1);
      NextInv(tr[i - 1], tr[i]);
    }
  }

  // --- The theorems ---------------------------------------------------------------------------------------

  predicate InProgress(s: SendSide, p: Party) {
    match p
    case Writer(i) => i in s.sends && s.sends[i].Sending?
    case Closer(i) => i in s.closes && s.closes[i] == CloseSending
  }

  /** At most one of all Sends and CloseSends is in progress on the stream, the handshake's included,
      through every cancellation and deadline. */
  lemma OneSendOperation(tr: seq<State>, k: nat, p: Party, q: Party)
    requires Run(tr) && k < |tr| && InProgress(tr[k].send, p)
    ensures InProgress(tr[k].send, q) ==> p == q
    ensures tr[k].send.greeting == Greeted(true)
  {
    RunInv(tr, k);
    Holds(tr[k].send, p);
    if InProgress(tr[k].send, q) { Holds(tr[k].send, q); }
  }

  lemma Holds(s: SendSide, p: Party)
    requires SendInv(s) && InProgress(s, p)
    ensures s.mu == Some(p) && s.dial == Open
  {
    if p.Writer? { assert WriteOk(s, p.id, s.writes[p.id]); }
  }

  // The datagram of the writer that is past its tests and whose Send is still to begin.
  function ToBegin(s: SendSide): seq<Chunk> {
    if s.mu.Some? && s.mu.value.Writer? then
      var i := s.mu.value.id;
      if i in s.writes && s.writes[i].Cleared? then [s.writes[i].data]
      else if i in s.sends && s.sends[i].Spawned? then [s.sends[i].data]
      else []
    else []
  }

  predicate Started(s: SendSide, c: nat) { c in s.closes && s.closes[c] != CloseQueued }

  /** Once a CloseSend has started no Send ever begins again. */
  lemma NoSendAfterCloseSend(tr: seq<State>, i: nat, j: nat, c: nat)
    requires Run(tr) && i <= j < |tr| && Started(tr[i].send, c)
    ensures tr[j].send.attempts == tr[i].send.attempts
  {
    CloseSendLast(tr, i, c);
    SendsOnceCancelled(tr, i, j);
  }

  /** Once a Close has been called at most one Send still begins: that of the writer holding writeMu that was
      past its tests by then. */
  lemma OneSendAfterClose(tr: seq<State>, i: nat, j: nat, c: nat)
    requires Run(tr) && i <= j < |tr| && c in tr[i].send.closes
    ensures || tr[j].send.attempts == tr[i].send.attempts
            || tr[j].send.attempts == tr[i].send.attempts + ToBegin(tr[i].send)
    ensures |ToBegin(tr[i].send)| <= 1
    ensures ToBegin(tr[i].send) != [] ==> tr[i].send.mu.Some? && tr[i].send.mu.value.Writer?
  {
    ClosedCancelled(tr, i);
    SendsOnceCancelled(tr, i, j);
  }

  /** That one may well come: a Close between a writer's tests and its Send. */
  lemma SendAfterClose(s: SendSide, i: nat, c: nat) returns (s1: SendSide, s2: SendSide, s3: SendSide)
    requires s.dial == Open && i in s.writes && s.writes[i].Cleared? && c !in s.closes
    ensures CloseStep(s, s1, c) && WriteEnter(s1, s2, i) && SendBegin(s2, s3, i)
    ensures c in s1.closes && s3.attempts == s1.attempts + [s.writes[i].data]
  {
    var data := s.writes[i].data;
    s1 := s.(ctxDone := true, closes := s.closes[c := CloseQueued]);
    s2 := s1.(writes := s1.writes[i := InFlight(data, ForAny)], sends := s1.sends[i := Spawned(data)]);
    s3 := s2.(sends := s2.sends[i := Sending(data)], attempts := s2.attempts + [data]);
  }

  // A cancelled session stays so and begins no Send but the one already due; a Close cancels.
  ghost predicate Quiets(s: SendSide, s': SendSide) {
    && (s.ctxDone ==> Settled(s, s'))
    && (s'.closes == s.closes || s'.ctxDone)
    && (forall c {:trigger Started(s', c)} :: Started(s', c) ==> Started(s, c) || ToBegin(s') == [])
  }

  predicate Settled(s: SendSide, s': SendSide) {
    s'.ctxDone && s.attempts <= s'.attempts && s'.attempts + ToBegin(s') == s.attempts + ToBegin(s)
  }

  lemma EnterQuiets(s: SendSide, s': SendSide, i: nat)
    requires SendInv(s) && WriteEnter(s, s', i)
    ensures Quiets(s, s')
  {
    assert WriteOk(s, i, s.writes[i]);
  }

  lemma WriteQuiets(s: SendSide, s': SendSide, i: nat, data: Chunk, expired: bool)
    requires SendInv(s) && (WriteCall(s, s', i, data) || WriteWait(s, s', i, expired))
    ensures Quiets(s, s')
  {
    if i in s.writes { assert WriteOk(s, i, s.writes[i]); }
  }

  lemma BeginQuiets(s: SendSide, s': SendSide, i: nat)
    requires SendInv(s) && SendBegin(s, s', i)
    ensures Quiets(s, s')
  {
    assert WriteOk(s, i, s.writes[i]);
  }

  lemma EndQuiets(s: SendSide, s': SendSide, i: nat, ok: bool, out: bool)
    requires SendInv(s) && (SendEnd(s, s', i, ok, out) || Cancel(s, s'))
    ensures Quiets(s, s')
  {
    if i in s.sends { assert WriteOk(s, i, s.writes[i]); }
  }

  lemma DialQuiets(s: SendSide, s': SendSide)
    requires DialStep(s, s')
    ensures Quiets(s, s')
  {
  }

  lemma GreetQuiets(s: SendSide, s': SendSide, ok: bool, out: bool)
    requires GreetEnd(s, s', ok, out)
    ensures Quiets(s, s')
  {
  }

  lemma CloseQuiets(s: SendSide, s': SendSide, i: nat)
    requires SendInv(s) && CloseStep(s, s', i) && (s.closes != map[] ==> s.ctxDone)
    ensures Quiets(s, s')
  {
  }

  lemma StepQuiets(tr: seq<State>, j: nat)
    requires Run(tr) && 0 < j < |tr| && (tr[j - 1].send.closes != map[] ==> tr[j - 1].send.ctxDone)
    ensures Quiets(tr[j - 1].send, tr[j].send)
  {
    RunInv(tr, j - 1);
    NextQuiets(tr[j - 1], tr[j]);
  }

  lemma NextQuiets(s: State, s': State)
    requires SendInv(s.send) && Next(s, s') && (s.send.closes != map[] ==> s.send.ctxDone)
    ensures Quiets(s.send, s'.send)
  {
    if s'.send != s.send { SendNextQuiets(s.send, s'.send); }
  }

  lemma SendNextQuiets(s: SendSide, s': SendSide)
    requires SendInv(s) && SendNext(s, s') && (s.closes != map[] ==> s.ctxDone)
    ensures Quiets(s, s')
  {
    if Cancel(s, s') { EndQuiets(s, s', 0, false, false); }
    else if DialStep(s, s') { DialQuiets(s, s'); }
    else if ok, out :| GreetEnd(s, s', ok, out) { GreetQuiets(s, s', ok, out); }
    else if i, data :| WriteCall(s, s', i, data) { WriteQuiets(s, s', i, data, false); }
    else if i :| WriteEnter(s, s', i) { EnterQuiets(s, s', i); }
    else if i :| SendBegin(s, s', i) { BeginQuiets(s, s', i); }
    else if i, ok, out :| SendEnd(s, s', i, ok, out) { EndQuiets(s, s', i, ok, out); }
    else if i, expired :| WriteWait(s, s', i, expired) { WriteQuiets(s, s', i, [], expired); }
    else if i :| CloseStep(s, s', i) { CloseQuiets(s, s', i); }
  }

  lemma {:induction false} SendsOnceCancelled(tr: seq<State>, i: nat, j: nat)
    requires Run(tr) && i <= j < |tr| && tr[i].send.ctxDone
    ensures Settled(tr[i].send, tr[j].send)
    decreases j
  {
    if i < j {
      SendsOnceCancelled(tr, i, j - 1);
      StepQuiets(tr, j);
    }
  }

  lemma {:induction false} ClosedCancelled(tr: seq<State>, i: nat)
    requires Run(tr) && i < |tr|
    ensures tr[i].send.closes != map[] ==> tr[i].send.ctxDone
  {
    if i > 0 {
      ClosedCancelled(tr, i - 1);
      StepQuiets(tr, i);
    }
  }

  lemma {:induction false} CloseSendLast(tr: seq<State>, i: nat, c: nat)
    requires Run(tr) && i < |tr| && Started(tr[i].send, c)
    ensures tr[i].send.ctxDone && ToBegin(tr[i].send) == []
  {
    ClosedCancelled(tr, i);
    if i > 0 {
      ClosedCancelled(tr, i - 1);
      StepQuiets(tr, i);
      if Started(tr[i - 1].send, c) { CloseSendLast(tr, i - 1, c); }
    }
  }

  predicate Works(s: SendSide, i: nat, data: Chunk) { i in s.writes && s.writes[i].data == data }

  /** A WriteTo that has returned leaves no Send behind.  It reports success only if its Send succeeded, and then the
      datagram it was called with is on the stream; it reports failure of a Send that succeeded only in a session that
      has been cancelled. */
  lemma WriteReturned(tr: seq<State>, h: nat, k: nat, i: nat, data: Chunk)
    requires Run(tr) && h < k < |tr| && WriteCall(tr[h].send, tr[h + 1].send, i, data)
    ensures i in tr[k].send.writes
    ensures var s, x := tr[k].send, tr[k].send.writes[i];
            x.Exited? ==>
              && !InProgress(s, Writer(i))
              && (x.ok ==> i in s.sends && s.sends[i] == Ended(true))
              && (i in s.sends && s.sends[i] == Ended(true) ==> data in Payloads(s.outbox) && (x.ok || s.ctxDone))
  {
    RunInv(tr, k);
    StillWorks(tr, h + 1, k, i, data);
    assert WriteOk(tr[k].send, i, tr[k].send.writes[i]);
  }

  // A call keeps the datagram it was made with.
  lemma {:induction false} StillWorks(tr: seq<State>, h: nat, k: nat, i: nat, data: Chunk)
    requires Run(tr) && h <= k < |tr| && Works(tr[h].send, i, data)
    ensures Works(tr[k].send, i, data)
    decreases k
  {
    if h < k {
      StillWorks(tr, h, k - 1, i, data);
      assert Next(tr[k - 1], tr[k]);
      if tr[k].send != tr[k - 1].send { WorksStep(tr[k - 1].send, tr[k].send, i, data); }
    }
  }

  lemma WorksStep(s: SendSide, s': SendSide, i: nat, data: Chunk)
    requires SendNext(s, s') && Works(s, i, data)
    ensures Works(s', i, data)
  {
    if Cancel(s, s') || DialStep(s, s') || (exists ok, out :: GreetEnd(s, s', ok, out)) {}
    else if j, x :| WriteCall(s, s', j, x) {}
    else if j :| WriteEnter(s, s', j) { EnterWorks(s, s', j, i, data); }
    else if j, expired :| WriteWait(s, s', j, expired) { WaitWorks(s, s', j, expired, i, data); }
    else { OthersWork(s, s'); }
  }

  lemma EnterWorks(s: SendSide, s': SendSide, j: nat, i: nat, data: Chunk)
    requires WriteEnter(s, s', j) && Works(s, i, data)
    ensures Works(s', i, data)
  {
  }

  lemma WaitWorks(s: SendSide, s': SendSide, j: nat, expired: bool, i: nat, data: Chunk)
    requires WriteWait(s, s', j, expired) && Works(s, i, data)
    ensures Works(s', i, data)
  {
  }

  lemma OthersWork(s: SendSide, s': SendSide)
    requires || (exists i :: SendBegin(s, s', i)) || (exists i, ok, out :: SendEnd(s, s', i, ok, out))
             || (exists i :: CloseStep(s, s', i))
    ensures s'.writes == s.writes
  {
  }

  /** The stream carries one header and then datagrams: a prefix, in order and whole, of those whose
      Send was begun. */
  lemma DatagramsSent(tr: seq<State>, k: nat)
    requires Run(tr) && k < |tr|
    ensures ClientLanguage(tr[k].send.outbox) && Payloads(tr[k].send.outbox) <= tr[k].send.attempts
    ensures tr[k].send.outbox != [] ==> tr[k].send.outbox[0] == SrcHeader(tr[k].send.addr, UDP)
  {
    RunInv(tr, k);
  }

  /** The calls of ReadFrom that return a datagram return the datagrams received, one each, in order: call by call as
      much as fits the buffer it was made with, with a short-buffer report exactly if that is not all. */
  lemma DatagramsReceived(tr: seq<State>, k: nat)
    requires Run(tr) && k < |tr|
    ensures var r, received := tr[k].recv, Sessions(tr[k].recv.inbox);
            && |r.copies| <= |received|
            && (forall i :: 0 <= i < |r.copies| ==>
                  r.copies[i].call < |r.rooms| && CopyOk(received[i], r.rooms[r.copies[i].call], r.copies[i]))
            && (forall i, j :: 0 <= i < j < |r.copies| ==> r.copies[i].call < r.copies[j].call)
  {
    RunInv(tr, k);
    RecvInOrder(tr[k].recv);
  }

  lemma RecvInOrder(r: RecvSide)
    requires RecvInv(r)
    ensures |r.copies| <= |Sessions(r.inbox)| && Returned(r, Sessions(r.inbox)[..|r.copies|])
    ensures r.refused ==> Refusal(r.inbox)
  {
    var datagrams :| Given(r, datagrams);
    SessionsPrefix(r.consumed, r.inbox);
    assert datagrams == Sessions(r.inbox)[..|r.copies|];
    assert forall i :: 0 <= i < |r.consumed| ==> r.inbox[i] == r.consumed[i];
  }

  // What the calls returned, one after the other.
  function Outputs(copies: seq<Copy>): (out: seq<Chunk>)
    ensures |out| == |copies| && forall i :: 0 <= i < |copies| ==> out[i] == copies[i].data
  {
    seq(|copies|, i requires 0 <= i < |copies| => copies[i].data)
  }

  /** ReadFrom reports an error status exactly for an Error or something unknown that it took out: only if the server
      sent one, and whenever it is done with one. */
  lemma RefusedMeansError(tr: seq<State>, k: nat)
    requires Run(tr) && k < |tr|
    ensures tr[k].recv.refused ==> Refusal(tr[k].recv.inbox)
    ensures Refusal(tr[k].recv.consumed) <==> tr[k].recv.refused || Refuses(tr[k].recv)
  {
    RunInv(tr, k);
    RecvInOrder(tr[k].recv);
  }
}
