/** One proxied byte stream on the client: Client.Proxy of internal/transport/rpc/client/client.go,
    sendHandshake of handshake.go and the forwarder of forwarder.go. */
module TcpClient {
  import opened Basics
  import opened SessionWire

  // Proxy and Start: the handshake under a timer, the three goroutines, the deferred closing.
  datatype Main = Handshaking | Working | Started | Closed

  // The goroutine that sends the handshake; a timeout leaves it behind.
  datatype Greeting = Greet | SendingHeader | Greeted(ok: bool)

  // The goroutine of CopySRCtoTarget, which may outlive it.
  datatype Pump = PumpOff | PumpRead | PumpHave(data: Chunk) | SendingChunk(data: Chunk) | PumpStopped

  // The goroutine of CopyTargetToSRC.
  datatype Rx = RxOff | RxRecv | RxHave(msg: Dst) | RxStopped(fault: Fault)

  datatype Up = UpOff | UpSelect | UpReturned
  datatype Down = DownOff | DownSelect | DownAborting | DownReturned

  // The goroutine that waits for the acknowledgement.
  datatype Ack = AckOff | AckWait | AckGot(addr: string) | AckReturned

  /** `local` is the buffer of the channel localAddr, which `signals` sends went to; `localCloses`
      counts its closes.  `told` counts sends on the caller's channel, closed once main is Closed. */
  datatype Control = Control(ctxDone: bool, main: Main, greeting: Greeting, pump: Pump, rx: Rx, up: Up, down: Down,
                             ack: Ack, local: seq<string>, signals: nat, localCloses: nat, told: nat)

  /** `outbox` lists the messages handed to the stream and `inbox` those received; `taken` lists what each Read from
      the caller's reader brought, `readFailed` tells that one brought an error, `sendFailed` that a Send of a chunk
      did; `written` is what the caller's writer took.  `invalid` is set when a message was reported invalid or of
      unknown status, `emptied` when a payload was reported empty. */
  datatype Log = Log(inbox: seq<Dst>, outbox: seq<Src>, taken: seq<Chunk>, readFailed: bool, sendFailed: bool,
                     written: seq<Chunk>, invalid: bool, emptied: bool)

  datatype State = State(addr: string, ctl: Control, log: Log)

  function Initial(addr: string): State {
    State(addr, Control(false, Handshaking, Greet, PumpOff, RxOff, UpOff, DownOff, AckOff, [], 0, 0, 0),
          Log([], [], [], false, false, [], false, false))
  }

  ghost predicate Init(s: State) { s == Initial(s.addr) }

  // --- One message -----------------------------------------------------------------------------

  /** What copyTargetToSRC does with a message: what the writer took, the error that ends the loop,
      the address it signals and whether it closes the channel. */
  datatype Effect = Effect(written: seq<Chunk>, fault: Option<Fault>, signal: seq<string>, reject: bool)

  function React(m: Dst, w: WriteResult): Effect
    requires w.n <= |Data(m)|
  {
    match m.status
    case Session =>
      if !m.body.Payload? then Effect([], Some(InvalidMessage), [], false)
      else if |m.body.data| == 0 then Effect([], Some(InvalidPayload), [], false)
      else Effect([m.body.data[..w.n]], if w.failed || w.n < |m.body.data| then Some(Failed) else None, [], false)
    case Accepted =>
      if !m.body.Header? then Effect([], Some(InvalidMessage), [], false) else Effect([], None, [m.body.addr], false)
    case EOF => Effect([], Some(EndOfFile), [], false)
    case Error => Effect([], Some(Failed), [], true)
    case Unknown => Effect([], Some(UnknownStatus), [], false)
  }

  predicate Objects(e: Effect) { e.fault == Some(InvalidMessage) || e.fault == Some(UnknownStatus) }

  /** copyTargetToSRC as it works on its fields: the writer, the channel localAddr and its close-once. */
  class Forwarder {
    var written: seq<Chunk>
    var local: seq<string>
    var localClosed: bool

    constructor ()
      ensures written == [] && local == [] && !localClosed
    {
      written, local, localClosed := [], [], false;
    }

    method CopyTargetToSRC(m: Dst, w: WriteResult) returns (err: Option<Fault>)
      requires w.n <= |Data(m)| && !localClosed
      modifies this
      ensures written == old(written) + React(m, w).written && err == React(m, w).fault
      ensures local == old(local) + React(m, w).signal && localClosed == React(m, w).reject
      ensures err.None? ==> written == old(written) + Download(m)
      ensures Conveyed(written, old(written) + Download(m), false)
      ensures localClosed <==> m.status == Error
      ensures local == old(local) + if m.status == Accepted && m.body.Header? then [m.body.addr] else []
      ensures err.None? <==>
              || (m.status == Session && m.body.Payload? && m.body.data != [] && w.n == |m.body.data| && !w.failed)
              || (m.status == Accepted && m.body.Header?)
      ensures err == Some(InvalidMessage) <==>
              (m.status == Session && !m.body.Payload?) || (m.status == Accepted && !m.body.Header?)
      ensures err == Some(InvalidPayload) <==> m.status == Session && m.body == Payload([])
      ensures err == Some(UnknownStatus) <==> m.status == Unknown
      ensures err == Some(EndOfFile) <==> m.status == EOF
    {
      HandleConveys(written, m, w);
      match m.status {
        case Session =>
          if !m.body.Payload? { return Some(InvalidMessage); }
          if |m.body.data| <= 0 { return Some(InvalidPayload); }
          written := written + [m.body.data[..w.n]];
          if w.failed { return Some(Failed); }
          if w.n <= 0 || w.n < |m.body.data| { return Some(Failed); }
        case Accepted =>
          if !m.body.Header? { return Some(InvalidMessage); }
          local := local + [m.body.addr];
        case EOF =>
          return Some(EndOfFile);
        case Error =>
          localClosed := true;
          return Some(Failed);
        case Unknown =>
          return Some(UnknownStatus);
      }
      return None;
    }
  }

  // --- Steps -----------------------------------------------------------------------------------

  predicate MainControl(c: Control, c': Control) {
    match c.main
    case Handshaking =>
      || (c.greeting == Greet && c' == c.(greeting := SendingHeader))
      || (c.greeting == Greeted(true)
          && c' == c.(main := Working, pump := PumpRead, rx := RxRecv, up := UpSelect, down := DownSelect,
                      ack := AckWait))
      // the send failed, or the timer fired: cancel and give up
      || (c.greeting == Greeted(false) && c' == c.(main := Started))
      || (c.greeting == SendingHeader && c' == c.(ctxDone := true, main := Started))
    case Working => c.up.UpReturned? && c.down.DownReturned? && c.ack.AckReturned? && c' == c.(main := Started)
    case Started => c' == c.(ctxDone := true, main := Closed)
    case Closed => false
  }

  predicate DownControl(c: Control, c': Control) {
    match c.down
    case DownSelect =>
      || (c.rx.RxStopped? && c' == c.(down := DownReturned))
      || (c.ctxDone && c' == c.(down := DownAborting))
    case DownAborting => c.rx.RxStopped? && c' == c.(down := DownReturned)
    case _ => false
  }

  // The acknowledgement, its timer, and handing the address to the caller.
  predicate AckControl(c: Control, c': Control) {
    match c.ack
    case AckWait =>
      || c' == c.(ack := AckReturned)
      || (c.local != [] && c' == c.(local := c.local[1..], ack := AckGot(c.local[0])))
    case AckGot(_) => c' == c.(ack := AckReturned) || c' == c.(told := c.told + 1, ack := AckReturned)
    case _ => false
  }

  // CopySRCtoTarget's select, a failing receive, and the context ending for whatever reason.
  predicate OtherControl(c: Control, c': Control) {
    || (c.up == UpSelect && (c.pump.PumpStopped? || c.ctxDone) && c' == c.(up := UpReturned))
    || (c.rx == RxRecv && c'.rx.RxStopped? && External(c'.rx.fault) && c' == c.(rx := c'.rx))
    || c' == c.(ctxDone := true)
  }

  predicate Quiet(s: State, s': State) {
    && s'.addr == s.addr && s'.log == s.log
    && (|| MainControl(s.ctl, s'.ctl) || DownControl(s.ctl, s'.ctl)
        || AckControl(s.ctl, s'.ctl) || OtherControl(s.ctl, s'.ctl))
  }

  // The handshake send ends, perhaps long after Start gave up on it; a failed send may yet be out.
  predicate GreetEnd(s: State, s': State, ok: bool, out: bool) {
    && s.ctl.greeting == SendingHeader && (ok ==> out)
    && s' == s.(ctl := s.ctl.(greeting := Greeted(ok)),
                log := if out then s.log.(outbox := s.log.outbox + [SrcHeader(s.addr, TCP)]) else s.log)
  }

  // copySRCtoTarget: bytes that come with an error are dropped.
  predicate Pull(s: State, s': State, data: Chunk, failed: bool) {
    && s.ctl.pump == PumpRead
    && s' == s.(ctl := s.ctl.(pump := if failed || |data| == 0 then PumpStopped else PumpHave(data)),
                log := s.log.(taken := s.log.taken + [data], readFailed := failed))
  }

  predicate Push(s: State, s': State, ok: bool, out: bool) {
    match s.ctl.pump
    case PumpHave(data) => s' == s.(ctl := s.ctl.(pump := SendingChunk(data)))
    case SendingChunk(data) =>
      && (ok ==> out)
      && s' == s.(ctl := s.ctl.(pump := if ok then PumpRead else PumpStopped),
                  log := s.log.(outbox := if out then s.log.outbox + [SrcPayload(data)] else s.log.outbox,
                                sendFailed := !ok))
    case _ => false
  }

  predicate Take(s: State, s': State, m: Dst) {
    && s.ctl.rx == RxRecv
    && s' == s.(ctl := s.ctl.(rx := RxHave(m)), log := s.log.(inbox := s.log.inbox + [m]))
  }

  // A full localAddr makes the loop wait.
  predicate Handle(s: State, s': State, w: WriteResult) {
    && s.ctl.rx.RxHave? && w.n <= |Data(s.ctl.rx.msg)|
    && var e := React(s.ctl.rx.msg, w);
       && (e.signal != [] ==> s.ctl.local == [])
       && s' == s.(ctl := s.ctl.(rx := if e.fault.None? then RxRecv else RxStopped(e.fault.value),
                                 local := s.ctl.local + e.signal, signals := s.ctl.signals + |e.signal|,
                                 localCloses := if e.reject && s.ctl.localCloses == 0 then 1 else s.ctl.localCloses),
                   log := s.log.(written := s.log.written + e.written, invalid := s.log.invalid || Objects(e),
                                 emptied := s.log.emptied || e.fault == Some(InvalidPayload)))
  }

  ghost predicate Next(s: State, s': State) {
    || Quiet(s, s') || (exists ok, out :: GreetEnd(s, s', ok, out))
    || (exists data, failed :: Pull(s, s', data, failed)) || (exists ok, out :: Push(s, s', ok, out))
    || (exists m :: Take(s, s', m)) || (exists w :: Handle(s, s', w))
  }

  ghost predicate Run(tr: seq<State>) {
    && |tr| > 0 && Init(tr[0])
    && forall i, j {:trigger Next(tr[i], tr[j])} :: 0 <= i && i + 1 == j < |tr| ==> Next(tr[i], tr[j])
  }

  // --- Invariant --------------------------------------------------------------------------------

  // The messages of a language are told apart by where they stand.
  function Acceptances(ms: seq<Dst>): nat {
    if ms == [] then 0 else Acceptances(ms[..|ms| - 1]) + if ms[|ms| - 1].status == Accepted then 1 else 0
  }

  predicate Idle(c: Control) { c.pump.PumpOff? && c.rx.RxOff? && c.up.UpOff? && c.down.DownOff? && c.ack.AckOff? }

  predicate Places(c: Control) {
    && (c.main.Handshaking? ==> Idle(c))
    && (!c.pump.PumpOff? ==> c.greeting == Greeted(true))
    && (c.pump.PumpOff? ==> Idle(c))
    && (c.main.Working? ==> !c.pump.PumpOff?)
    && (c.down.DownOff? || c.ack.AckOff? || c.rx.RxOff? ==> c.pump.PumpOff?)
    && (c.main.Started? || c.main.Closed? ==>
          c.pump.PumpOff? || (c.up.UpReturned? && c.down.DownReturned? && c.ack.AckReturned?))
    && (c.down.DownReturned? ==> c.rx.RxStopped?)
    && (c.localCloses > 0 ==> c.rx.RxStopped?) && c.localCloses <= 1
    && c.told + (if c.ack.AckGot? then 1 else 0) + |c.local| <= c.signals
    && (c.ack.AckOff? || c.ack.AckWait? || c.ack.AckGot? ==> c.told == 0) && c.told <= 1
  }

  predicate Upward(s: State) {
    && ClientLanguage(s.log.outbox) && NonEmpty(Payloads(s.log.outbox))
    && (!s.ctl.greeting.Greeted? ==> s.log.outbox == [])
    && (s.ctl.greeting == Greeted(true) ==> s.log.outbox != [])
    && (s.log.outbox != [] ==> s.log.outbox[0] == SrcHeader(s.addr, TCP))
    && (s.ctl.pump.PumpOff? ==> s.log.taken == [] && |s.log.outbox| <= 1)
    && (if s.ctl.pump.PumpStopped? then Spoiled(s.log) else !s.log.readFailed && !s.log.sendFailed)
    && match s.ctl.pump
       case PumpStopped =>
         && Payloads(s.log.outbox) <= s.log.taken
         && |s.log.taken| <= |Payloads(s.log.outbox)| + if Spoiled(s.log) then 1 else 0
       case _ => s.log.taken == Payloads(s.log.outbox) + InHand(s.ctl) && NonEmpty(InHand(s.ctl))
  }

  // The chunk read and not yet handed to the stream.
  function InHand(c: Control): seq<Chunk> {
    match c.pump
    case PumpHave(data) => [data]
    case SendingChunk(data) => [data]
    case _ => []
  }

  // What makes the pump stop, with its last chunk or without.
  predicate Spoiled(l: Log) { l.readFailed || l.sendFailed || (l.taken != [] && l.taken[|l.taken| - 1] == []) }

  predicate NonEmpty(chunks: seq<Chunk>) { forall i :: 0 <= i < |chunks| ==> |chunks[i]| > 0 }

  predicate Downward(c: Control, l: Log) {
    && (l.invalid ==> !ServerLanguage(l.inbox)) && (l.emptied ==> !NonEmpty(Sessions(l.inbox)))
    && c.signals + (if c.rx.RxHave? && c.rx.msg.status == Accepted then 1 else 0) <= Acceptances(l.inbox)
    && match c.rx
       case RxOff => l.written == [] && l.inbox == []
       case RxRecv => l.written == Sessions(l.inbox)
       case RxHave(m) => l.inbox != [] && l.inbox[|l.inbox| - 1] == m && Sessions(l.inbox) == l.written + Download(m)
       case RxStopped(_) => Conveyed(l.written, Sessions(l.inbox), false)
  }

  // The end of session is handled last, when everything before it has been written.
  predicate AtEnd(c: Control, l: Log) {
    && (c.rx.RxRecv? ==> !EndsInEof(l.inbox))
    && (c.rx.RxStopped? && EndsInEof(l.inbox) ==> l.written == Sessions(l.inbox))
  }

  predicate Inv(s: State) { Places(s.ctl) && Upward(s) && Downward(s.ctl, s.log) && AtEnd(s.ctl, s.log) }

  lemma QuietAtEnd(c: Control, c': Control, l: Log)
    requires Places(c) && Downward(c, l) && AtEnd(c, l)
    requires MainControl(c, c') || DownControl(c, c') || AckControl(c, c') || OtherControl(c, c')
    ensures AtEnd(c', l)
  {
  }

  lemma HandleAtEnd(s: State, s': State, w: WriteResult)
    requires Downward(s.ctl, s.log) && Handle(s, s', w)
    ensures AtEnd(s'.ctl, s'.log)
  {
  }

  lemma QuietPlaces(c: Control, c': Control)
    requires Places(c) && (MainControl(c, c') || DownControl(c, c') || OtherControl(c, c'))
    ensures Places(c')
  {
  }

  lemma AckPlaces(c: Control, c': Control)
    requires Places(c) && AckControl(c, c')
    ensures Places(c')
  {
  }

  lemma QuietInv(s: State, s': State)
    requires Inv(s) && Quiet(s, s')
    ensures Inv(s')
  {
    if AckControl(s.ctl, s'.ctl) { AckPlaces(s.ctl, s'.ctl); } else { QuietPlaces(s.ctl, s'.ctl); }
    QuietPump(s.ctl, s'.ctl);
    QuietUpward(s, s');
    QuietDownward(s.ctl, s'.ctl, s.log);
    QuietAtEnd(s.ctl, s'.ctl, s.log);
  }

  // Only main starts the handshake and the pump.
  lemma QuietPump(c: Control, c': Control)
    requires Places(c) && (MainControl(c, c') || DownControl(c, c') || AckControl(c, c') || OtherControl(c, c'))
    ensures c'.greeting == c.greeting || (c.greeting == Greet && c'.greeting == SendingHeader && c'.pump == c.pump)
    ensures c'.pump == c.pump || (c.pump == PumpOff && c'.pump == PumpRead && c.greeting == Greeted(true))
  {
  }

  lemma QuietUpward(s: State, s': State)
    requires Upward(s) && s'.addr == s.addr && s'.log.outbox == s.log.outbox && s'.log.taken == s.log.taken
    requires s'.log.readFailed == s.log.readFailed && s'.log.sendFailed == s.log.sendFailed
    requires var c, c' := s.ctl, s'.ctl;
             || c'.greeting == c.greeting
             || (c.greeting == Greet && c'.greeting == SendingHeader && c'.pump == c.pump)
    requires s'.ctl.pump == s.ctl.pump || (s.ctl.pump == PumpOff && s'.ctl.pump == PumpRead)
    ensures Upward(s')
  {
    assert InHand(s'.ctl) == InHand(s.ctl) && (Spoiled(s'.log) <==> Spoiled(s.log));
    assert s'.ctl.pump.PumpStopped? == s.ctl.pump.PumpStopped?;
  }

  lemma QuietDownward(c: Control, c': Control, l: Log)
    requires Places(c) && Downward(c, l)
    requires MainControl(c, c') || DownControl(c, c') || AckControl(c, c') || OtherControl(c, c')
    ensures Downward(c', l)
  {
    ConveyedPrefix(l.written, l.written, false);
  }

  lemma GreetEndInv(s: State, s': State, ok: bool, out: bool)
    requires Inv(s) && GreetEnd(s, s', ok, out)
    ensures Inv(s')
  {
    GreetEndUpward(s, s', ok, out);
    OutKeeps(s.ctl, s'.ctl, s.log, s'.log);
  }

  lemma GreetEndUpward(s: State, s': State, ok: bool, out: bool)
    requires Places(s.ctl) && Upward(s) && GreetEnd(s, s', ok, out)
    ensures Upward(s') && Places(s'.ctl)
  {
    PayloadsAppend([], SrcHeader(s.addr, TCP));
  }

  // What happens on the way out leaves the way back alone.
  lemma OutKeeps(c: Control, c': Control, l: Log, l': Log)
    requires Downward(c, l) && AtEnd(c, l) && c'.rx == c.rx && c'.signals == c.signals
    requires l'.inbox == l.inbox && l'.written == l.written && l'.invalid == l.invalid && l'.emptied == l.emptied
    ensures Downward(c', l') && AtEnd(c', l')
  {
  }

  lemma PullUpward(s: State, s': State, data: Chunk, failed: bool)
    requires Places(s.ctl) && Upward(s) && Pull(s, s', data, failed)
    ensures Upward(s') && Places(s'.ctl)
  {
  }

  lemma PullInv(s: State, s': State, data: Chunk, failed: bool)
    requires Inv(s) && Pull(s, s', data, failed)
    ensures Inv(s')
  {
    PullUpward(s, s', data, failed);
    OutKeeps(s.ctl, s'.ctl, s.log, s'.log);
  }

  lemma PushUpward(s: State, s': State, ok: bool, out: bool)
    requires Places(s.ctl) && Upward(s) && Push(s, s', ok, out)
    ensures Upward(s')
  {
    if s.ctl.pump.SendingChunk? {
      PayloadsAppend(s.log.outbox, SrcPayload(s.ctl.pump.data));
      LanguageGrows(s.log.outbox, SrcPayload(s.ctl.pump.data));
      NonEmptyJoin(Payloads(s.log.outbox), s.ctl.pump.data);
    }
  }

  lemma NonEmptyJoin(chunks: seq<Chunk>, c: Chunk)
    requires NonEmpty(chunks) && NonEmpty([c])
    ensures NonEmpty(chunks + [c])
  {
    assert [c][0] == c;
  }

  lemma LanguageGrows(ms: seq<Src>, m: Src)
    ensures ClientLanguage(ms) && ms != [] && m.SrcPayload? ==> ClientLanguage(ms + [m])
  {
  }

  lemma PushInv(s: State, s': State, ok: bool, out: bool)
    requires Inv(s) && Push(s, s', ok, out)
    ensures Inv(s')
  {
    PushUpward(s, s', ok, out);
    OutKeeps(s.ctl, s'.ctl, s.log, s'.log);
  }

  lemma AcceptancesAppend(ms: seq<Dst>, m: Dst)
    ensures Acceptances(ms + [m]) == Acceptances(ms) + if m.status == Accepted then 1 else 0
  {
    assert (ms + [m])[..|ms|] == ms;
  }

  lemma TakeInv(s: State, s': State, m: Dst)
    requires Inv(s) && Take(s, s', m)
    ensures Inv(s')
  {
    var was, now := s.log.inbox, s'.log.inbox;
    QuietUpward(s, s');
    AcceptancesAppend(was, m);
    LanguagesCut([], [], was, now);
    SessionsAppend(was, m);
    assert forall i :: 0 <= i < |Sessions(was)| ==> Sessions(was)[i] == Sessions(now)[i];
  }

  lemma HandleInv(s: State, s': State, w: WriteResult)
    requires Inv(s) && Handle(s, s', w)
    ensures Inv(s')
  {
    QuietUpward(s, s');
    HandlePlaces(s, s', w);
    HandleDownward(s, s', w);
    HandleAtEnd(s, s', w);
  }

  lemma HandlePlaces(s: State, s': State, w: WriteResult)
    requires Places(s.ctl) && Handle(s, s', w)
    ensures Places(s'.ctl)
  {
  }

  lemma HandleDownward(s: State, s': State, w: WriteResult)
    requires Downward(s.ctl, s.log) && Handle(s, s', w)
    ensures Downward(s'.ctl, s'.log)
  {
    HandleConveys(s.log.written, s.ctl.rx.msg, w);
    HandleInvalid(s.log.inbox, s.log.written, w);
  }

  lemma HandleConveys(done: seq<Chunk>, m: Dst, w: WriteResult)
    requires w.n <= |Data(m)|
    ensures var e, all := React(m, w), done + Download(m);
            (e.fault.None? ==> done + e.written == all) && Conveyed(done + e.written, all, false)
  {
    var e, all := React(m, w), done + Download(m);
    assert w.n == |Data(m)| ==> Data(m)[..w.n] == Data(m);
    if done + e.written <= all { ConveyedPrefix(done + e.written, all, false); }
    else { ConveyedPart(done, Data(m), Data(m)[..w.n]); }
  }

  // A message called invalid is none the server's language has; a payload called empty is.
  lemma HandleInvalid(ms: seq<Dst>, before: seq<Chunk>, w: WriteResult)
    requires ms != [] && w.n <= |Data(ms[|ms| - 1])| && Sessions(ms) == before + Download(ms[|ms| - 1])
    ensures Objects(React(ms[|ms| - 1], w)) ==> !ServerLanguage(ms)
    ensures React(ms[|ms| - 1], w).fault == Some(InvalidPayload) ==> !NonEmpty(Sessions(ms))
  {
    var m := ms[|ms| - 1];
    Misshaped(m, w);
    ShapedWhenSpoken(ms);
    if React(m, w).fault == Some(InvalidPayload) { EmptyLast(Sessions(ms), before, Data(m)); }
  }

  lemma Misshaped(m: Dst, w: WriteResult)
    requires w.n <= |Data(m)|
    ensures Objects(React(m, w)) ==> !WellShaped(m)
    ensures React(m, w).fault == Some(InvalidPayload) ==> m.status == Session && Data(m) == []
  {
  }

  lemma ShapedWhenSpoken(ms: seq<Dst>)
    ensures ms != [] && ServerLanguage(ms) ==> WellShaped(ms[|ms| - 1])
  {
  }

  lemma EmptyLast(all: seq<Chunk>, before: seq<Chunk>, c: Chunk)
    requires all == before + [c] && c == []
    ensures !NonEmpty(all)
  {
    assert all[|before|] == c;
  }

  lemma NextInv(s: State, s': State)
    requires Inv(s) && Next(s, s')
    ensures Inv(s')
  {
    if Quiet(s, s') { QuietInv(s, s'); }
    else if ok, out :| GreetEnd(s, s', ok, out) { GreetEndInv(s, s', ok, out); }
    else if data, failed :| Pull(s, s', data, failed) { PullInv(s, s', data, failed); }
    else if ok, out :| Push(s, s', ok, out) { PushInv(s, s', ok, out); }
    else if m :| Take(s, s', m) { TakeInv(s, s', m); }
    else if w :| Handle(s, s', w) { HandleInv(s, s', w); }
  }

  lemma InitInv(s: State)
    requires Init(s)
    ensures Inv(s)
  {
  }

  lemma {:induction false} RunInv(tr: seq<State>, i: nat)
    requires Run(tr) && i < |tr|
    ensures Inv(tr[i])
  {
    if i == 0 {
      InitInv(tr[0]);
    } else {
      RunInv(tr, i - 1);
      NextInv(tr[i - 1], tr[i]);
    }
  }

  lemma RunStep(tr: seq<State>, j: nat)
    requires Run(tr) && 0 < j < |tr|
    ensures Places(tr[j - 1].ctl) && Next(tr[j - 1], tr[j])
  {
    RunInv(tr, j - 1);
  }

  // --- The theorems -------------------------------------------------------------------------------

  predicate Returned(c: Control) { c.down.DownReturned? || c.main.Started? || c.main.Closed? }

  /** Once CopyTargetToSRC, or Start, has returned nothing more is ever written to the caller's writer. */
  lemma {:induction false} WriterReleased(tr: seq<State>, i: nat, j: nat)
    requires Run(tr) && i <= j < |tr| && Returned(tr[i].ctl)
    ensures tr[j].log.written == tr[i].log.written && Returned(tr[j].ctl)
    decreases j
  {
    if i < j {
      WriterReleased(tr, i, j - 1);
      WriterIdleAt(tr, j);
    }
  }

  lemma WriterIdleAt(tr: seq<State>, j: nat)
    requires Run(tr) && 0 < j < |tr| && Returned(tr[j - 1].ctl)
    ensures tr[j].log.written == tr[j - 1].log.written && Returned(tr[j].ctl)
  {
    RunStep(tr, j);
    WriterIdle(tr[j - 1], tr[j]);
  }

  lemma WriterIdle(s: State, s': State)
    requires Places(s.ctl) && Next(s, s') && Returned(s.ctl)
    ensures s'.log.written == s.log.written && Returned(s'.ctl)
  {
    assert !s.ctl.rx.RxHave?;
    if Quiet(s, s') { StaysReturned(s.ctl, s'.ctl); }
  }

  lemma StaysReturned(c: Control, c': Control)
    requires Places(c) && Returned(c)
    requires (MainControl(c, c') || DownControl(c, c') || AckControl(c, c') || OtherControl(c, c'))
    ensures Returned(c')
  {
  }

  /** The client is never inside two Sends at once, and what it gets out is one header for its address
      followed by payloads: the chunks read, in order and none empty, all but the one in hand; or but the last, and
      that only if its Read brought an error or nothing, or its Send failed. */
  lemma SendsInOrder(tr: seq<State>, i: nat)
    requires Run(tr) && i < |tr|
    ensures !(tr[i].ctl.greeting.SendingHeader? && tr[i].ctl.pump.SendingChunk?)
    ensures var l, out := tr[i].log, Payloads(tr[i].log.outbox);
            && ClientLanguage(l.outbox) && NonEmpty(out) && out <= l.taken && |l.taken| <= |out| + 1
            && (!Spoiled(l) ==> !tr[i].ctl.pump.PumpStopped? && l.taken == out + InHand(tr[i].ctl))
    ensures tr[i].log.outbox != [] ==> tr[i].log.outbox[0] == SrcHeader(tr[i].addr, TCP)
  {
    RunInv(tr, i);
    InvSends(tr[i]);
  }

  lemma InvSends(s: State)
    requires Inv(s)
    ensures ClientLanguage(s.log.outbox) && Payloads(s.log.outbox) <= s.log.taken
    ensures s.log.outbox != [] ==> s.log.outbox[0] == SrcHeader(s.addr, TCP)
  {
    if s.ctl.pump.PumpOff? && s.log.outbox != [] { PayloadsAppend([], s.log.outbox[0]); }
  }

  /** The bytes written are a prefix of those the Session messages carried, and all of them while the loop waits for
      the next message. */
  lemma BytesReceived(tr: seq<State>, i: nat)
    requires Run(tr) && i < |tr|
    ensures Concat(tr[i].log.written) <= Concat(Sessions(tr[i].log.inbox))
    ensures tr[i].ctl.rx.RxRecv? ==> tr[i].log.written == Sessions(tr[i].log.inbox)
  {
    RunInv(tr, i);
    InvConveyed(tr[i]);
  }

  lemma InvConveyed(s: State)
    requires Inv(s)
    ensures Concat(s.log.written) <= Concat(Sessions(s.log.inbox))
    ensures s.ctl.signals <= Acceptances(s.log.inbox)
  {
    if s.ctl.rx.RxHave? { ConcatPrefix(s.log.written, Sessions(s.log.inbox)); }
  }

  /** No send on either acknowledgement channel comes after its close: not the forwarder's own while a
      message is still being handled, not the caller's while the address is still to be passed on.
      Each is closed at most once, the caller is told at most once and only what the server accepted. */
  lemma SignalsBeforeClose(tr: seq<State>, i: nat)
    requires Run(tr) && i < |tr|
    ensures tr[i].ctl.rx.RxHave? ==> tr[i].ctl.localCloses == 0
    ensures tr[i].ctl.ack.AckGot? ==> !tr[i].ctl.main.Started? && !tr[i].ctl.main.Closed?
    ensures tr[i].ctl.localCloses <= 1 && tr[i].ctl.told <= 1
    ensures tr[i].ctl.told <= tr[i].ctl.signals <= Acceptances(tr[i].log.inbox)
  {
    RunInv(tr, i);
    InvConveyed(tr[i]);
  }

  lemma {:induction false} OneAcceptance(ms: seq<Dst>)
    requires ServerLanguage(ms)
    ensures Acceptances(ms) <= if ServerOpened(ms) then 1 else 0
  {
    if ms != [] {
      LanguagesCut([], [], ms[..|ms| - 1], ms);
      OneAcceptance(ms[..|ms| - 1]);
    }
  }

  predicate ServerOpened(ms: seq<Dst>) { ms != [] && ms[0].status == Accepted }

  /** An invalid message or an unknown status is reported only when the server broke its language, and an empty
      payload only when it sent one. */
  lemma InvalidMeansMalformed(tr: seq<State>, i: nat)
    requires Run(tr) && i < |tr|
    ensures tr[i].log.invalid ==> !ServerLanguage(tr[i].log.inbox)
    ensures tr[i].log.emptied ==> !NonEmpty(Sessions(tr[i].log.inbox))
  {
    RunInv(tr, i);
  }
}
