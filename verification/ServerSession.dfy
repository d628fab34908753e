/** One proxied stream on the server: internal/transport/rpc/server/forwarder.go under
    Server.Proxy of internal/transport/rpc/server/server.go.  Five goroutines step independently:
    the handshake and its supervisor (up), the receive loop it starts (rx), the read-and-send loop
    (down), its watcher (watch) and Proxy itself (main). */
module ServerSession {
  import opened Basics
  import opened SessionWire

  // CopyClientToTarget; UpExiting has run the deferred close of Ack and not yet told the errgroup.
  datatype Up =
    | RecvHeader | Resolving(header: Src) | Dialing | SendingError(fault: Fault) | Acking | Selecting | UpClosing
    | UpReturning(fault: Fault) | UpExiting(fault: Fault) | UpDone

  datatype Rx = RxOff | RxRecv | RxHave(msg: Src) | RxStopped(fault: Fault)

  // CopyTargetToClient; a read may bring data and an error at once.
  datatype Down =
    | WaitAck | Accepting | SendingAccept | Reading | Holding(data: Chunk, err: Option<Fault>)
    | SendingData(data: Chunk, err: Option<Fault>) | DownFailed(fault: Fault) | DownReturning(fault: Fault)
    | DownExiting(fault: Fault) | DownDone

  datatype Watch = WatchOff | Watching | WatchClosing | WatchGone

  // Proxy: errGroup.Wait, the final send, the deferred Close, the deferred cancel.
  datatype Proxy = Waiting | SendingEof | MainClosing | MainCancelling | Returned

  // sync.Once: a second caller waits for the first to finish.
  datatype Closer = ByUp | ByWatch | ByMain
  datatype Once = Unused | Running(who: Closer) | Spent

  /** Where everyone is.  The token is in Ack from the start of rx until `ackTaken`; `closes` counts
      Conn.Close; `udp` is isUDPNetwork of the resolved network,
      `addrOk` whether the resolved address splits into host and port. */
  datatype Control = Control(ctxDone: bool, fault: Option<Fault>, udp: bool, addrOk: bool, dialled: bool,
                             once: Once, closes: nat, ackTaken: bool,
                             up: Up, rx: Rx, down: Down, watch: Watch, main: Proxy)

  /** What has passed: `trace` lists the messages given to Send in the order the calls began, `outbox`
      those handed to the stream; `inbox` the messages received, `written` what reached the target;
      `given` lists the bytes of every Read from the target, whatever came with them and whatever became of them,
      and `readErr` is the error of the last; `invalid` is set when an invalid message was reported, `refused` when
      the dial was. */
  datatype Log = Log(inbox: seq<Src>, trace: seq<Dst>, outbox: seq<Dst>, given: seq<Chunk>, readErr: Option<Fault>,
                     written: seq<Chunk>, invalid: bool, refused: bool)

  datatype State = State(settings: DialSettings, ctl: Control, log: Log)

  function Initial(settings: DialSettings): State {
    State(settings,
          Control(false, None, false, false, false, Unused, 0, false, RecvHeader, RxOff, WaitAck, WatchOff, Waiting),
          Log([], [], [], [], None, [], false, false))
  }

  ghost predicate Init(s: State) { s == Initial(s.settings) }

  // --- Shared pieces ------------------------------------------------------------------------

  // A datagram goes out whole or not at all; a stream may take any part.
  predicate Writable(data: Chunk, w: WriteResult, udp: bool) {
    w.n <= |data| && (udp ==> w.n == 0 || w.n == |data|)
  }

  // What one message puts on the target connection, and the error that ends the loop.
  datatype Effect = Effect(written: seq<Chunk>, fault: Option<Fault>)

  // copyClientToTarget
  function Forwarded(m: Src, udp: bool, w: WriteResult): Effect
    requires m.SrcPayload? ==> Writable(m.data, w, udp)
  {
    if !m.SrcPayload? then Effect([], Some(InvalidMessage))
    else if |m.data| == 0 then
      if udp then (if w.failed then Effect([], Some(Failed)) else Effect([m.data], None))
      else Effect([], Some(EndOfFile))
    else if w.n < |m.data| then Effect(if w.n == 0 then [] else [m.data[..w.n]], Some(Failed))
    else Effect([m.data], if w.failed then Some(Failed) else None)
  }

  /** copyClientToTarget as it works on its fields: one message, at most one Write. */
  class Forwarder {
    var udp: bool
    var written: seq<Chunk>

    constructor (udp: bool)
      ensures this.udp == udp && written == []
    {
      this.udp, written := udp, [];
    }

    // Conn.Write, which takes w.n bytes.
    method Write(data: Chunk, w: WriteResult)
      requires w.n <= |data|
      modifies this`written
      ensures written == old(written) + if w.n > 0 || (data == [] && !w.failed) then [data[..w.n]] else []
    {
      if w.n > 0 || (|data| == 0 && !w.failed) { written := written + [data[..w.n]]; }
    }

    method CopyClientToTarget(m: Src, w: WriteResult) returns (err: Option<Fault>)
      requires m.SrcPayload? ==> Writable(m.data, w, udp)
      modifies this`written
      ensures written == old(written) + Forwarded(m, udp, w).written && err == Forwarded(m, udp, w).fault
      ensures err.None? ==> written == old(written) + Upload(m)
      ensures Conveyed(written, old(written) + Upload(m), udp)
      ensures err == Some(InvalidMessage) <==> !m.SrcPayload?
      ensures err == Some(EndOfFile) <==> m == SrcPayload([]) && !udp
      ensures err.None? <==> m.SrcPayload? && (m.data == [] ==> udp) && w.n == |m.data| && !w.failed
    {
      ForwardConveys(written, m, udp, w);
      if !m.SrcPayload? { return Some(InvalidMessage); }
      assert w.n == |m.data| ==> m.data[..w.n] == m.data;
      if |m.data| == 0 {
        if udp {
          Write(m.data, w);
          return if w.failed then Some(Failed) else None;
        }
        return Some(EndOfFile);
      }
      Write(m.data, w);
      if w.n < |m.data| { return Some(Failed); }
      return if w.failed then Some(Failed) else None;
    }
  }

  // errgroup: the first error is kept and cancels the group's context.
  function Fail(c: Control, f: Fault): Control {
    c.(fault := if c.fault.None? then Some(f) else c.fault, ctxDone := true)
  }

  function Begin(l: Log, m: Dst): Log { l.(trace := l.trace + [m]) }

  // The end of the Send that began last: its message is out, or lost with the failure.
  function End(l: Log, out: bool): Log {
    if out && l.trace != [] then l.(outbox := l.outbox + [l.trace[|l.trace| - 1]]) else l
  }

  // The channel Ack: closed by CopyClientToTarget on its way out, after at most one token.
  predicate AckWaiting(c: Control) { !c.rx.RxOff? && !c.ackTaken }
  predicate AckDrained(c: Control) { (c.up.UpExiting? || c.up.UpDone?) && (c.rx.RxOff? || c.ackTaken) }

  // Forwarder.Close up to its return, by a goroutine that is inside the call.
  predicate CloseStep(c: Control, c': Control, a: Closer) {
    match c.once
    case Unused => c' == c.(once := Running(a))
    case Running(b) => a == b && c' == c.(once := Spent, closes := c.closes + if c.dialled then 1 else 0)
    case Spent => false
  }

  // --- Steps ----------------------------------------------------------------------------------

  // Steps that neither send, receive, read nor write.
  predicate OpenControl(c: Control, c': Control) {
    match c.up
    case RecvHeader => c'.up.UpReturning? && External(c'.up.fault) && c' == c.(up := c'.up)
    case Dialing =>
      // a malformed address or no route; a connection
      || (c'.up.UpReturning? && External(c'.up.fault) && c' == c.(up := c'.up))
      || (c.addrOk && c' == c.(dialled := true, up := Acking))
    case Acking => c' == c.(rx := RxRecv, up := Selecting)
    case _ => false
  }

  predicate EndControl(c: Control, c': Control) {
    match c.up
    case Selecting =>
      || (c.rx.RxStopped? && c' == c.(up := UpReturning(c.rx.fault)))
      || (c.ctxDone && c' == c.(up := UpClosing))
    case UpReturning(f) => c' == c.(up := UpExiting(f))
    case UpExiting(f) => c' == Fail(c, f).(up := UpDone)
    case _ => false
  }

  predicate ShutControl(c: Control, c': Control) {
    c.up == UpClosing && (CloseStep(c, c', ByUp) || (c.once == Spent && c' == c.(up := UpReturning(CtxErr))))
  }

  predicate AwaitControl(c: Control, c': Control) {
    && c.down == WaitAck
    && (|| (AckWaiting(c) && c' == c.(ackTaken := true, down := Accepting))
        || (AckDrained(c) && c' == c.(down := DownReturning(Failed)))
        || (c.ctxDone && c' == c.(down := DownReturning(CtxErr))))
  }

  predicate DownControl(c: Control, c': Control) {
    match c.down
    // the loop reports the context's error in place of any other once the context is done
    case DownFailed(f) => c' == c.(down := DownReturning(if c.ctxDone then CtxErr else f))
    case DownReturning(f) => c' == c.(down := DownExiting(f))
    case DownExiting(f) => c' == Fail(c, f).(down := DownDone)
    case _ => false
  }

  predicate WatchControl(c: Control, c': Control) {
    match c.watch
    case Watching =>
      || (c.ctxDone && c' == c.(watch := WatchClosing))
      || ((c.down.DownExiting? || c.down.DownDone?) && c' == c.(watch := WatchGone))
    case WatchClosing => CloseStep(c, c', ByWatch) || (c.once == Spent && c' == c.(watch := WatchGone))
    case _ => false
  }

  predicate SkipControl(c: Control, c': Control) {
    && c.main == Waiting && c.up == UpDone && c.down == DownDone && c.fault == Some(StatusCanceled)
    && c' == c.(main := MainClosing)
  }

  predicate MainControl(c: Control, c': Control) {
    match c.main
    case MainClosing => CloseStep(c, c', ByMain) || (c.once == Spent && c' == c.(main := MainCancelling))
    case MainCancelling => c' == c.(ctxDone := true, main := Returned)
    case _ => false
  }

  // A receive that fails; the server shutting down.
  predicate OtherControl(c: Control, c': Control) {
    || (c.rx == RxRecv && c'.rx.RxStopped? && External(c'.rx.fault) && c' == c.(rx := c'.rx))
    || c' == c.(ctxDone := true)
  }

  predicate Quiet(s: State, s': State) {
    && s'.settings == s.settings && s'.log == s.log
    && (|| OpenControl(s.ctl, s'.ctl) || EndControl(s.ctl, s'.ctl) || ShutControl(s.ctl, s'.ctl)
        || AwaitControl(s.ctl, s'.ctl) || DownControl(s.ctl, s'.ctl) || WatchControl(s.ctl, s'.ctl)
        || SkipControl(s.ctl, s'.ctl) || MainControl(s.ctl, s'.ctl) || OtherControl(s.ctl, s'.ctl))
  }

  // handshake: the opening message.
  predicate TakeHeader(s: State, s': State, m: Src) {
    && s.ctl.up == RecvHeader
    && s' == s.(ctl := s.ctl.(up := if m.SrcHeader? then Resolving(m) else UpReturning(InvalidMessage)),
                log := s.log.(inbox := s.log.inbox + [m], invalid := s.log.invalid || !m.SrcHeader?))
  }

  predicate Resolve(s: State, s': State) {
    && s.ctl.up.Resolving? && s.ctl.up.header.SrcHeader?
    && var h := s.ctl.up.header;
       s' == s.(ctl := s.ctl.(udp := IsUdp(ResolveTarget(h.addr, h.network, s.settings).network),
                              addrOk := Dialable(h.addr, h.network, s.settings), up := Dialing))
  }

  // The refused dial: Error is sent, whatever becomes of the send.
  predicate Refuse(s: State, s': State, out: bool, f: Fault) {
    match s.ctl.up
    case Dialing =>
      && s.ctl.addrOk && External(f)
      && s' == s.(ctl := s.ctl.(up := SendingError(f)), log := Begin(s.log.(refused := true), ERROR_MESSAGE))
    case SendingError(g) => s' == s.(ctl := s.ctl.(up := UpReturning(g)), log := End(s.log, out))
    case _ => false
  }

  // The receive loop: one message in, then copyClientToTarget.
  predicate TakePayload(s: State, s': State, m: Src) {
    && s.ctl.rx == RxRecv
    && s' == s.(ctl := s.ctl.(rx := RxHave(m)), log := s.log.(inbox := s.log.inbox + [m]))
  }

  predicate Forward(s: State, s': State, w: WriteResult) {
    && s.ctl.rx.RxHave? && (s.ctl.rx.msg.SrcPayload? ==> Writable(s.ctl.rx.msg.data, w, s.ctl.udp))
    && var e := Forwarded(s.ctl.rx.msg, s.ctl.udp, w);
       s' == s.(ctl := s.ctl.(rx := if e.fault.None? then RxRecv else RxStopped(e.fault.value)),
                log := s.log.(written := s.log.written + e.written,
                              invalid := s.log.invalid || e.fault == Some(InvalidMessage)))
  }

  predicate Accept(s: State, s': State, addr: string, out: bool, f: Option<Fault>) {
    match s.ctl.down
    case Accepting => s' == s.(ctl := s.ctl.(down := SendingAccept), log := Begin(s.log, Dst(Accepted, Header(addr))))
    case SendingAccept =>
      s' == if f.None? then s.(ctl := s.ctl.(watch := Watching, down := Reading), log := End(s.log, true))
            else s.(ctl := s.ctl.(down := DownReturning(f.value)), log := End(s.log, out))
    case _ => false
  }

  function Leave(c: Control, f: Fault): Control { c.(down := DownFailed(f)) }

  // copyTargetToClient: one Read, then Send of what it brought; either may fail.
  predicate Read(s: State, s': State, data: Chunk, err: Option<Fault>) {
    && s.ctl.down == Reading
    && s' == s.(ctl := if |data| > 0 || (err.None? && s.ctl.udp) then s.ctl.(down := Holding(data, err))
                       else if err.Some? then Leave(s.ctl, err.value) else s.ctl,
                log := s.log.(given := s.log.given + [data], readErr := err))
  }

  predicate Relay(s: State, s': State, out: bool, f: Option<Fault>) {
    match s.ctl.down
    case Holding(data, err) =>
      s' == s.(ctl := s.ctl.(down := SendingData(data, err)), log := Begin(s.log, Dst(Session, Payload(data))))
    case SendingData(data, err) =>
      s' == if f.Some? then s.(ctl := Leave(s.ctl, f.value), log := End(s.log, out))
            else s.(ctl := if err.Some? then Leave(s.ctl, err.value) else s.ctl.(down := Reading),
                    log := End(s.log, true))
    case _ => false
  }

  predicate Finish(s: State, s': State, out: bool) {
    match s.ctl.main
    case Waiting =>
      && s.ctl.up == UpDone && s.ctl.down == DownDone && s.ctl.fault != Some(StatusCanceled)
      && s' == s.(ctl := s.ctl.(main := SendingEof), log := Begin(s.log, EOF_MESSAGE))
    case SendingEof => s' == s.(ctl := s.ctl.(main := MainClosing), log := End(s.log, out))
    case _ => false
  }

  ghost predicate Next(s: State, s': State) {
    || Quiet(s, s') || Resolve(s, s')
    || (exists m :: TakeHeader(s, s', m)) || (exists out, f :: Refuse(s, s', out, f))
    || (exists m :: TakePayload(s, s', m)) || (exists w :: Forward(s, s', w))
    || (exists addr, out, f :: Accept(s, s', addr, out, f)) || (exists data, err :: Read(s, s', data, err))
    || (exists out, f :: Relay(s, s', out, f)) || (exists out :: Finish(s, s', out))
  }

  ghost predicate Run(tr: seq<State>) {
    && |tr| > 0 && Init(tr[0])
    && forall i, j {:trigger Next(tr[i], tr[j])} :: 0 <= i && i + 1 == j < |tr| ==> Next(tr[i], tr[j])
  }

  // --- Invariant: who may be where -----------------------------------------------------------

  predicate Opening(up: Up) { up.RecvHeader? || up.Resolving? || up.Dialing? || up.SendingError? || up.Acking? }

  predicate Ended(down: Down) { down.DownFailed? || down.DownReturning? || down.DownExiting? || down.DownDone? }

  predicate Closing(m: Proxy) { m.MainClosing? || m.MainCancelling? || m.Returned? }

  predicate Places(c: Control) {
    && (!c.rx.RxOff? ==> c.dialled && !Opening(c.up))
    && (c.up.RecvHeader? || c.up.Resolving? || c.up.Dialing? || c.up.SendingError? ==> !c.dialled)
    && (c.up.Acking? ==> c.dialled) && (c.dialled ==> c.addrOk)
    && (c.up.Selecting? || c.up.UpClosing? ==> !c.rx.RxOff?)
    && (c.ackTaken ==> !c.rx.RxOff?)
    && (!c.down.WaitAck? && !Ended(c.down) ==> c.ackTaken)
    && (c.down.WaitAck? ==> !c.ackTaken)
    && (!c.watch.WatchOff? ==> c.ackTaken && !c.down.Accepting? && !c.down.SendingAccept?)
    && (!c.main.Waiting? ==> c.up.UpDone? && c.down.DownDone?)
    && (c.up.UpDone? || c.down.DownDone? ==> c.fault.Some? && c.ctxDone)
  }

  predicate OnceOk(c: Control) {
    && (!c.once.Unused? ==> c.dialled || Closing(c.main))
    && (c.once.Running? ==>
          match c.once.who
          case ByUp => c.up.UpClosing?
          case ByWatch => c.watch.WatchClosing?
          case ByMain => c.main.MainClosing?)
    && c.closes == (if c.once.Spent? && c.dialled then 1 else 0)
    && (c.main.MainCancelling? || c.main.Returned? ==> c.once.Spent?)
  }

  lemma OpenPlaces(c: Control, c': Control)
    requires Places(c) && OnceOk(c) && OpenControl(c, c')
    ensures Places(c') && OnceOk(c')
  {
  }

  lemma EndPlaces(c: Control, c': Control)
    requires Places(c) && OnceOk(c) && EndControl(c, c')
    ensures Places(c') && OnceOk(c')
  {
  }

  lemma ShutPlaces(c: Control, c': Control)
    requires Places(c) && OnceOk(c) && ShutControl(c, c')
    ensures Places(c') && OnceOk(c')
  {
  }

  lemma AwaitPlaces(c: Control, c': Control)
    requires Places(c) && OnceOk(c) && AwaitControl(c, c')
    ensures Places(c') && OnceOk(c')
  {
  }

  lemma DownPlaces(c: Control, c': Control)
    requires Places(c) && OnceOk(c) && DownControl(c, c')
    ensures Places(c') && OnceOk(c')
  {
  }

  lemma WatchPlaces(c: Control, c': Control)
    requires Places(c) && OnceOk(c) && WatchControl(c, c')
    ensures Places(c') && OnceOk(c')
  {
  }

  lemma SkipPlaces(c: Control, c': Control)
    requires Places(c) && OnceOk(c) && SkipControl(c, c')
    ensures Places(c') && OnceOk(c')
  {
  }

  lemma MainPlaces(c: Control, c': Control)
    requires Places(c) && OnceOk(c) && MainControl(c, c')
    ensures Places(c') && OnceOk(c')
  {
  }

  lemma OtherPlaces(c: Control, c': Control)
    requires Places(c) && OnceOk(c) && OtherControl(c, c')
    ensures Places(c') && OnceOk(c')
  {
  }

  // The other steps move a goroutine from one place to the next.
  lemma LoudPlaces(s: State, s': State, m: Src, out: bool, f: Fault, w: WriteResult)
    requires Places(s.ctl) && OnceOk(s.ctl)
    requires TakeHeader(s, s', m) || Refuse(s, s', out, f) || TakePayload(s, s', m) || Forward(s, s', w)
    ensures Places(s'.ctl) && OnceOk(s'.ctl)
  {
  }

  lemma AcceptPlaces(s: State, s': State, addr: string, out: bool, f: Option<Fault>)
    requires Places(s.ctl) && OnceOk(s.ctl) && Accept(s, s', addr, out, f)
    ensures Places(s'.ctl) && OnceOk(s'.ctl)
  {
  }

  lemma ReadPlaces(s: State, s': State, data: Chunk, err: Option<Fault>)
    requires Places(s.ctl) && OnceOk(s.ctl) && Read(s, s', data, err)
    ensures Places(s'.ctl) && OnceOk(s'.ctl)
  {
  }

  lemma RelayPlaces(s: State, s': State, out: bool, f: Option<Fault>)
    requires Places(s.ctl) && OnceOk(s.ctl) && Relay(s, s', out, f)
    ensures Places(s'.ctl) && OnceOk(s'.ctl)
  {
  }

  lemma FinishPlaces(s: State, s': State, out: bool)
    requires Places(s.ctl) && OnceOk(s.ctl) && Finish(s, s', out)
    ensures Places(s'.ctl) && OnceOk(s'.ctl)
  {
  }

  // --- Invariant: what is sent ------------------------------------------------------------------

  predicate StartsWith(ms: seq<Dst>, status: Status) { ms != [] && ms[0].status == status }

  // How many goroutines are inside Send.
  function SendsInProgress(c: Control): nat {
    (if c.up.SendingError? then 1 else 0) + (if c.main.SendingEof? then 1 else 0)
    + (if c.down.SendingAccept? || c.down.SendingData? then 1 else 0)
  }

  // Everything sent is out but for the last message, or the last before the end of session.
  predicate Emitted(out: seq<Dst>, sent: seq<Dst>) {
    || out <= sent
    || (EndsInEof(out) && EndsInEof(sent) && |out| <= |sent| && WellShaped(out[|out| - 1])
        && forall i :: 0 <= i < |out| - 1 ==> out[i] == sent[i])
  }

  lemma EmittedLanguage(out: seq<Dst>, sent: seq<Dst>)
    requires Emitted(out, sent) && ServerLanguage(sent)
    ensures ServerLanguage(out) && Sessions(out) <= Sessions(sent)
  {
    if out <= sent {
      LanguagesCut([], [], out, sent);
      SessionsPrefix(out, sent);
    } else {
      var o, t := out[..|out| - 1], sent[..|sent| - 1];
      assert o <= t;
      SessionsPrefix(o, t);
    }
  }

  predicate Sent(c: Control, l: Log) {
    && ServerLanguage(l.trace) && Emitted(l.outbox, l.trace) && (l.refused <==> StartsWith(l.trace, Error))
    && (EndsInEof(l.trace) <==> !c.main.Waiting? && c.fault != Some(StatusCanceled))
    && (StartsWith(l.trace, Error) ==>
          c.rx.RxOff? && !c.up.RecvHeader? && !c.up.Resolving? && !c.up.Dialing? && !c.up.Acking?)
    && (StartsWith(l.trace, Accepted) ==> c.ackTaken && !c.down.Accepting?)
    && (c.up.SendingError? ==> |l.trace| == 1 && l.outbox == [])
    && (c.down.SendingAccept? ==> |l.trace| == 1 && StartsWith(l.trace, Accepted) && l.outbox == [])
    && (c.down.Reading? || c.down.Holding? ==> l.outbox == l.trace && StartsWith(l.trace, Accepted))
    && (c.down.SendingData? ==>
          StartsWith(l.outbox, Accepted) && l.trace == l.outbox + [Dst(Session, Payload(c.down.data))])
    && (c.main.SendingEof? ==> EndsInEof(l.trace) && |l.outbox| < |l.trace|)
    && (c.main.Waiting? || c.main.SendingEof? ==> l.outbox <= l.trace)
  }

  // Before the opening message nothing at all has been sent.
  lemma Unopened(c: Control, l: Log)
    requires Places(c) && Sent(c, l) && c.main.Waiting?
    requires c.up.Dialing? || c.down.Accepting?
    ensures l.trace == [] && l.outbox == []
  {
    FirstMessage(l.trace);
  }

  lemma FirstMessage(t: seq<Dst>)
    ensures ServerLanguage(t) && t != [] ==> StartsWith(t, Error) || StartsWith(t, Accepted) || EndsInEof(t)
  {
    assert ServerLanguage(t) ==> forall i :: 0 <= i < |t| ==> WellShaped(t[i]);
  }

  lemma OpenSent(c: Control, c': Control, l: Log)
    requires Places(c) && Sent(c, l) && OpenControl(c, c')
    ensures Sent(c', l)
  {
  }

  lemma EndSent(c: Control, c': Control, l: Log)
    requires Places(c) && Sent(c, l) && EndControl(c, c')
    ensures Sent(c', l)
  {
  }

  lemma ShutSent(c: Control, c': Control, l: Log)
    requires Places(c) && Sent(c, l) && ShutControl(c, c')
    ensures Sent(c', l)
  {
  }

  lemma AwaitSent(c: Control, c': Control, l: Log)
    requires Places(c) && Sent(c, l) && AwaitControl(c, c')
    ensures Sent(c', l)
  {
  }

  lemma DownSent(c: Control, c': Control, l: Log)
    requires Places(c) && Sent(c, l) && DownControl(c, c')
    ensures Sent(c', l)
  {
  }

  lemma WatchSent(c: Control, c': Control, l: Log)
    requires Places(c) && Sent(c, l) && WatchControl(c, c')
    ensures Sent(c', l)
  {
  }

  lemma SkipSent(c: Control, c': Control, l: Log)
    requires Places(c) && Sent(c, l) && SkipControl(c, c')
    ensures Sent(c', l)
  {
  }

  lemma MainSent(c: Control, c': Control, l: Log)
    requires Places(c) && Sent(c, l) && MainControl(c, c')
    ensures Sent(c', l)
  {
  }

  lemma OtherSent(c: Control, c': Control, l: Log)
    requires Places(c) && Sent(c, l) && OtherControl(c, c')
    ensures Sent(c', l)
  {
  }

  lemma RefuseSent(s: State, s': State, out: bool, f: Fault)
    requires Places(s.ctl) && Sent(s.ctl, s.log) && Refuse(s, s', out, f)
    ensures Sent(s'.ctl, s'.log)
  {
    if s.ctl.up.Dialing? { Unopened(s.ctl, s.log); }
  }

  lemma AcceptSent(s: State, s': State, addr: string, out: bool, f: Option<Fault>)
    requires Places(s.ctl) && Sent(s.ctl, s.log) && Accept(s, s', addr, out, f)
    ensures Sent(s'.ctl, s'.log)
  {
    if s.ctl.down.Accepting? { Unopened(s.ctl, s.log); }
  }

  lemma RelaySent(s: State, s': State, out: bool, f: Option<Fault>)
    requires Places(s.ctl) && Sent(s.ctl, s.log) && Relay(s, s', out, f)
    ensures Sent(s'.ctl, s'.log)
  {
  }

  lemma EofBeginSent(c: Control, l: Log)
    requires Places(c) && Sent(c, l) && c.main.Waiting? && c.up == UpDone && c.down == DownDone
    requires c.fault != Some(StatusCanceled)
    ensures Sent(c.(main := SendingEof), Begin(l, EOF_MESSAGE))
  {
    EofLast(l.trace);
  }

  lemma EofEndSent(c: Control, l: Log, out: bool)
    requires Places(c) && Sent(c, l) && c.main.SendingEof?
    ensures Sent(c.(main := MainClosing), End(l, out))
  {
    assert WellShaped(l.trace[|l.trace| - 1]);
    assert forall i :: 0 <= i < |l.outbox| ==> l.outbox[i] == l.trace[i];
  }

  lemma FinishSent(s: State, s': State, out: bool)
    requires Places(s.ctl) && Sent(s.ctl, s.log) && Finish(s, s', out)
    ensures Sent(s'.ctl, s'.log)
  {
    if s.ctl.main.Waiting? { EofBeginSent(s.ctl, s.log); } else { EofEndSent(s.ctl, s.log, out); }
  }

  lemma EofLast(t: seq<Dst>)
    requires ServerLanguage(t) && !EndsInEof(t)
    ensures ServerLanguage(t + [EOF_MESSAGE])
  {
  }

  // --- Invariant: what is carried to the target -------------------------------------------------

  predicate Opened(up: Up) { up.Resolving? || up.Dialing? || up.SendingError? || up.Acking? }

  predicate Upward(c: Control, l: Log) {
    && (c.up.RecvHeader? ==> l.inbox == [])
    && (Opened(c.up) || c.dialled ==> l.inbox != [] && l.inbox[0].SrcHeader?)
    && (c.up.Resolving? ==> c.up.header == l.inbox[0])
    && (Opened(c.up) ==> |l.inbox| == 1)
    && (l.invalid ==> !ClientLanguage(l.inbox))
    && match c.rx
       case RxOff => l.written == []
       case RxRecv => l.written == Payloads(l.inbox)
       case RxHave(m) => |l.inbox| > 1 && l.inbox[|l.inbox| - 1] == m && Payloads(l.inbox) == l.written + Upload(m)
       case RxStopped(_) => Conveyed(l.written, Payloads(l.inbox), c.udp)
  }

  lemma TakeHeaderUpward(s: State, s': State, m: Src)
    requires Places(s.ctl) && Upward(s.ctl, s.log) && TakeHeader(s, s', m)
    ensures Upward(s'.ctl, s'.log)
  {
    assert s'.log.inbox[0] == m;
  }

  lemma TakePayloadUpward(s: State, s': State, m: Src)
    requires Places(s.ctl) && Upward(s.ctl, s.log) && TakePayload(s, s', m)
    ensures Upward(s'.ctl, s'.log)
  {
    PayloadsAppend(s.log.inbox, m);
    LanguagesCut(s.log.inbox, s'.log.inbox, [], []);
  }

  lemma ForwardUpward(s: State, s': State, w: WriteResult)
    requires Places(s.ctl) && Upward(s.ctl, s.log) && Forward(s, s', w)
    ensures Upward(s'.ctl, s'.log)
  {
    ForwardConveys(s.log.written, s.ctl.rx.msg, s.ctl.udp, w);
  }

  // What one message adds to the target is what it carried, or a part of it and the last.
  lemma ForwardConveys(sent: seq<Chunk>, m: Src, udp: bool, w: WriteResult)
    requires m.SrcPayload? ==> Writable(m.data, w, udp)
    ensures var e, all := Forwarded(m, udp, w), sent + Upload(m);
            (e.fault.None? ==> sent + e.written == all) && Conveyed(sent + e.written, all, udp)
  {
    var e, all := Forwarded(m, udp, w), sent + Upload(m);
    if sent + e.written <= all {
      ConveyedPrefix(sent + e.written, all, udp);
    } else {
      ConveyedPart(sent, m.data, m.data[..w.n]);
    }
  }

  lemma OpenUpward(c: Control, c': Control, l: Log)
    requires Places(c) && Upward(c, l) && OpenControl(c, c')
    ensures Upward(c', l)
  {
    if c.up.Acking? { PayloadsAppend([], l.inbox[0]); }
  }

  // On its way out the supervisor touches nothing that is carried.
  lemma EndUpward(c: Control, c': Control, l: Log)
    requires Places(c) && Upward(c, l) && (EndControl(c, c') || ShutControl(c, c'))
    ensures Upward(c', l)
  {
    if EndControl(c, c') { EndFrame(c, c'); } else { ShutFrame(c, c'); }
    UpwardKept(c, c', l, l);
  }

  lemma EndFrame(c: Control, c': Control)
    requires EndControl(c, c')
    ensures c'.rx == c.rx && c'.dialled == c.dialled && c'.udp == c.udp && !Opened(c'.up) && !c'.up.RecvHeader?
    ensures c'.down == c.down && c'.addrOk == c.addrOk
  {
  }

  lemma ShutFrame(c: Control, c': Control)
    requires ShutControl(c, c')
    ensures c'.rx == c.rx && c'.dialled == c.dialled && c'.udp == c.udp && !Opened(c'.up) && !c'.up.RecvHeader?
    ensures c'.down == c.down && c'.addrOk == c.addrOk
  {
  }

  lemma OtherUpward(c: Control, c': Control, l: Log)
    requires Places(c) && Upward(c, l) && OtherControl(c, c')
    ensures Upward(c', l)
  {
    ConveyedPrefix(l.written, l.written, c.udp);
  }

  // --- Invariant: what is carried back ------------------------------------------------------------

  // The chunk read and not yet given to Send.
  function InHand(c: Control): seq<Chunk> { if c.down.Holding? then [c.down.data] else [] }

  /** `passed` is what the Reads gave, nothing less: of a byte stream all bytes, cut into chunks that are not empty; of
      a datagram target the very datagrams, empty ones too, where a last Read that brought only an error is none. */
  predicate AllOf(passed: seq<Chunk>, given: seq<Chunk>, readErr: Option<Fault>, udp: bool) {
    && Concat(passed) == Concat(given)
    && if udp then given == if readErr.Some? && EndsEmpty(given) then passed + [[]] else passed
       else forall i :: 0 <= i < |passed| ==> |passed[i]| > 0
  }

  predicate EndsEmpty(chunks: seq<Chunk>) { chunks != [] && chunks[|chunks| - 1] == [] }

  predicate Downward(c: Control, l: Log) {
    && AllOf(Sessions(l.trace) + InHand(c), l.given, l.readErr, c.udp)
    && (c.down.WaitAck? || c.down.Accepting? || c.down.SendingAccept? || c.down.Reading? ==> l.readErr.None?)
    && (c.down.Holding? || c.down.SendingData? ==> l.readErr == c.down.err)
    && (l.given == [] ==> Sessions(l.trace) + InHand(c) == []) && (l.given != [] ==> c.dialled)
  }

  lemma ReadDownward(s: State, s': State, data: Chunk, err: Option<Fault>)
    requires Places(s.ctl) && Downward(s.ctl, s.log) && Read(s, s', data, err)
    ensures Downward(s'.ctl, s'.log)
  {
    var sent := Sessions(s.log.trace);
    assert sent + [] == sent;
    var kept := |data| > 0 || (err.None? && s.ctl.udp);
    AllOfGrows(sent, s.log.given, data, err, s.ctl.udp, kept);
    assert InHand(s'.ctl) == if kept then [data] else [];
    assert sent + InHand(s'.ctl) == if kept then sent + [data] else sent;
  }

  lemma AllOfGrows(sent: seq<Chunk>, given: seq<Chunk>, data: Chunk, err: Option<Fault>, udp: bool, kept: bool)
    requires AllOf(sent, given, None, udp) && (kept <==> |data| > 0 || (err.None? && udp))
    ensures AllOf(if kept then sent + [data] else sent, given + [data], err, udp)
  {
    ConcatAppend(given, data);
    ConcatAppend(sent, data);
    assert (given + [data])[|given|] == data;
  }

  // A Send begins: of the chunk in hand, or of something that is no Session message.
  lemma BeginDownward(c: Control, c': Control, l: Log, m: Dst)
    requires Downward(c, l) && c'.udp == c.udp && c'.dialled == c.dialled && !c'.down.Holding?
    requires c'.down == c.down || c'.down.SendingAccept? || c'.down.SendingData?
    requires c'.down.SendingAccept? ==> c.down.Accepting? || c.down.SendingAccept?
    requires if c.down.Holding? then m == Dst(Session, Payload(c.down.data)) else m.status != Session
    requires c'.down.SendingData? ==> c.down.Holding? && c'.down.err == c.down.err
    ensures Downward(c', Begin(l, m))
  {
    SessionsAppend(l.trace, m);
    assert Sessions(l.trace + [m]) + [] == Sessions(l.trace) + InHand(c);
  }

  lemma OtherDownward(c: Control, c': Control, l: Log, m: Dst)
    requires Downward(c, l) && m.status != Session && c'.udp == c.udp && c'.dialled == c.dialled && c'.down == c.down
    ensures Downward(c', Begin(l, m))
  {
    SessionsAppend(l.trace, m);
    assert Sessions(l.trace) + [] == Sessions(l.trace);
  }

  lemma DownwardKept(c: Control, c': Control, l: Log, l': Log)
    requires Downward(c, l) && c'.udp == c.udp && (c.dialled ==> c'.dialled) && l'.trace == l.trace
    requires l'.given == l.given && l'.readErr == l.readErr
    requires c'.down == c.down || (!c.down.Holding? && !c'.down.Holding? && !c'.down.SendingData?)
    requires c'.down == c.down || Ended(c'.down) || l.readErr.None?
    ensures Downward(c', l')
  {
  }

  // --- Invariant: the family of the target ----------------------------------------------------------

  predicate Datagrams(settings: DialSettings, m: Src) {
    m.SrcHeader? && IsUdp(ResolveTarget(m.addr, m.network, settings).network)
  }

  predicate Reachable(settings: DialSettings, m: Src) {
    m.SrcHeader? && Dialable(m.addr, m.network, settings)
  }

  predicate Family(s: State) {
    s.ctl.up.Dialing? || s.ctl.dialled ==>
      && s.log.inbox != [] && s.ctl.udp == Datagrams(s.settings, s.log.inbox[0])
      && (s.ctl.addrOk ==> Reachable(s.settings, s.log.inbox[0]))
  }

  lemma ResolveFamily(s: State, s': State)
    requires Upward(s.ctl, s.log) && Resolve(s, s')
    ensures Family(s')
  {
  }

  lemma FamilyKept(s: State, s': State)
    requires Family(s) && s'.settings == s.settings && s'.ctl.udp == s.ctl.udp && s'.ctl.addrOk == s.ctl.addrOk
    requires s.log.inbox <= s'.log.inbox
    requires s'.ctl.up.Dialing? || s'.ctl.dialled ==> s.ctl.up.Dialing? || s.ctl.dialled
    ensures Family(s')
  {
  }

  // --- The whole invariant ----------------------------------------------------------------------------

  predicate Inv(s: State) {
    Places(s.ctl) && OnceOk(s.ctl) && Sent(s.ctl, s.log) && Upward(s.ctl, s.log) && Downward(s.ctl, s.log) && Family(s)
  }

  // Behind an Error nothing has been carried to a target.
  lemma ErrorCarriesNothing(c: Control, l: Log)
    requires Sent(c, l) && Upward(c, l) && StartsWith(l.outbox, Error)
    ensures l.written == []
  {
    assert StartsWith(l.trace, Error);
  }

  lemma UpwardKept(c: Control, c': Control, l: Log, l': Log)
    requires Upward(c, l) && c'.rx == c.rx && c'.dialled == c.dialled && c'.udp == c.udp
    requires c'.up == c.up || (!Opened(c'.up) && !c'.up.RecvHeader?)
    requires l'.inbox == l.inbox && l'.written == l.written && l'.invalid == l.invalid
    ensures Upward(c', l')
  {
  }

  // The goroutines that carry, and the connection they carry for, stay as they are.
  predicate Carries(c: Control, c': Control) {
    && c'.rx == c.rx && c'.up == c.up && c'.down == c.down
    && c'.dialled == c.dialled && c'.udp == c.udp && c'.addrOk == c.addrOk
  }

  lemma WatchCarries(c: Control, c': Control)
    requires WatchControl(c, c')
    ensures Carries(c, c')
  {
  }

  lemma SkipCarries(c: Control, c': Control)
    requires SkipControl(c, c')
    ensures Carries(c, c')
  {
  }

  lemma MainCarries(c: Control, c': Control)
    requires MainControl(c, c')
    ensures Carries(c, c')
  {
  }

  lemma CarriesInv(s: State, s': State)
    requires Upward(s.ctl, s.log) && Downward(s.ctl, s.log) && Family(s)
    requires s'.settings == s.settings && s'.log == s.log && Carries(s.ctl, s'.ctl)
    ensures Upward(s'.ctl, s'.log) && Downward(s'.ctl, s'.log) && Family(s')
  {
    UpwardKept(s.ctl, s'.ctl, s.log, s.log);
    DownwardKept(s.ctl, s'.ctl, s.log, s'.log);
    FamilyKept(s, s');
  }

  lemma OpenInv(s: State, s': State)
    requires Inv(s) && s'.settings == s.settings && s'.log == s.log && OpenControl(s.ctl, s'.ctl)
    ensures Inv(s')
  {
    OpenPlaces(s.ctl, s'.ctl);
    OpenSent(s.ctl, s'.ctl, s.log);
    OpenUpward(s.ctl, s'.ctl, s.log);
    DownwardKept(s.ctl, s'.ctl, s.log, s'.log);
    FamilyKept(s, s');
  }

  lemma EndInv(s: State, s': State)
    requires Inv(s) && s'.settings == s.settings && s'.log == s.log && EndControl(s.ctl, s'.ctl)
    ensures Inv(s')
  {
    EndPlaces(s.ctl, s'.ctl);
    EndSent(s.ctl, s'.ctl, s.log);
    EndUpward(s.ctl, s'.ctl, s.log);
    EndFrame(s.ctl, s'.ctl);
    DownwardKept(s.ctl, s'.ctl, s.log, s'.log);
    FamilyKept(s, s');
  }

  lemma ShutInv(s: State, s': State)
    requires Inv(s) && s'.settings == s.settings && s'.log == s.log && ShutControl(s.ctl, s'.ctl)
    ensures Inv(s')
  {
    ShutPlaces(s.ctl, s'.ctl);
    ShutSent(s.ctl, s'.ctl, s.log);
    EndUpward(s.ctl, s'.ctl, s.log);
    ShutRest(s, s');
  }

  lemma ShutRest(s: State, s': State)
    requires Downward(s.ctl, s.log) && Family(s)
    requires s'.settings == s.settings && s'.log == s.log && ShutControl(s.ctl, s'.ctl)
    ensures Downward(s'.ctl, s'.log) && Family(s')
  {
    ShutFrame(s.ctl, s'.ctl);
    DownwardKept(s.ctl, s'.ctl, s.log, s'.log);
    FamilyKept(s, s');
  }

  lemma AwaitInv(s: State, s': State)
    requires Inv(s) && s'.settings == s.settings && s'.log == s.log && AwaitControl(s.ctl, s'.ctl)
    ensures Inv(s')
  {
    AwaitPlaces(s.ctl, s'.ctl);
    AwaitSent(s.ctl, s'.ctl, s.log);
    UpwardKept(s.ctl, s'.ctl, s.log, s.log);
    DownwardKept(s.ctl, s'.ctl, s.log, s'.log);
    FamilyKept(s, s');
  }

  lemma DownInv(s: State, s': State)
    requires Inv(s) && s'.settings == s.settings && s'.log == s.log && DownControl(s.ctl, s'.ctl)
    ensures Inv(s')
  {
    DownPlaces(s.ctl, s'.ctl);
    DownSent(s.ctl, s'.ctl, s.log);
    UpwardKept(s.ctl, s'.ctl, s.log, s.log);
    DownwardKept(s.ctl, s'.ctl, s.log, s'.log);
    FamilyKept(s, s');
  }

  lemma WatchInv(s: State, s': State)
    requires Inv(s) && s'.settings == s.settings && s'.log == s.log && WatchControl(s.ctl, s'.ctl)
    ensures Inv(s')
  {
    WatchPlaces(s.ctl, s'.ctl);
    WatchSent(s.ctl, s'.ctl, s.log);
    WatchCarries(s.ctl, s'.ctl);
    CarriesInv(s, s');
  }

  lemma SkipInv(s: State, s': State)
    requires Inv(s) && s'.settings == s.settings && s'.log == s.log && SkipControl(s.ctl, s'.ctl)
    ensures Inv(s')
  {
    SkipPlaces(s.ctl, s'.ctl);
    SkipSent(s.ctl, s'.ctl, s.log);
    SkipCarries(s.ctl, s'.ctl);
    CarriesInv(s, s');
  }

  lemma MainInv(s: State, s': State)
    requires Inv(s) && s'.settings == s.settings && s'.log == s.log && MainControl(s.ctl, s'.ctl)
    ensures Inv(s')
  {
    MainPlaces(s.ctl, s'.ctl);
    MainSent(s.ctl, s'.ctl, s.log);
    MainCarries(s.ctl, s'.ctl);
    CarriesInv(s, s');
  }

  lemma OtherInv(s: State, s': State)
    requires Inv(s) && s'.settings == s.settings && s'.log == s.log && OtherControl(s.ctl, s'.ctl)
    ensures Inv(s')
  {
    OtherPlaces(s.ctl, s'.ctl);
    OtherSent(s.ctl, s'.ctl, s.log);
    OtherUpward(s.ctl, s'.ctl, s.log);
    DownwardKept(s.ctl, s'.ctl, s.log, s'.log);
    FamilyKept(s, s');
  }

  lemma QuietInv(s: State, s': State)
    requires Inv(s) && Quiet(s, s')
    ensures Inv(s')
  {
    if OpenControl(s.ctl, s'.ctl) { OpenInv(s, s'); }
    else if EndControl(s.ctl, s'.ctl) { EndInv(s, s'); }
    else if ShutControl(s.ctl, s'.ctl) { ShutInv(s, s'); }
    else if WatchControl(s.ctl, s'.ctl) { WatchInv(s, s'); }
    else if SkipControl(s.ctl, s'.ctl) { SkipInv(s, s'); }
    else if MainControl(s.ctl, s'.ctl) { MainInv(s, s'); }
    else if AwaitControl(s.ctl, s'.ctl) { AwaitInv(s, s'); }
    else if DownControl(s.ctl, s'.ctl) { DownInv(s, s'); }
    else { OtherInv(s, s'); }
  }

  lemma TakeInv(s: State, s': State, m: Src, w: WriteResult)
    requires Inv(s) && (TakeHeader(s, s', m) || TakePayload(s, s', m) || Forward(s, s', w))
    ensures Inv(s')
  {
    LoudPlaces(s, s', m, true, Failed, w);
    if TakeHeader(s, s', m) { TakeHeaderUpward(s, s', m); }
    else if TakePayload(s, s', m) { TakePayloadUpward(s, s', m); }
    else { ForwardUpward(s, s', w); }
    FamilyKept(s, s');
  }

  lemma ResolveInv(s: State, s': State)
    requires Inv(s) && Resolve(s, s')
    ensures Inv(s')
  {
    ResolveFamily(s, s');
  }

  lemma AcceptInv(s: State, s': State, addr: string, out: bool, f: Option<Fault>)
    requires Inv(s) && Accept(s, s', addr, out, f)
    ensures Inv(s')
  {
    AcceptPlaces(s, s', addr, out, f);
    AcceptSent(s, s', addr, out, f);
    UpwardKept(s.ctl, s'.ctl, s.log, s'.log);
    if s.ctl.down.Accepting? { BeginDownward(s.ctl, s'.ctl, s.log, Dst(Accepted, Header(addr))); }
    else { DownwardKept(s.ctl, s'.ctl, s.log, s'.log); }
    FamilyKept(s, s');
  }

  lemma ReadInv(s: State, s': State, data: Chunk, err: Option<Fault>)
    requires Inv(s) && Read(s, s', data, err)
    ensures Inv(s')
  {
    ReadPlaces(s, s', data, err);
    ReadDownward(s, s', data, err);
    UpwardKept(s.ctl, s'.ctl, s.log, s'.log);
    FamilyKept(s, s');
  }

  lemma RelayDownward(s: State, s': State, out: bool, f: Option<Fault>)
    requires Downward(s.ctl, s.log) && Relay(s, s', out, f)
    ensures Downward(s'.ctl, s'.log)
  {
    if s.ctl.down.Holding? { BeginDownward(s.ctl, s'.ctl, s.log, Dst(Session, Payload(s.ctl.down.data))); }
    else { DownwardKept(s.ctl, s'.ctl, s.log, s'.log); }
  }

  lemma RelayUpward(s: State, s': State, out: bool, f: Option<Fault>)
    requires Upward(s.ctl, s.log) && Family(s) && Relay(s, s', out, f)
    ensures Upward(s'.ctl, s'.log) && Family(s')
  {
    RelayFrame(s, s', out, f);
    UpwardKept(s.ctl, s'.ctl, s.log, s'.log);
    FamilyKept(s, s');
  }

  lemma RelayFrame(s: State, s': State, out: bool, f: Option<Fault>)
    requires Relay(s, s', out, f)
    ensures s'.settings == s.settings && s'.ctl.rx == s.ctl.rx && s'.ctl.up == s.ctl.up && s'.ctl.udp == s.ctl.udp
    ensures s'.ctl.dialled == s.ctl.dialled && s'.ctl.addrOk == s.ctl.addrOk
    ensures s'.log.inbox == s.log.inbox && s'.log.written == s.log.written && s'.log.invalid == s.log.invalid
  {
  }

  lemma RelayInv(s: State, s': State, out: bool, f: Option<Fault>)
    requires Inv(s) && Relay(s, s', out, f)
    ensures Inv(s')
  {
    RelayPlaces(s, s', out, f);
    RelaySent(s, s', out, f);
    RelayDownward(s, s', out, f);
    RelayUpward(s, s', out, f);
  }

  lemma FinishDownward(s: State, s': State, out: bool)
    requires Places(s.ctl) && Downward(s.ctl, s.log) && Finish(s, s', out)
    ensures Downward(s'.ctl, s'.log)
  {
    if s.ctl.main.Waiting? { BeginDownward(s.ctl, s'.ctl, s.log, EOF_MESSAGE); }
    else { DownwardKept(s.ctl, s'.ctl, s.log, s'.log); }
  }

  lemma FinishBeginInv(s: State, s': State, out: bool)
    requires Inv(s) && Finish(s, s', out) && s.ctl.main.Waiting?
    ensures Inv(s')
  {
    FinishPlaces(s, s', out);
    FinishSent(s, s', out);
    UpwardKept(s.ctl, s'.ctl, s.log, s'.log);
    FinishDownward(s, s', out);
    FamilyKept(s, s');
  }

  lemma FinishEndInv(s: State, s': State, out: bool)
    requires Inv(s) && Finish(s, s', out) && !s.ctl.main.Waiting?
    ensures Inv(s')
  {
    FinishPlaces(s, s', out);
    FinishSent(s, s', out);
    UpwardKept(s.ctl, s'.ctl, s.log, s'.log);
    FinishDownward(s, s', out);
    FamilyKept(s, s');
  }

  lemma FinishInv(s: State, s': State, out: bool)
    requires Inv(s) && Finish(s, s', out)
    ensures Inv(s')
  {
    if s.ctl.main.Waiting? { FinishBeginInv(s, s', out); } else { FinishEndInv(s, s', out); }
  }

  lemma RefuseDownward(s: State, s': State, out: bool, f: Fault)
    requires Downward(s.ctl, s.log) && Refuse(s, s', out, f)
    ensures Downward(s'.ctl, s'.log)
  {
    if s.ctl.up.Dialing? { OtherDownward(s.ctl, s'.ctl, s.log, ERROR_MESSAGE); }
    else { DownwardKept(s.ctl, s'.ctl, s.log, s'.log); }
  }

  lemma RefuseUpward(s: State, s': State, out: bool, f: Fault)
    requires Upward(s.ctl, s.log) && Family(s) && Refuse(s, s', out, f)
    ensures Upward(s'.ctl, s'.log) && Family(s')
  {
    FamilyKept(s, s');
  }

  lemma RefuseInv(s: State, s': State, out: bool, f: Fault)
    requires Inv(s) && Refuse(s, s', out, f)
    ensures Inv(s')
  {
    LoudPlaces(s, s', SrcNone, out, f, WriteResult(0, false));
    RefuseSent(s, s', out, f);
    RefuseDownward(s, s', out, f);
    RefuseUpward(s, s', out, f);
  }

  lemma NextInv(s: State, s': State)
    requires Inv(s) && Next(s, s')
    ensures Inv(s')
  {
    if Quiet(s, s') { QuietInv(s, s'); }
    else if Resolve(s, s') { ResolveInv(s, s'); }
    else if m :| TakeHeader(s, s', m) { TakeInv(s, s', m, WriteResult(0, false)); }
    else if out, f :| Refuse(s, s', out, f) { RefuseInv(s, s', out, f); }
    else if m :| TakePayload(s, s', m) { TakeInv(s, s', m, WriteResult(0, false)); }
    else if w :| Forward(s, s', w) { TakeInv(s, s', SrcNone, w); }
    else if addr, out, f :| Accept(s, s', addr, out, f) { AcceptInv(s, s', addr, out, f); }
    else if data, err :| Read(s, s', data, err) { ReadInv(s, s', data, err); }
    else if out, f :| Relay(s, s', out, f) { RelayInv(s, s', out, f); }
    else if out :| Finish(s, s', out) { FinishInv(s, s', out); }
  }

  lemma InitInv(s: State)
    requires Init(s)
    ensures Inv(s)
  {
  }

  lemma {:induction false} RunInv(tr: seq<State>, i: nat)
    requires Run(tr) && i < |tr|
    ensures Inv(tr[i])
  {
    if i == 0 {
      InitInv(tr[0]);
    } else {
      RunInv(tr, i - 1);
      NextInv(tr[i - 1], tr[i]);
    }
  }

  // --- The theorems ---------------------------------------------------------------------------------

  /** The server is never inside two Sends on the stream at once. */
  lemma SendsNeverOverlap(tr: seq<State>, i: nat)
    requires Run(tr) && i < |tr|
    ensures SendsInProgress(tr[i].ctl) <= 1
  {
    RunInv(tr, i);
  }

  /** What the server sends, and what of it gets out, is (Error | Accepted Session*)? EOF?, whatever is
      cancelled or fails when. */
  lemma TraceLanguage(tr: seq<State>, i: nat)
    requires Run(tr) && i < |tr|
    ensures Expression(tr[i].log.trace) && Expression(tr[i].log.outbox)
  {
    RunInv(tr, i);
    EmittedLanguage(tr[i].log.outbox, tr[i].log.trace);
    ServerLanguageIff(tr[i].log.trace);
    ServerLanguageIff(tr[i].log.outbox);
  }

  /** Accepted and Error never both occur. */
  lemma AcceptedOrError(tr: seq<State>, i: nat, j: nat, k: nat)
    requires Run(tr) && i < |tr| && j < |tr[i].log.trace| && k < |tr[i].log.trace|
    ensures !(tr[i].log.trace[j].status == Accepted && tr[i].log.trace[k].status == Error)
  {
    RunInv(tr, i);
  }

  /** A refused dial, and nothing else, makes the server send Error. */
  lemma RefusalTold(tr: seq<State>, i: nat)
    requires Run(tr) && i < |tr|
    ensures tr[i].log.refused <==> exists k :: 0 <= k < |tr[i].log.trace| && tr[i].log.trace[k].status == Error
  {
    RunInv(tr, i);
    var t := tr[i].log.trace;
    if tr[i].log.refused { assert t[0].status == Error; }
  }

  /** When Proxy returns, the end of session was sent unless the stream was cancelled by the peer. */
  lemma EndOfSession(tr: seq<State>, i: nat)
    requires Run(tr) && i < |tr| && tr[i].ctl.main == Returned
    ensures EndsInEof(tr[i].log.trace) <==> tr[i].ctl.fault != Some(StatusCanceled)
  {
    RunInv(tr, i);
  }

  // One step changes no fault that is set, and no download ends after a cancellation but with the context's error.
  predicate Holds(c: Control, c': Control) {
    && (c.fault.Some? ==> c'.fault == c.fault) && (c.ctxDone ==> c'.ctxDone)
    && (c.ctxDone && Downloading(c) ==> Downloading(c') || c'.down == DownReturning(CtxErr))
    && (c.down == DownReturning(CtxErr) || c.down == DownExiting(CtxErr) || c.down == DownDone ==>
          c'.down == c.down || c'.down == DownExiting(CtxErr) || c'.down == DownDone)
  }

  predicate Downloading(c: Control) {
    c.down.Reading? || c.down.Holding? || c.down.SendingData? || c.down.DownFailed?
  }

  predicate ReturnsCancelled(c: Control) {
    c.down == DownReturning(CtxErr) || c.down == DownExiting(CtxErr) || c.down == DownDone
  }

  lemma QuietHolds(s: State, s': State)
    requires Quiet(s, s')
    ensures Holds(s.ctl, s'.ctl)
  {
    if AwaitControl(s.ctl, s'.ctl) {
      AwaitHolds(s.ctl, s'.ctl);
    } else if DownControl(s.ctl, s'.ctl) {
      DownHolds(s.ctl, s'.ctl);
    } else if EndControl(s.ctl, s'.ctl) {
      EndHolds(s.ctl, s'.ctl);
    } else {
      QuietStays(s.ctl, s'.ctl);
      StaysHolds(s.ctl, s'.ctl);
    }
  }

  lemma AwaitHolds(c: Control, c': Control)
    requires AwaitControl(c, c')
    ensures Holds(c, c')
  {
  }

  lemma DownHolds(c: Control, c': Control)
    requires DownControl(c, c')
    ensures Holds(c, c')
  {
  }

  lemma EndHolds(c: Control, c': Control)
    requires EndControl(c, c')
    ensures Holds(c, c')
  {
  }

  lemma QuietStays(c: Control, c': Control)
    requires || OpenControl(c, c') || ShutControl(c, c') || WatchControl(c, c') || SkipControl(c, c')
             || MainControl(c, c') || OtherControl(c, c')
    ensures Stays(c, c')
  {
    if ShutControl(c, c') {
      ShutStays(c, c');
    } else if WatchControl(c, c') {
      WatchStays(c, c');
    } else if MainControl(c, c') {
      MainStays(c, c');
    } else {
      OpenStays(c, c');
    }
  }

  lemma OpenStays(c: Control, c': Control)
    requires OpenControl(c, c') || SkipControl(c, c') || OtherControl(c, c')
    ensures Stays(c, c')
  {
  }

  predicate Stays(c: Control, c': Control) { c'.down == c.down && c'.fault == c.fault && (c.ctxDone ==> c'.ctxDone) }

  lemma StaysHolds(c: Control, c': Control)
    requires Stays(c, c')
    ensures Holds(c, c')
  {
  }

  lemma ShutStays(c: Control, c': Control)
    requires ShutControl(c, c')
    ensures Stays(c, c')
  {
  }

  lemma WatchStays(c: Control, c': Control)
    requires WatchControl(c, c')
    ensures Stays(c, c')
  {
  }

  lemma MainStays(c: Control, c': Control)
    requires MainControl(c, c')
    ensures Stays(c, c')
  {
  }

  lemma DataHolds(s: State, s': State)
    requires (exists data, err :: Read(s, s', data, err)) || (exists out, f :: Relay(s, s', out, f))
    ensures Holds(s.ctl, s'.ctl)
  {
    if data, err :| Read(s, s', data, err) {
      ReadHolds(s, s', data, err);
    } else if out, f :| Relay(s, s', out, f) {
      RelayHolds(s, s', out, f);
    }
  }

  lemma ReadHolds(s: State, s': State, data: Chunk, err: Option<Fault>)
    requires Read(s, s', data, err)
    ensures Holds(s.ctl, s'.ctl)
  {
  }

  lemma RelayHolds(s: State, s': State, out: bool, f: Option<Fault>)
    requires Relay(s, s', out, f)
    ensures Holds(s.ctl, s'.ctl)
  {
  }

  lemma AcceptHolds(s: State, s': State, addr: string, out: bool, f: Option<Fault>)
    requires Accept(s, s', addr, out, f)
    ensures Holds(s.ctl, s'.ctl)
  {
  }

  ghost predicate UpStep(s: State, s': State) {
    Resolve(s, s') || (exists m :: TakeHeader(s, s', m)) || (exists out, f :: Refuse(s, s', out, f))
  }

  lemma UpStays(s: State, s': State)
    requires UpStep(s, s')
    ensures Stays(s.ctl, s'.ctl)
  {
  }

  ghost predicate EdgeStep(s: State, s': State) {
    (exists m :: TakePayload(s, s', m)) || (exists w :: Forward(s, s', w)) || (exists out :: Finish(s, s', out))
  }

  lemma EdgeStays(s: State, s': State)
    requires EdgeStep(s, s')
    ensures Stays(s.ctl, s'.ctl)
  {
  }

  lemma NextHolds(s: State, s': State)
    requires Next(s, s')
    ensures Holds(s.ctl, s'.ctl)
  {
    if Quiet(s, s') {
      QuietHolds(s, s');
    } else if addr, out, f :| Accept(s, s', addr, out, f) {
      AcceptHolds(s, s', addr, out, f);
    } else if UpStep(s, s') {
      UpStays(s, s');
      StaysHolds(s.ctl, s'.ctl);
    } else if EdgeStep(s, s') {
      EdgeStays(s, s');
      StaysHolds(s.ctl, s'.ctl);
    } else {
      DataHolds(s, s');
    }
  }

  lemma StepHolds(tr: seq<State>, j: nat)
    requires Run(tr) && 0 < j < |tr|
    ensures Holds(tr[j - 1].ctl, tr[j].ctl)
  {
    NextHolds(tr[j - 1], tr[j]);
  }

  /** The error the group keeps is the first. */
  lemma {:induction false} FirstFaultKept(tr: seq<State>, i: nat, j: nat)
    requires Run(tr) && i <= j < |tr| && tr[i].ctl.fault.Some?
    ensures tr[j].ctl.fault == tr[i].ctl.fault
    decreases j
  {
    if i < j {
      FirstFaultKept(tr, i, j - 1);
      StepHolds(tr, j);
    }
  }

  /** A download under way when the context is done ends with the context's error, whatever Read or Send reported. */
  lemma {:induction false} CancelledDownload(tr: seq<State>, i: nat, j: nat)
    requires Run(tr) && i <= j < |tr| && tr[i].ctl.ctxDone && Downloading(tr[i].ctl)
    ensures tr[j].ctl.ctxDone && (Downloading(tr[j].ctl) || ReturnsCancelled(tr[j].ctl))
    decreases j
  {
    if i < j {
      CancelledDownload(tr, i, j - 1);
      StepHolds(tr, j);
    }
  }

  /** The target connection is closed at most once, and exactly once by the time Proxy returns if it
      was ever made; the once-guard is not spent before there is a connection to close. */
  lemma ConnectionClosedOnce(tr: seq<State>, i: nat)
    requires Run(tr) && i < |tr|
    ensures tr[i].ctl.closes <= 1
    ensures tr[i].ctl.main == Returned ==> tr[i].ctl.closes == if tr[i].ctl.dialled then 1 else 0
    ensures !tr[i].ctl.once.Unused? && !tr[i].ctl.dialled ==> tr[i].ctl.up == UpDone && Closing(tr[i].ctl.main)
  {
    RunInv(tr, i);
  }

  /** What reaches the target is a prefix of what the client's messages carried: of the datagrams
      one by one, or of the byte stream; and all of it while the loop waits for the next message. */
  lemma CarriedToTarget(tr: seq<State>, i: nat)
    requires Run(tr) && i < |tr|
    ensures Conveyed(tr[i].log.written, Payloads(tr[i].log.inbox), tr[i].ctl.udp)
    ensures tr[i].ctl.rx.RxRecv? ==> tr[i].log.written == Payloads(tr[i].log.inbox)
  {
    RunInv(tr, i);
    InvConveyed(tr[i]);
  }

  lemma InvConveyed(s: State)
    requires Inv(s)
    ensures Conveyed(s.log.written, Payloads(s.log.inbox), s.ctl.udp)
    ensures ServerLanguage(s.log.outbox) && Conveyed(Sessions(s.log.outbox), s.log.given, s.ctl.udp)
    ensures Concat(Sessions(s.log.outbox)) <= Concat(s.log.given)
    ensures !s.ctl.udp ==> forall k :: 0 <= k < |Sessions(s.log.outbox)| ==> |Sessions(s.log.outbox)[k]| > 0
  {
    var l := s.log;
    EmittedLanguage(l.outbox, l.trace);
    if l.written <= Payloads(l.inbox) { ConveyedPrefix(l.written, Payloads(l.inbox), s.ctl.udp); }
    PassedOn(Sessions(l.outbox), Sessions(l.trace), InHand(s.ctl), l, s.ctl.udp);
  }

  lemma PassedOn(out: seq<Chunk>, sent: seq<Chunk>, hand: seq<Chunk>, l: Log, udp: bool)
    requires AllOf(sent + hand, l.given, l.readErr, udp) && out <= sent
    ensures Conveyed(out, l.given, udp) && Concat(out) <= Concat(l.given)
    ensures !udp ==> forall k :: 0 <= k < |out| ==> |out[k]| > 0
  {
    assert out <= sent + hand;
    ConcatPrefix(out, sent + hand);
    assert forall k :: 0 <= k < |out| ==> out[k] == (sent + hand)[k];
  }

  /** Everything read from the target is given to Send, but for the chunk in hand: of a byte stream all bytes the
      connection gave, an error beside them or not, of datagrams each one as it was; and a Read that brought an error
      is the last.  Of that a prefix gets out to the client. */
  lemma CarriedBack(tr: seq<State>, i: nat)
    requires Run(tr) && i < |tr|
    ensures var c, l := tr[i].ctl, tr[i].log;
            && AllOf(Sessions(l.trace) + InHand(c), l.given, l.readErr, c.udp)
            && (l.readErr.Some? ==> !c.down.Reading?)
            && Conveyed(Sessions(l.outbox), l.given, c.udp)
  {
    RunInv(tr, i);
    InvConveyed(tr[i]);
  }

  /** The server reports an invalid message only to a client that did not speak its language. */
  lemma InvalidMeansMalformed(tr: seq<State>, i: nat)
    requires Run(tr) && i < |tr| && tr[i].log.invalid
    ensures !ClientLanguage(tr[i].log.inbox)
  {
    RunInv(tr, i);
  }
}
