/** The messages of a tunnel session, the two peers' message languages, and how the server picks
    the dial network from the opening header (internal/transport/rpc/server/forwarder.go). */
module SessionWire {
  import opened Basics

  type Chunk = seq<byte>

  // ProxySRC, client to server: a header, a payload, or neither.
  datatype Network = TCP | UDP
  datatype Src = SrcNone | SrcHeader(addr: string, network: Network) | SrcPayload(data: Chunk)

  // ProxyDST, server to client.
  datatype Status = Session | Error | Accepted | EOF | Unknown
  datatype Body = NoBody | Header(addr: string) | Payload(data: Chunk)
  datatype Dst = Dst(status: Status, body: Body)

  // What ends a copy loop: what the peer's message was found to be, or an error from elsewhere as far as the callers
  // tell such errors apart.
  datatype Fault = InvalidMessage | InvalidPayload | UnknownStatus | EndOfFile | CtxErr | StatusCanceled | Failed

  predicate External(f: Fault) { !f.InvalidMessage? && !f.InvalidPayload? && !f.UnknownStatus? }

  // What one Write reported.
  datatype WriteResult = WriteResult(n: nat, failed: bool)

  const ERROR_MESSAGE := Dst(Error, NoBody)
  const EOF_MESSAGE := Dst(EOF, NoBody)

  // --- What the messages carry ------------------------------------------------------------

  function Concat(chunks: seq<Chunk>): Chunk {
    if chunks == [] then [] else Concat(chunks[..|chunks| - 1]) + chunks[|chunks| - 1]
  }

  function Payloads(ms: seq<Src>): seq<Chunk> {
    if ms == [] then []
    else Payloads(ms[..|ms| - 1]) + Upload(ms[|ms| - 1])
  }

  // GetPayload: absent reads as empty.
  function Data(m: Dst): Chunk { if m.body.Payload? then m.body.data else [] }

  function Sessions(ms: seq<Dst>): seq<Chunk> {
    if ms == [] then []
    else Sessions(ms[..|ms| - 1]) + Download(ms[|ms| - 1])
  }

  // What one message adds to the lists above.
  function Upload(m: Src): seq<Chunk> { if m.SrcPayload? then [m.data] else [] }
  function Download(m: Dst): seq<Chunk> { if m.status == Session then [Data(m)] else [] }

  lemma ConcatAppend(chunks: seq<Chunk>, c: Chunk)
    ensures Concat(chunks + [c]) == Concat(chunks) + c
  {
    assert (chunks + [c])[..|chunks|] == chunks;
  }

  lemma PayloadsAppend(ms: seq<Src>, m: Src)
    ensures Payloads(ms + [m]) == Payloads(ms) + Upload(m)
  {
    assert (ms + [m])[..|ms|] == ms;
  }

  lemma SessionsAppend(ms: seq<Dst>, m: Dst)
    ensures Sessions(ms + [m]) == Sessions(ms) + Download(m)
  {
    assert (ms + [m])[..|ms|] == ms;
  }

  lemma {:induction false} ConcatPrefix(a: seq<Chunk>, b: seq<Chunk>)
    requires a <= b
    ensures Concat(a) <= Concat(b)
    decreases |b|
  {
    if a != b { ConcatPrefix(a, b[..|b| - 1]); } else { assert a == b; }
  }

  lemma {:induction false} PayloadsPrefix(a: seq<Src>, b: seq<Src>)
    requires a <= b
    ensures Payloads(a) <= Payloads(b)
    decreases |b|
  {
    if a != b { PayloadsPrefix(a, b[..|b| - 1]); } else { assert a == b; }
  }

  lemma {:induction false} SessionsPrefix(a: seq<Dst>, b: seq<Dst>)
    requires a <= b
    ensures Sessions(a) <= Sessions(b)
    decreases |b|
  {
    if a != b { SessionsPrefix(a, b[..|b| - 1]); } else { assert a == b; }
  }

  // What has come out, compared with what was put in: whole chunks in order for datagrams, a byte
  // stream otherwise.
  predicate Conveyed(out: seq<Chunk>, put: seq<Chunk>, datagrams: bool) {
    if datagrams then out <= put else Concat(out) <= Concat(put)
  }

  lemma ConveyedPrefix(out: seq<Chunk>, put: seq<Chunk>, datagrams: bool)
    requires out <= put
    ensures Conveyed(out, put, datagrams)
  {
    ConcatPrefix(out, put);
  }

  lemma ConveyedFurther(out: seq<Chunk>, mid: seq<Chunk>, put: seq<Chunk>, datagrams: bool)
    requires Conveyed(out, mid, datagrams) && mid <= put
    ensures Conveyed(out, put, datagrams)
  {
    ConcatPrefix(mid, put);
  }

  // A chunk cut short by a failing write.
  lemma ConveyedPart(out: seq<Chunk>, c: Chunk, part: Chunk)
    requires part <= c
    ensures Conveyed(out + [part], out + [c], false)
  {
    ConcatAppend(out, part);
    ConcatAppend(out, c);
  }

  // --- The languages ----------------------------------------------------------------------

  // Client: one header, then payloads; so far, any part of that.
  predicate ClientLanguage(ms: seq<Src>) {
    forall i :: 0 <= i < |ms| ==> if i == 0 then ms[i].SrcHeader? else ms[i].SrcPayload?
  }

  predicate WellShaped(m: Dst) {
    match m.status
    case Session => m.body.Payload?
    case Accepted => m.body.Header?
    case Error => m.body.NoBody?
    case EOF => m.body.NoBody?
    case Unknown => false
  }

  // Server: nothing, an Error, or Accepted and Sessions; then at most one EOF, the last message.
  predicate ServerLanguage(ms: seq<Dst>) {
    && (forall i :: 0 <= i < |ms| ==> WellShaped(ms[i]))
    && (forall i :: 0 <= i < |ms| && ms[i].status == EOF ==> i == |ms| - 1)
    && (forall i :: 0 <= i < |ms| && (ms[i].status == Error || ms[i].status == Accepted) ==> i == 0)
    && (forall i :: 0 <= i < |ms| && ms[i].status == Session ==> ms[0].status == Accepted)
  }

  predicate EndsInEof(ms: seq<Dst>) { ms != [] && ms[|ms| - 1].status == EOF }

  predicate AllSessions(ms: seq<Dst>) { forall i :: 0 <= i < |ms| ==> ms[i].status == Session && ms[i].body.Payload? }

  // The same language as an expression: (Error | Accepted Session*)? EOF?
  ghost predicate Expression(ms: seq<Dst>) {
    exists opening: seq<Dst>, sessions: seq<Dst>, ending: seq<Dst> ::
      Parts(ms, opening, sessions, ending)
  }

  predicate Opens(opening: seq<Dst>, sessions: seq<Dst>) {
    if opening == [] then sessions == []
    else
      && |opening| == 1
      && (|| (opening[0] == ERROR_MESSAGE && sessions == [])
          || (opening[0].status == Accepted && opening[0].body.Header?))
  }

  predicate Parts(ms: seq<Dst>, opening: seq<Dst>, sessions: seq<Dst>, ending: seq<Dst>) {
    && ms == opening + sessions + ending && Opens(opening, sessions) && AllSessions(sessions)
    && (ending == [] || ending == [EOF_MESSAGE])
  }

  /** The server's language is exactly (Error | Accepted Session*)? EOF? */
  lemma ServerLanguageIff(ms: seq<Dst>)
    ensures ServerLanguage(ms) <==> Expression(ms)
  {
    if ServerLanguage(ms) { SpokenExpression(ms); }
    if Expression(ms) {
      var opening, sessions, ending :| Parts(ms, opening, sessions, ending);
      ExpressionSpoken(ms, opening, sessions, ending);
    }
  }

  lemma SpokenExpression(ms: seq<Dst>)
    requires ServerLanguage(ms)
    ensures Expression(ms)
  {
    var n := if ms != [] && ms[|ms| - 1].status == EOF then |ms| - 1 else |ms|;
    var k := if n == 0 then 0 else 1;
    var opening: seq<Dst>, sessions: seq<Dst>, ending: seq<Dst> := ms[..k], ms[k..n], ms[n..];
    assert ms == opening + sessions + ending;
    forall i | 0 <= i < |sessions| ensures sessions[i].status == Session && sessions[i].body.Payload? {
      assert sessions[i] == ms[k + i] && WellShaped(ms[k + i]);
    }
    if n < |ms| { assert WellShaped(ms[n]) && ending == [ms[n]]; }
    if k == 1 {
      assert WellShaped(ms[0]) && opening[0] == ms[0];
      if sessions != [] { assert ms[1] == sessions[0]; }
    }
    PartsSuffice(ms, opening, sessions, ending);
  }

  lemma PartsSuffice(ms: seq<Dst>, opening: seq<Dst>, sessions: seq<Dst>, ending: seq<Dst>)
    requires Parts(ms, opening, sessions, ending)
    ensures Expression(ms)
  {
  }

  lemma ExpressionSpoken(ms: seq<Dst>, opening: seq<Dst>, sessions: seq<Dst>, ending: seq<Dst>)
    requires Parts(ms, opening, sessions, ending)
    ensures ServerLanguage(ms)
  {
    forall i | 0 <= i < |ms|
      ensures ms[i] == if i < |opening| then opening[i] else if i < |opening| + |sessions| then sessions[i - |opening|]
                       else ending[i - |opening| - |sessions|]
    {
    }
  }

  /** Both languages are closed under cutting the stream. */
  lemma LanguagesCut(a: seq<Src>, b: seq<Src>, c: seq<Dst>, d: seq<Dst>)
    ensures a <= b && ClientLanguage(b) ==> ClientLanguage(a)
    ensures c <= d && ServerLanguage(d) ==> ServerLanguage(c)
  {
    assert c <= d && ServerLanguage(d) ==> forall i :: 0 <= i < |c| ==> c[i] == d[i];
    assert a <= b && ClientLanguage(b) ==> forall i :: 0 <= i < |a| ==> a[i] == b[i];
  }

  // --- The dial network -------------------------------------------------------------------

  // The process-wide dial settings: transport.GetNetwork and transport.PreferIPv4.
  datatype DialSettings = DialSettings(network: string, preferIPv4: bool)

  datatype Target = Target(network: string, addr: string)

  predicate HasPrefix(s: string, prefix: string) { prefix <= s }

  function DialNetwork(network: string, preferIPv4: bool): string {
    if !preferIPv4 then network
    else if network == "tcp" || network == "tcp6" then "tcp4"
    else if network == "udp" || network == "udp6" then "udp4"
    else network
  }

  function ResolveTarget(addr: string, network: Network, settings: DialSettings): Target {
    if HasPrefix(addr, "udp://") then Target(DialNetwork("udp", settings.preferIPv4), addr[6..])
    else if HasPrefix(addr, "tcp://") then Target(DialNetwork("tcp", settings.preferIPv4), addr[6..])
    else if network == UDP then Target(DialNetwork("udp", settings.preferIPv4), addr)
    else Target(DialNetwork(settings.network, settings.preferIPv4), addr)
  }

  predicate IsUdp(network: string) { network == "udp" || network == "udp4" || network == "udp6" }

  // net.SplitHostPort accepts the text, cutting at the colon in position `i`.
  predicate SplitsAt(s: string, i: nat)
    requires i < |s|
  {
    && s[i] == ':' && ':' !in s[i + 1..]
    && if s[0] == '[' then i > 1 && s[i - 1] == ']' && ']' !in s[..i - 1] && ']' !in s[i..] && '[' !in s[1..]
       else ':' !in s[..i] && '[' !in s && ']' !in s
  }

  predicate Splits(s: string) { exists i :: 0 <= i < |s| && SplitsAt(s, i) }

  // The handshake gets as far as a dial.
  predicate Dialable(addr: string, network: Network, settings: DialSettings) {
    Splits(ResolveTarget(addr, network, settings).addr)
  }

  // The server will treat the session as datagrams: a scheme on the address outranks the typed field,
  // and only without either does the configured network count.
  predicate WantsUdp(addr: string, network: Network, settings: DialSettings) {
    HasPrefix(addr, "udp://") || (!HasPrefix(addr, "tcp://") && (network == UDP || IsUdp(settings.network)))
  }

  predicate IsTcp(network: string) { network == "tcp" || network == "tcp4" || network == "tcp6" }

  /** The family and the address a header resolves to: a scheme decides and is taken off; without one the typed field,
      and without that the configured network.  The IPv4-only setting never changes the family and leaves no name that
      could dial IPv6. */
  lemma ResolvedFamily(addr: string, network: Network, settings: DialSettings)
    ensures var t := ResolveTarget(addr, network, settings);
            && (IsUdp(t.network) <==> WantsUdp(addr, network, settings))
            && (settings.preferIPv4 ==> t.network !in {"tcp", "tcp6", "udp", "udp6"})
            && (HasPrefix(addr, "tcp://") && !HasPrefix(addr, "udp://") ==> IsTcp(t.network))
            && (HasPrefix(addr, "udp://") ==> addr == "udp://" + t.addr)
            && (HasPrefix(addr, "tcp://") ==> addr == "tcp://" + t.addr)
            && (!HasPrefix(addr, "udp://") && !HasPrefix(addr, "tcp://") ==>
                  t.addr == addr && (network == TCP && !settings.preferIPv4 ==> t.network == settings.network))
  {
    FamilyKept(settings.network, settings.preferIPv4);
    FamilyKept("udp", settings.preferIPv4);
    FamilyKept("tcp", settings.preferIPv4);
    assert "tcp"[0] == 't' && "udp"[0] == 'u' && "udp4"[0] == 'u' && "udp6"[0] == 'u';
    assert "udp://"[0] == 'u' && "tcp://"[0] == 't';
  }

  lemma FamilyKept(network: string, preferIPv4: bool)
    ensures IsUdp(DialNetwork(network, preferIPv4)) == IsUdp(network)
    ensures IsTcp(DialNetwork(network, preferIPv4)) == IsTcp(network)
    ensures preferIPv4 ==> DialNetwork(network, preferIPv4) !in {"tcp", "tcp6", "udp", "udp6"}
    ensures !preferIPv4 || !(IsUdp(network) || IsTcp(network)) ==> DialNetwork(network, preferIPv4) == network
  {
    assert |"tcp4"| == 4 && |"udp4"| == 4 && |"tcp"| == 3 && |"udp"| == 3 && |"tcp6"| == 4 && |"udp6"| == 4;
    assert "tcp4"[0] == 't' && "tcp"[0] == 't' && "tcp6"[0] == 't';
    assert "udp4"[0] == 'u' && "udp"[0] == 'u' && "udp6"[0] == 'u';
    assert "tcp4"[3] == '4' && "udp4"[3] == '4' && "tcp6"[3] == '6' && "udp6"[3] == '6';
  }
}
