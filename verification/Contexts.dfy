/** The state of a signalling client: handshake phases, peer contexts, errors and actions. */
module Contexts {
  import opened Basics
  import opened CombinedSequence
  import opened Messages
  import opened Boxes
  import opened Tasks

  datatype SignalingState = ServerHandshake | PeerHandshake | TaskPhase

  predicate MayTransition(from: SignalingState, to: SignalingState) {
    (from.ServerHandshake? && to.PeerHandshake?) || (from.PeerHandshake? && to.TaskPhase?)
  }

  datatype ServerState = ServerNew | ClientInfoSent | ServerDone
  datatype InitiatorState = InitiatorNew | IKeySent | IKeyReceived | IAuthSent | IAuthReceived
  datatype ResponderState = ResponderNew | TokenReceived | RKeyReceived | RKeySent | RAuthReceived | RAuthSent

  /** The sequence numbers and cookies between us and one peer. */
  datatype Link = Link(ourCsn: Csn, theirCsn: Option<Csn>, ourCookie: Cookie, theirCookie: Option<Cookie>)

  /** What one peer context draws from the random source: a session key pair, a cookie and a start sequence. */
  datatype Draw = Draw(keypair: KeyPair, cookie: Cookie, start: U32)

  /** The random source: the draw made for the n-th context a client creates. */
  type Tape = nat -> Draw

  function FreshLink(d: Draw): Link {
    Link(Csn(0, d.start), None, d.cookie, None)
  }

  datatype ServerContext = ServerContext(handshake: ServerState, permanentKey: Option<PublicKey>,
                                         sessionKey: Option<PublicKey>, link: Link)

  datatype InitiatorContext = InitiatorContext(handshake: InitiatorState, permanentKey: PublicKey,
                                               sessionKey: Option<PublicKey>, keypair: KeyPair, link: Link)

  datatype ResponderContext = ResponderContext(handshake: ResponderState, counter: nat, address: Address,
                                               permanentKey: Option<PublicKey>, sessionKey: Option<PublicKey>,
                                               keypair: KeyPair, link: Link)

  datatype AuthProvider = ByToken(token: AuthToken) | ByTrustedKey(key: PublicKey)

  datatype ClientIdentity = Unknown | IsInitiator | IsResponder(address: Address)

  /** The source address a client writes into its nonces. */
  function AddressOf(id: ClientIdentity): Address {
    match id
    case Unknown => 0
    case IsInitiator => 1
    case IsResponder(a) => a
  }

  /** State shared by both roles. */
  datatype Common = Common(
    phase: SignalingState,
    permanent: KeyPair,
    auth: Option<AuthProvider>,
    identity: ClientIdentity,
    server: ServerContext,
    tasks: Option<seq<Task>>,
    task: Option<Task>,
    taskTypes: Option<seq<string>>)

  /** The places where the code reports an internal error. */
  datatype CrashSite =
    | InvalidSender | PeerMessageFromServer | IllegalStateServerHandshake | IllegalStateTask
    | TaskTypesNotSet | MissingServerSessionKey | PeerNotSet | PeerSessionKeyNotSet | NotInTaskState
    | NoIdentity | ServerSessionKeyNotSet | ServerCookieUnwrap | NonInitiatorDrop
    | NotFromPeer | ResponderNotFound | NewWithTrustedKey | NewWithoutAuthProvider
    | PermanentKeyNotSet | SessionKeyNotSet | InvalidHandshakeState | PermanentKeyAlreadySet
    | AuthProviderNotToken | SessionKeyAlreadySet | NoTasks | TaskDataNotFound | ResponderCookieNotSet
    | CounterOverflow | CandidateVanished | NoAuthProvider | Unimplemented

  datatype SignalingError =
    | Decode | InvalidNonce | Crypto | CsnOverflow | InvalidStateTransition | InvalidMessage | Protocol
    | PeerUnreachable | NoSharedTaskFound | TaskInitialization | CouldNotDecrypt | Crash(site: CrashSite)

  datatype Event = ServerHandshakeDone(flag: bool) | PeerDisconnected(id: Address)

  datatype TaskMessage =
    | ValueMessage(fields: map<string, Value>)
    | Application(data: Value)
    | CloseMessage(code: CloseCode)

  datatype Action =
    | Reply(box: ByteBox)
    | HandshakeError
    | HandshakeDone
    | Notify(event: Event)
    | TaskAction(message: TaskMessage)

  datatype Outcome = Ok(actions: seq<Action>) | Err(error: SignalingError)

  /** The state a handler leaves behind together with what it returns. */
  datatype Step<+S> = Step(state: S, out: Outcome)

  datatype Result<+T> = Success(value: T) | Failure(error: SignalingError)

  /**
   What can happen to a client: a message arrives, or its task sends a value or a close. The bytes of a value may also
   happen to read as a signalling message; `reading` is what they read as.
   */
  datatype Input =
    | Receive(box: ByteBox, choice: Choice)
    | SendTask(value: Value, reading: Option<Message>)
    | SendClose(code: CloseCode)

  /** What the surroundings decide during one step: hash iteration order and whether the task accepts its data. */
  datatype Choice = Choice(order: IterOrder, initOk: bool)
}

/** The parts of message handling that do not depend on the role. */
module Signaling {
  import opened Basics
  import opened CombinedSequence
  import opened Messages
  import opened Boxes
  import opened Contexts

  // ---------- Nonce validation ----------

  datatype Verdict = Accept | DropMsg | Fail | CrashWith(site: CrashSite)

  /** The first number must have overflow zero; later ones must be strictly greater than the last. */
  function CheckCsn(l: Link, n: Nonce): (Link, bool) {
    match l.theirCsn
    case Some(previous) =>
      if previous.Less(n.csn) then (l.(theirCsn := Some(n.csn)), true) else (l, false)
    case None =>
      if n.csn.overflow == 0 then (l.(theirCsn := Some(n.csn)), true) else (l, false)
  }

  /** The first cookie must differ from ours; later ones must equal the first. */
  function CheckCookie(l: Link, n: Nonce): (Link, bool) {
    match l.theirCookie
    case None =>
      if n.cookie == l.ourCookie then (l, false) else (l.(theirCookie := Some(n.cookie)), true)
    case Some(cookie) => (l, n.cookie == cookie)
  }

  function Admit(l: Link, n: Nonce): (Link, bool) {
    var (l1, ok) := CheckCsn(l, n);
    if ok then CheckCookie(l1, n) else (l1, false)
  }

  // ---------- Sending ----------

  /** Takes the next sequence number and builds the nonce of an outgoing message; `None` on overflow. */
  function NextNonce(l: Link, source: Address, destination: Address): (r: Option<(Nonce, Link)>)
    ensures r.Some? <==> l.ourCsn.Number() + 1 < CSN_LIMIT
    ensures r.Some? ==>
              && r.value.0.cookie == l.ourCookie
              && r.value.0.csn.Number() == l.ourCsn.Number() + 1
              && r.value.0.csn == r.value.1.ourCsn
  {
    match l.ourCsn.Increment()
    case None => None
    case Some(csn) => Some((Nonce(l.ourCookie, source, destination, csn), l.(ourCsn := csn)))
  }

  /** Seals a message for a peer whose session key should be known by now. */
  function SendSession(l: Link, source: Address, destination: Address, ours: KeyPair,
                       session: Option<PublicKey>, plain: Plain): (Link, Result<ByteBox>)
  {
    match NextNonce(l, source, destination)
    case None => (l, Failure(CsnOverflow))
    case Some((nonce, l1)) =>
      if session.None? then (l1, Failure(Crash(PeerSessionKeyNotSet)))
      else (l1, Success(Seal(plain, nonce, ours, session.value)))
  }

  function WithServerLink(c: Common, l: Link): Common {
    c.(server := c.server.(link := l))
  }

  /** Sends a sealed message to the server. */
  function SendToServer(c: Common, m: Message): Step<Common> {
    match NextNonce(c.server.link, AddressOf(c.identity), 0)
    case None => Step(c, Err(CsnOverflow))
    case Some((nonce, link)) =>
      var c1 := WithServerLink(c, link);
      if c.server.sessionKey.None? then Step(c1, Err(Crash(ServerSessionKeyNotSet)))
      else Step(c1, Ok([Reply(Seal(Encode(m), nonce, c.permanent, c.server.sessionKey.value))]))
  }

  function SendDrop(c: Common, id: Address, reason: U16): Step<Common> {
    SendToServer(c, DropResponder(id, Some(reason)))
  }

  /** One drop-responder message per address, in the given order. */
  function DropAll(c: Common, ids: seq<Address>): Step<Common> {
    if ids == [] then Step(c, Ok([]))
    else
      var p := DropAll(c, ids[..|ids| - 1]);
      if p.out.Err? then p
      else
        var q := SendDrop(p.state, ids[|ids| - 1], DROPPED_BY_INITIATOR);
        if q.out.Err? then q else Step(q.state, Ok(p.out.actions + q.out.actions))
  }

  // ---------- Server messages ----------

  /** The very first message from the server is in the clear. */
  function DecodeServer(c: Common, b: ByteBox): Result<Message> {
    if c.phase.ServerHandshake? && c.server.handshake.ServerNew? then
      var m := OpenClear(b);
      if m.Some? then Success(m.value) else Failure(Decode)
    else if c.server.sessionKey.None? then Failure(Crash(MissingServerSessionKey))
    else
      var m := OpenMessage(b, c.permanent, c.server.sessionKey.value);
      if m.Some? then Success(m.value) else Failure(Decode)
  }

  /** Stores the server's session key and answers with client-hello (responders only) and client-auth. */
  function HandleServerHello(c: Common, responder: bool, key: PublicKey): Step<Common> {
    if c.server.sessionKey.Some? then Step(c, Err(Protocol))
    else
      var c1 := c.(server := c.server.(sessionKey := Some(key)));
      var hello := if responder then SendClientHello(c1) else Step(c1, Ok([]));
      if hello.out.Err? then hello
      else if hello.state.server.link.theirCookie.None? then Step(hello.state, Err(Crash(ServerCookieUnwrap)))
      else
        var m := ClientAuth(hello.state.server.link.theirCookie.value, hello.state.server.permanentKey);
        var auth := SendToServer(hello.state, m);
        if auth.out.Err? then auth
        else Step(auth.state.(server := auth.state.server.(handshake := ClientInfoSent)),
                  Ok(hello.out.actions + auth.out.actions))
  }

  function SendClientHello(c: Common): Step<Common> {
    match NextNonce(c.server.link, AddressOf(c.identity), 0)
    case None => Step(c, Err(CsnOverflow))
    case Some((nonce, link)) =>
      Step(WithServerLink(c, link), Ok([Reply(ClearBox(ClientHello(c.permanent.Public()), nonce))]))
  }

  /** The checks on a server-auth message that both roles make. */
  function CheckServerAuth(c: Common, m: Message, nonce: Nonce): Option<SignalingError>
    requires m.ServerAuth?
  {
    if c.identity.Unknown? then Some(Crash(NoIdentity))
    else if m.yourCookie != c.server.link.ourCookie then Some(Protocol)
    else if c.server.permanentKey.Some? then
      if m.signedKeys.None? then Some(Protocol)
      else
        var k := m.signedKeys.value;
        var pair := (k.x == c.permanent.id && k.y == c.server.permanentKey.value.id)
                    || (k.y == c.permanent.id && k.x == c.server.permanentKey.value.id);
        if !pair || k.nonce != nonce then Some(Crypto)
        else if c.server.sessionKey.None? then Some(Crash(ServerSessionKeyNotSet))
        else if k.serverSession != c.server.sessionKey.value then Some(Protocol)
        else if k.clientPermanent != c.permanent.Public() then Some(Protocol)
        else None
    else None
  }

  /** A transition to the same state is ignored, any other must be allowed. */
  function SetPhase(c: Common, to: SignalingState): Result<Common> {
    if c.phase == to then Success(c)
    else if !MayTransition(c.phase, to) then Failure(InvalidStateTransition)
    else Success(c.(phase := to))
  }

  /** The server handshake is complete. */
  function FinishServerHandshake(c: Common, actions: seq<Action>): Step<Common> {
    var c1 := c.(server := c.server.(handshake := ServerDone));
    match SetPhase(c1, PeerHandshake)
    case Failure(e) => Step(c1, Err(e))
    case Success(c2) => Step(c2, Ok(actions))
  }

  // ---------- Task messages ----------

  /** The string-keyed map read from a msgpack map; later pairs win; `None` if some key is not a string. */
  function FieldsOf(pairs: seq<(Value, Value)>): Option<map<string, Value>> {
    if pairs == [] then Some(map[])
    else
      var p := FieldsOf(pairs[..|pairs| - 1]);
      var (k, v) := pairs[|pairs| - 1];
      if p.None? || !k.Str? then None else Some(p.value[k.s := v])
  }

  /** What a decrypted task message makes the client do. */
  function TaskActions(v: Value, types: Option<seq<string>>): Outcome {
    if !v.Map? then Err(InvalidMessage)
    else
      var f := FieldsOf(v.pairs);
      if f.None? then Err(InvalidMessage) else FieldActions(f.value, types)
  }

  function FieldActions(f: map<string, Value>, types: Option<seq<string>>): Outcome {
    if "type" !in f || !f["type"].Str? then Err(InvalidMessage)
    else if f["type"].s == "application" then
      if "data" !in f then Err(InvalidMessage) else Ok([TaskAction(Application(f["data"]))])
    else if f["type"].s == "close" then
      if "reason" !in f || !f["reason"].Int? || !(0 <= f["reason"].n < 0x1_0000) then Err(InvalidMessage)
      else Ok([TaskAction(CloseMessage(CloseCodeFromNumber(f["reason"].n)))])
    else if types.None? then Err(Crash(TaskTypesNotSet))
    else if f["type"].s in types.value then Ok([TaskAction(ValueMessage(f))])
    else Ok([])
  }
}
