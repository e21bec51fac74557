/** The responder's side of the signalling protocol, as functions from state to state. */
module ResponderProtocol {
  import opened Basics
  import opened Messages
  import opened Boxes
  import opened Tasks
  import opened Negotiation
  import opened Contexts
  import opened Signaling

  /** `draws` counts the initiator contexts created so far, that is, the draws taken from the tape. */
  datatype Responder = Responder(common: Common, initiator: InitiatorContext, draws: nat)

  function NewContext(key: PublicKey, d: Draw): InitiatorContext {
    InitiatorContext(InitiatorNew, key, None, d.keypair, FreshLink(d))
  }

  function Create(permanent: KeyPair, initiatorKey: PublicKey, token: Option<AuthToken>, serverKey: Option<PublicKey>,
                  tasks: seq<Task>, d: Draw, tape: Tape): Responder
  {
    var auth := if token.Some? then ByToken(token.value) else ByTrustedKey(initiatorKey);
    Responder(
      Common(ServerHandshake, permanent, Some(auth), Unknown,
             ServerContext(ServerNew, serverKey, None, FreshLink(d)), Some(tasks), None, None),
      NewContext(initiatorKey, tape(0)), 1)
  }

  // ---------- Peer lookup and nonce validation ----------

  function PeerLink(s: Responder, addr: Address): Option<Link> {
    if addr == 0 then Some(s.common.server.link)
    else if addr == 1 then Some(s.initiator.link)
    else None
  }

  function WithPeerLink(s: Responder, addr: Address, l: Link): Responder
    requires PeerLink(s, addr).Some?
  {
    if addr == 0 then s.(common := WithServerLink(s.common, l))
    else s.(initiator := s.initiator.(link := l))
  }

  function ValidateDestination(s: Responder, n: Nonce): (Responder, Verdict) {
    var assign := s.common.identity.Unknown? && n.destination != 0 && !s.common.server.handshake.ServerNew?;
    if assign && n.destination < 2 then (s, Fail)
    else
      var s1 := if assign then s.(common := s.common.(identity := IsResponder(n.destination))) else s;
      (s1, if n.destination == AddressOf(s1.common.identity) then Accept else Fail)
  }

  function ValidateSource(s: Responder, n: Nonce): Verdict {
    if n.source == 0 then Accept
    else if n.source == 1 && s.common.identity.IsResponder? then Accept
    else DropMsg
  }

  function ValidatePeer(s: Responder, n: Nonce): (Responder, Verdict) {
    match PeerLink(s, n.source)
    case None => (s, CrashWith(InvalidSender))
    case Some(l) =>
      var (l1, ok) := Admit(l, n);
      (WithPeerLink(s, n.source, l1), if ok then Accept else Fail)
  }

  function ValidateNonce(s: Responder, n: Nonce): (Responder, Verdict) {
    var (s1, v) := ValidateDestination(s, n);
    if !v.Accept? then (s1, v)
    else if !ValidateSource(s1, n).Accept? then (s1, ValidateSource(s1, n))
    else ValidatePeer(s1, n)
  }

  // ---------- Dispatch ----------

  function HandleMessage(s: Responder, b: ByteBox, tape: Tape, choice: Choice): Step<Responder> {
    var (s1, v) := ValidateNonce(s, b.nonce);
    match v
    case DropMsg => Step(s1, Ok([]))
    case Fail => Step(s1, Err(InvalidNonce))
    case CrashWith(site) => Step(s1, Err(Crash(site)))
    case Accept => HandleValid(s1, b, tape, choice)
  }

  function HandleValid(s: Responder, b: ByteBox, tape: Tape, choice: Choice): Step<Responder> {
    if b.nonce.source == 0 then
      match DecodeServer(s.common, b)
      case Failure(e) => Step(s, Err(e))
      case Success(m) => HandleServerMessage(s, m, b.nonce, tape)
    else if s.common.phase.TaskPhase? then HandleTaskPeer(s, b)
    else HandleHandshakePeer(s, b, choice)
  }

  function HandleTaskPeer(s: Responder, b: ByteBox): Step<Responder> {
    if b.nonce.source == 0 then Step(s, Err(Crash(PeerMessageFromServer)))
    else if s.initiator.sessionKey.None? then Step(s, Err(Crash(PeerSessionKeyNotSet)))
    else
      var v := OpenValue(b, s.initiator.keypair, s.initiator.sessionKey.value);
      Step(s, if v.None? then Err(Decode) else TaskActions(v.value, s.common.taskTypes))
  }

  function HandleHandshakePeer(s: Responder, b: ByteBox, choice: Choice): Step<Responder> {
    if b.nonce.source == 0 then Step(s, Err(Crash(PeerMessageFromServer)))
    else
      match DecodePeer(s, b)
      case Failure(CouldNotDecrypt) => Step(s, Err(Crash(NonInitiatorDrop)))
      case Failure(e) => Step(s, Err(e))
      case Success(m) =>
        match s.common.phase
        case ServerHandshake => Step(s, Err(Crash(IllegalStateServerHandshake)))
        case TaskPhase => Step(s, Err(Crash(IllegalStateTask)))
        case PeerHandshake => HandlePeerMessage(s, m, b.nonce, choice)
  }

  function DecodePeer(s: Responder, b: ByteBox): Result<Message> {
    if b.nonce.source != 1 then Failure(Crash(NotFromPeer))
    else
      match s.initiator.handshake
      case IKeySent =>
        var m := OpenMessage(b, s.common.permanent, s.initiator.permanentKey);
        if m.Some? then Success(m.value) else Failure(Decode)
      case IAuthSent =>
        if s.initiator.sessionKey.None? then Failure(Crash(SessionKeyNotSet))
        else
          var m := OpenMessage(b, s.initiator.keypair, s.initiator.sessionKey.value);
          if m.Some? then Success(m.value) else Failure(Decode)
      case _ => Failure(Crash(InvalidHandshakeState))
  }

  function HandlePeerMessage(s: Responder, m: Message, nonce: Nonce, choice: Choice): Step<Responder> {
    if s.initiator.handshake.IKeySent? && m.Key? then HandleKey(s, m.key, nonce)
    else if s.initiator.handshake.IAuthSent? && m.AuthMsg? then HandleAuth(s, m.auth, choice)
    else if s.initiator.handshake.IAuthSent? && m.Close? then
      Step(s, if CloseCodeFromNumber(m.reason).NoSharedTask? then Err(NoSharedTaskFound) else Err(Protocol))
    else Step(s, Err(InvalidStateTransition))
  }

  function HandleServerMessage(s: Responder, m: Message, nonce: Nonce, tape: Tape): Step<Responder> {
    match (s.common.server.handshake, m)
    case (ServerNew, ServerHello(key)) =>
      var h := HandleServerHello(s.common, true, key);
      Step(s.(common := h.state), h.out)
    case (ClientInfoSent, ServerAuth(_, _, _, _)) => HandleServerAuth(s, m, nonce)
    case (ServerDone, NewInitiator) => HandleNewInitiator(s, tape)
    case (ServerDone, NewResponder(_)) => Step(s, Err(Protocol))
    case (ServerDone, DropResponder(_, _)) => Step(s, Err(Crash(Unimplemented)))
    case (ServerDone, SendError(_, _, _)) => Step(s, Err(PeerUnreachable))
    case (ServerDone, Disconnected(id)) =>
      Step(s, if id == 1 then Ok([Notify(PeerDisconnected(id))]) else Err(Protocol))
    case (_, _) => Step(s, Err(InvalidStateTransition))
  }

  // ---------- Server handshake ----------

  function HandleServerAuth(s: Responder, m: Message, nonce: Nonce): Step<Responder>
    requires m.ServerAuth?
  {
    var e := CheckServerAuth(s.common, m, nonce);
    if e.Some? then Step(s, Err(e.value))
    else if m.responders.Some? || m.initiatorConnected.None? then Step(s, Err(InvalidMessage))
    else
      var r := if m.initiatorConnected.value then StartPeerHandshake(s) else Step(s, Ok([]));
      if r.out.Err? then r
      else
        var f := FinishServerHandshake(r.state.common,
                                       r.out.actions + [Notify(ServerHandshakeDone(m.initiatorConnected.value))]);
        Step(r.state.(common := f.state), f.out)
  }

  /** Everything cached about the previous initiator is forgotten before the handshake starts over. */
  function HandleNewInitiator(s: Responder, tape: Tape): Step<Responder> {
    StartPeerHandshake(s.(initiator := NewContext(s.initiator.permanentKey, tape(s.draws)), draws := s.draws + 1))
  }

  /** Sends the token (once, if there is one) and our session key. */
  function StartPeerHandshake(s: Responder): Step<Responder> {
    if s.common.auth.None? then Step(s, Err(Crash(NoAuthProvider)))
    else
      var t := if s.common.auth.value.ByToken? then
                 SendToken(s.(common := s.common.(auth := None)), s.common.auth.value.token)
               else Step(s, Ok([]));
      if t.out.Err? then t
      else
        var k := SendKey(t.state);
        if k.out.Err? then k
        else Step(k.state.(initiator := k.state.initiator.(handshake := IKeySent)), Ok(t.out.actions + k.out.actions))
  }

  function SendToken(s: Responder, token: AuthToken): Step<Responder> {
    match NextNonce(s.initiator.link, AddressOf(s.common.identity), 1)
    case None => Step(s, Err(CsnOverflow))
    case Some((nonce, link)) =>
      Step(s.(initiator := s.initiator.(link := link)),
           Ok([Reply(SealWithToken(Token(s.common.permanent.Public()), nonce, token))]))
  }

  function SendKey(s: Responder): Step<Responder> {
    match NextNonce(s.initiator.link, AddressOf(s.common.identity), 1)
    case None => Step(s, Err(CsnOverflow))
    case Some((nonce, link)) =>
      Step(s.(initiator := s.initiator.(link := link)),
           Ok([Reply(Seal(Encode(Key(s.initiator.keypair.Public())), nonce, s.common.permanent,
                          s.initiator.permanentKey))]))
  }

  // ---------- Peer handshake ----------

  function HandleKey(s: Responder, key: PublicKey, nonce: Nonce): Step<Responder> {
    if s.initiator.sessionKey.Some? then Step(s, Err(Crash(SessionKeyAlreadySet)))
    else if key == s.initiator.permanentKey then Step(s, Err(Protocol))
    else
      var i := s.initiator.(sessionKey := Some(key), handshake := IKeyReceived);
      var s1 := s.(initiator := i);
      if s.common.tasks.None? then Step(s1, Err(Crash(NoTasks)))
      else
        var auth := ResponderAuth(nonce.cookie, s.common.tasks.value);
        if auth.None? then Step(s1, Err(InvalidMessage))
        else
          var (link, box) := SendSession(i.link, AddressOf(s.common.identity), 1, i.keypair, i.sessionKey,
                                         Encode(AuthMsg(auth.value)));
          if box.Failure? then Step(s.(initiator := i.(link := link)), Err(box.error))
          else Step(s.(initiator := i.(link := link, handshake := IAuthSent)), Ok([Reply(box.value)]))
  }

  function HandleAuth(s: Responder, auth: Auth, choice: Choice): Step<Responder> {
    if auth.yourCookie != s.initiator.link.ourCookie then Step(s, Err(Protocol))
    else if auth.tasks.Some? || auth.task.None? then Step(s, Err(InvalidMessage))
    else if s.common.tasks.None? then Step(s, Err(Crash(NoTasks)))
    else
      var s1 := s.(common := s.common.(tasks := None));
      if !ChoicePasses(auth, s.common.tasks.value) then Step(s1, Err(Protocol))
      else if !choice.initOk then Step(s1, Err(TaskInitialization))
      else
        var t := FindTask(s.common.tasks.value, auth.task.value).value;
        var c := s1.common.(taskTypes := Some(t.types), task := Some(t));
        var i := s.initiator.(handshake := IAuthReceived);
        match SetPhase(c, TaskPhase)
        case Failure(e) => Step(s1.(common := c, initiator := i), Err(e))
        case Success(c1) => Step(s1.(common := c1, initiator := i), Ok([HandshakeDone]))
  }

  // ---------- Sending on behalf of the task ----------

  function SendPeer(s: Responder, plain: Plain): Step<Responder> {
    if !s.common.phase.TaskPhase? then Step(s, Err(Crash(NotInTaskState)))
    else
      var (link, box) := SendSession(s.initiator.link, AddressOf(s.common.identity), 1, s.initiator.keypair,
                                     s.initiator.sessionKey, plain);
      Step(s.(initiator := s.initiator.(link := link)), if box.Success? then Ok([Reply(box.value)]) else Err(box.error))
  }

  function Next(s: Responder, tape: Tape, input: Input): Step<Responder> {
    match input
    case Receive(box, choice) => HandleMessage(s, box, tape, choice)
    case SendTask(value, reading) => SendPeer(s, EncodeValue(value, reading))
    case SendClose(code) => SendPeer(s, Encode(Close(code.AsNumber())))
  }
}
