/** The initiator's side of the signalling protocol, as functions from state to state. */
module InitiatorProtocol {
  import opened Basics
  import opened Messages
  import opened Boxes
  import opened Tasks
  import opened Negotiation
  import opened Contexts
  import opened Signaling

  datatype Initiator = Initiator(
    common: Common,
    responders: map<Address, ResponderContext>,
    responder: Option<ResponderContext>,
    counter: nat)

  const MAX_RESPONDERS: nat := 252
  const COUNTER_MAX: nat := 0xffff_ffff

  function Create(permanent: KeyPair, tasks: seq<Task>, auth: AuthProvider, serverKey: Option<PublicKey>,
                  d: Draw): Initiator {
    Initiator(
      Common(ServerHandshake, permanent, Some(auth), Unknown,
             ServerContext(ServerNew, serverKey, None, FreshLink(d)), Some(tasks), None, None),
      map[], None, 0)
  }

  // ---------- Peer lookup and nonce validation ----------

  function PeerLink(s: Initiator, addr: Address): Option<Link> {
    if addr == 0 then Some(s.common.server.link)
    else if addr == 1 then None
    else if s.common.phase.TaskPhase? then
      if s.responder.Some? && s.responder.value.address == addr then Some(s.responder.value.link) else None
    else if addr in s.responders then Some(s.responders[addr].link)
    else None
  }

  function WithPeerLink(s: Initiator, addr: Address, l: Link): Initiator
    requires PeerLink(s, addr).Some?
  {
    if addr == 0 then s.(common := WithServerLink(s.common, l))
    else if s.common.phase.TaskPhase? then s.(responder := Some(s.responder.value.(link := l)))
    else s.(responders := s.responders[addr := s.responders[addr].(link := l)])
  }

  function ValidateDestination(s: Initiator, n: Nonce): (Initiator, Verdict) {
    var assign := s.common.identity.Unknown? && n.destination != 0 && !s.common.server.handshake.ServerNew?;
    if assign && n.destination != 1 then (s, Fail)
    else
      var s1 := if assign then s.(common := s.common.(identity := IsInitiator)) else s;
      (s1, if n.destination == AddressOf(s1.common.identity) then Accept else Fail)
  }

  function ValidateSource(s: Initiator, n: Nonce): Verdict {
    if n.source == 0 then Accept
    else if n.source == 1 then DropMsg
    else if s.common.identity.IsInitiator? then Accept
    else DropMsg
  }

  function ValidatePeer(s: Initiator, n: Nonce): (Initiator, Verdict) {
    match PeerLink(s, n.source)
    case None => (s, if 2 <= n.source then DropMsg else CrashWith(InvalidSender))
    case Some(l) =>
      var (l1, ok) := Admit(l, n);
      (WithPeerLink(s, n.source, l1), if ok then Accept else Fail)
  }

  function ValidateNonce(s: Initiator, n: Nonce): (Initiator, Verdict) {
    var (s1, v) := ValidateDestination(s, n);
    if !v.Accept? then (s1, v)
    else if !ValidateSource(s1, n).Accept? then (s1, ValidateSource(s1, n))
    else ValidatePeer(s1, n)
  }

  // ---------- Dispatch ----------

  function HandleMessage(s: Initiator, b: ByteBox, tape: Tape, choice: Choice): Step<Initiator> {
    var (s1, v) := ValidateNonce(s, b.nonce);
    match v
    case DropMsg => Step(s1, Ok([]))
    case Fail => Step(s1, Err(InvalidNonce))
    case CrashWith(site) => Step(s1, Err(Crash(site)))
    case Accept => HandleValid(s1, b, tape, choice)
  }

  function HandleValid(s: Initiator, b: ByteBox, tape: Tape, choice: Choice): Step<Initiator> {
    if b.nonce.source == 0 then
      match DecodeServer(s.common, b)
      case Failure(e) => Step(s, Err(e))
      case Success(m) => HandleServerMessage(s, m, b.nonce, tape, choice)
    else if s.common.phase.TaskPhase? then HandleTaskPeer(s, b)
    else HandleHandshakePeer(s, b, choice)
  }

  function HandleTaskPeer(s: Initiator, b: ByteBox): Step<Initiator> {
    if b.nonce.source == 0 then Step(s, Err(Crash(PeerMessageFromServer)))
    else if s.responder.None? then Step(s, Err(Crash(PeerNotSet)))
    else if s.responder.value.sessionKey.None? then Step(s, Err(Crash(PeerSessionKeyNotSet)))
    else
      var v := OpenValue(b, s.responder.value.keypair, s.responder.value.sessionKey.value);
      Step(s, if v.None? then Err(Decode) else TaskActions(v.value, s.common.taskTypes))
  }

  function HandleHandshakePeer(s: Initiator, b: ByteBox, choice: Choice): Step<Initiator> {
    if b.nonce.source == 0 then Step(s, Err(Crash(PeerMessageFromServer)))
    else
      match DecodePeer(s, b)
      case Failure(CouldNotDecrypt) =>
        var d := SendDrop(s.common, b.nonce.source, INITIATOR_COULD_NOT_DECRYPT);
        Step(s.(common := d.state), d.out)
      case Failure(e) => Step(s, Err(e))
      case Success(m) =>
        match s.common.phase
        case ServerHandshake => Step(s, Err(Crash(IllegalStateServerHandshake)))
        case TaskPhase => Step(s, Err(Crash(IllegalStateTask)))
        case PeerHandshake => HandlePeerMessage(s, m, b.nonce.source, choice)
  }

  /** Which key opens a message depends on how far the sender's handshake has come. */
  function DecodePeer(s: Initiator, b: ByteBox): Result<Message> {
    if b.nonce.source < 2 then Failure(Crash(NotFromPeer))
    else if b.nonce.source !in s.responders then Failure(Crash(ResponderNotFound))
    else
      var r := s.responders[b.nonce.source];
      match r.handshake
      case ResponderNew =>
        if s.common.auth.None? then Failure(Crash(NewWithoutAuthProvider))
        else if s.common.auth.value.ByTrustedKey? then Failure(Crash(NewWithTrustedKey))
        else
          var m := OpenWithToken(b, s.common.auth.value.token);
          if m.Some? then Success(m.value) else Failure(Decode)
      case TokenReceived =>
        if r.permanentKey.None? then Failure(Crash(PermanentKeyNotSet))
        else
          var m := OpenMessage(b, s.common.permanent, r.permanentKey.value);
          if m.Some? then Success(m.value) else Failure(CouldNotDecrypt)
      case RKeySent =>
        if r.sessionKey.None? then Failure(Crash(SessionKeyNotSet))
        else
          var m := OpenMessage(b, r.keypair, r.sessionKey.value);
          if m.Some? then Success(m.value) else Failure(Decode)
      case _ => Failure(Crash(InvalidHandshakeState))
  }

  function HandlePeerMessage(s: Initiator, m: Message, source: Address, choice: Choice): Step<Initiator> {
    if source !in s.responders then Step(s, Err(Crash(ResponderNotFound)))
    else
      var state := s.responders[source].handshake;
      if state.ResponderNew? && m.Token? then HandleToken(s, m.key, source)
      else if state.TokenReceived? && m.Key? then HandleKey(s, m.key, source)
      else if state.RKeySent? && m.AuthMsg? then HandleAuth(s, m.auth, source, choice)
      else Step(s, Err(InvalidStateTransition))
  }

  function HandleServerMessage(s: Initiator, m: Message, nonce: Nonce, tape: Tape, choice: Choice): Step<Initiator> {
    match (s.common.server.handshake, m)
    case (ServerNew, ServerHello(key)) =>
      var h := HandleServerHello(s.common, false, key);
      Step(s.(common := h.state), h.out)
    case (ClientInfoSent, ServerAuth(_, _, _, _)) => HandleServerAuth(s, m, nonce, tape, choice)
    case (ServerDone, NewInitiator) => Step(s, Err(Protocol))
    case (ServerDone, NewResponder(id)) =>
      if id < 2 then Step(s, Err(InvalidMessage)) else ProcessNewResponder(s, id, tape)
    case (ServerDone, DropResponder(_, _)) => Step(s, Err(Crash(Unimplemented)))
    case (ServerDone, SendError(_, _, _)) => Step(s, Err(PeerUnreachable))
    case (ServerDone, Disconnected(id)) =>
      Step(s, if id < 2 then Err(Protocol) else Ok([Notify(PeerDisconnected(id))]))
    case (_, _) => Step(s, Err(InvalidStateTransition))
  }

  // ---------- Server handshake and path cleaning ----------

  function HandleServerAuth(s: Initiator, m: Message, nonce: Nonce, tape: Tape, choice: Choice): Step<Initiator>
    requires m.ServerAuth?
  {
    var e := CheckServerAuth(s.common, m, nonce);
    if e.Some? then Step(s, Err(e.value))
    else if !ListingPasses(m) then Step(s, Err(InvalidMessage))
    else
      var r := RegisterAll(s, choice.order(set a | a in m.responders.value), tape);
      if r.out.Err? then r
      else
        var f := FinishServerHandshake(r.state.common,
                                       r.out.actions + [Notify(ServerHandshakeDone(m.responders.value == []))]);
        Step(r.state.(common := f.state), f.out)
  }

  /** The responder list is present, in range and free of repetitions. */
  predicate ListingPasses(m: Message)
    requires m.ServerAuth?
  {
    && m.initiatorConnected.None?
    && m.responders.Some?
    && 0 !in m.responders.value
    && 1 !in m.responders.value
    && |set a | a in m.responders.value| == |m.responders.value|
  }

  /** Registers the listed responders one after the other. */
  function RegisterAll(s: Initiator, order: seq<Address>, tape: Tape): Step<Initiator> {
    if order == [] then Step(s, Ok([]))
    else
      var p := RegisterAll(s, order[..|order| - 1], tape);
      if p.out.Err? then p
      else
        var q := ProcessNewResponder(p.state, order[|order| - 1], tape);
        if q.out.Err? then q else Step(q.state, Ok(p.out.actions + q.out.actions))
  }

  /** A new context replaces any older one at that address; in trusted runs it starts past the token. */
  function NewContext(s: Initiator, a: Address, d: Draw): ResponderContext {
    var r := ResponderContext(ResponderNew, s.counter, a, None, None, d.keypair, FreshLink(d));
    if s.common.auth.Some? && s.common.auth.value.ByTrustedKey? then
      r.(permanentKey := Some(s.common.auth.value.key), handshake := TokenReceived)
    else r
  }

  function ProcessNewResponder(s: Initiator, a: Address, tape: Tape): Step<Initiator> {
    if s.counter == COUNTER_MAX then Step(s.(responders := s.responders - {a}), Err(Crash(CounterOverflow)))
    else
      var s1 := s.(responders := s.responders[a := NewContext(s, a, tape(s.counter))], counter := s.counter + 1);
      if |s1.responders| > MAX_RESPONDERS then DropOldestInactive(s1) else Step(s1, Ok([]))
  }

  /** Among the contexts at addresses below `k` still in the initial state, the one with the least counter. */
  function OldestBelow(m: map<Address, ResponderContext>, k: nat): Option<ResponderContext>
    requires k <= 256
  {
    if k == 0 then None
    else
      var best := OldestBelow(m, k - 1);
      if k - 1 in m && m[k - 1].handshake.ResponderNew? && (best.None? || m[k - 1].counter < best.value.counter)
      then Some(m[k - 1])
      else best
  }

  function DropOldestInactive(s: Initiator): Step<Initiator> {
    var oldest := OldestBelow(s.responders, 256);
    if oldest.None? then Step(s, Ok([]))
    else if oldest.value.address !in s.responders then Step(s, Err(Crash(CandidateVanished)))
    else
      var d := SendDrop(s.common, oldest.value.address, DROPPED_BY_INITIATOR);
      Step(s.(common := d.state, responders := s.responders - {oldest.value.address}), d.out)
  }

  // ---------- Peer handshake ----------

  function WithContext(s: Initiator, a: Address, r: ResponderContext): Initiator {
    s.(responders := s.responders[a := r])
  }

  /** The token authenticates the responder's permanent key and is then used up. */
  function HandleToken(s: Initiator, key: PublicKey, source: Address): Step<Initiator>
    requires source in s.responders
  {
    var r := s.responders[source];
    if r.permanentKey.Some? then Step(s, Err(Crash(PermanentKeyAlreadySet)))
    else
      var s1 := WithContext(s, source, r.(permanentKey := Some(key), handshake := TokenReceived));
      if !(s.common.auth.Some? && s.common.auth.value.ByToken?) then Step(s1, Err(Crash(AuthProviderNotToken)))
      else Step(s1.(common := s1.common.(auth := None)), Ok([]))
  }

  function HandleKey(s: Initiator, key: PublicKey, source: Address): Step<Initiator>
    requires source in s.responders
  {
    var r := s.responders[source];
    if r.sessionKey.Some? then Step(s, Err(Crash(SessionKeyAlreadySet)))
    else if r.permanentKey.None? then Step(s, Err(Crash(PermanentKeyNotSet)))
    else if r.permanentKey.value == key then Step(s, Err(Protocol))
    else
      var r1 := r.(sessionKey := Some(key), handshake := RKeyReceived);
      match NextNonce(r1.link, AddressOf(s.common.identity), r1.address)
      case None => Step(WithContext(s, source, r1), Err(CsnOverflow))
      case Some((nonce, link)) =>
        var box := Seal(Encode(Key(r1.keypair.Public())), nonce, s.common.permanent, r1.permanentKey.value);
        Step(WithContext(s, source, r1.(link := link, handshake := RKeySent)), Ok([Reply(box)]))
  }

  function HandleAuth(s: Initiator, auth: Auth, source: Address, choice: Choice): Step<Initiator>
    requires source in s.responders
  {
    var r := s.responders[source];
    var s1 := s.(responders := s.responders - {source});
    if auth.yourCookie != r.link.ourCookie then Step(s1, Err(Protocol))
    else if !ProposalPasses(auth) then Step(s1, Err(InvalidMessage))
    else if s.common.tasks.None? then Step(s1, Err(Crash(NoTasks)))
    else
      var s2 := s1.(common := s1.common.(tasks := None));
      match ChooseShared(s.common.tasks.value, auth.tasks.value)
      case None => Step(s2, Ok(CloseWithoutTask(s2.common, r)))
      case Some(t) =>
        if t.name !in auth.data then Step(s2, Err(Crash(TaskDataNotFound)))
        else if !choice.initOk then Step(s2, Err(TaskInitialization))
        else SelectWinner(s2, r, t, choice)
  }

  /** Tells the responder that no task is shared, if that can be sent, and reports the error. */
  function CloseWithoutTask(c: Common, r: ResponderContext): seq<Action> {
    var (_, box) := SendSession(r.link, AddressOf(c.identity), r.address, r.keypair, r.sessionKey,
                                Encode(Close(NO_SHARED_TASK)));
    if box.Success? then [Reply(box.value), HandshakeError] else [HandshakeError]
  }

  /** Drops every other responder, answers the winner and moves it to the chosen slot. */
  function SelectWinner(s: Initiator, r: ResponderContext, t: Task, choice: Choice): Step<Initiator> {
    var d := DropAll(s.common, choice.order(s.responders.Keys));
    if d.out.Err? then Step(s.(common := d.state), d.out)
    else
      var s1 := s.(common := d.state, responders := map[]);
      if r.link.theirCookie.None? then Step(s1, Err(Crash(ResponderCookieNotSet)))
      else
        var plain := Encode(AuthMsg(InitiatorAuth(r.link.theirCookie.value, t)));
        var (link, box) :=
            SendSession(r.link, AddressOf(s1.common.identity), r.address, r.keypair, r.sessionKey, plain);
        if box.Failure? then Step(s1, Err(box.error))
        else
          var c := s1.common.(taskTypes := Some(t.types), task := Some(t));
          match SetPhase(c, TaskPhase)
          case Failure(e) => Step(s1.(common := c), Err(e))
          case Success(c1) =>
            Step(s1.(common := c1, responder := Some(r.(link := link, handshake := RAuthSent))),
                 Ok(d.out.actions + [Reply(box.value), HandshakeDone]))
  }

  // ---------- Sending on behalf of the task ----------

  function SendPeer(s: Initiator, plain: Plain): Step<Initiator> {
    if !s.common.phase.TaskPhase? then Step(s, Err(Crash(NotInTaskState)))
    else if s.responder.None? then Step(s, Err(Crash(PeerNotSet)))
    else
      var r := s.responder.value;
      var (link, box) := SendSession(r.link, AddressOf(s.common.identity), r.address, r.keypair, r.sessionKey, plain);
      Step(s.(responder := Some(r.(link := link))), if box.Success? then Ok([Reply(box.value)]) else Err(box.error))
  }

  function Next(s: Initiator, tape: Tape, input: Input): Step<Initiator> {
    match input
    case Receive(box, choice) => HandleMessage(s, box, tape, choice)
    case SendTask(value, reading) => SendPeer(s, EncodeValue(value, reading))
    case SendClose(code) => SendPeer(s, Encode(Close(code.AsNumber())))
  }
}
