/** The responder as an object whose handlers update its fields in place, each proved against its function. */
module ResponderObject {
  import opened Basics
  import opened CombinedSequence
  import opened Messages
  import opened Boxes
  import opened Tasks
  import opened Negotiation
  import opened Contexts
  import opened Signaling
  import opened SharedObject
  import P = ResponderProtocol
  import V = ResponderInvariants

  /** The legal forward edges of the initiator's handshake, one setter call at a time. */
  predicate InitiatorEdge(from: InitiatorState, to: InitiatorState) {
    || (from.InitiatorNew? && to.IKeySent?)
    || (from.IKeySent? && to.IKeyReceived?)
    || (from.IKeyReceived? && to.IAuthSent?)
    || (from.IAuthSent? && to.IAuthReceived?)
  }

  class ResponderSignaling {
    const common: SharedState
    const tape: Tape
    var initiator: InitiatorContext
    var draws: nat

    function State(): P.Responder
      reads this, common
    {
      P.Responder(common.Get(), initiator, draws)
    }

    ghost predicate Valid()
      reads this, common
    {
      V.Valid(State(), tape)
    }

    constructor (permanent: KeyPair, initiatorKey: PublicKey, token: Option<AuthToken>, serverKey: Option<PublicKey>,
                 tasks: seq<Task>, d: Draw, tape: Tape)
      ensures fresh(common) && this.tape == tape
      ensures State() == P.Create(permanent, initiatorKey, token, serverKey, tasks, d, tape)
      ensures Valid()
    {
      var auth := if token.Some? then ByToken(token.value) else ByTrustedKey(initiatorKey);
      common := new SharedState(permanent, auth, serverKey, tasks, d);
      this.tape := tape;
      initiator := P.NewContext(initiatorKey, tape(0));
      draws := 1;
    }

    /** The setter checks nothing; its callers keep to the forward edges. */
    method SetHandshakeState(to: InitiatorState)
      requires InitiatorEdge(initiator.handshake, to)
      modifies this`initiator
      ensures initiator == old(initiator).(handshake := to)
    {
      initiator := initiator.(handshake := to);
    }

    // ---------- Nonce validation ----------

    method ValidateNonceDestination(nonce: Nonce) returns (v: Verdict)
      modifies common`identity
      ensures (State(), v) == P.ValidateDestination(old(State()), nonce)
    {
      if common.identity.Unknown? && nonce.destination != 0 && !common.server.handshake.ServerNew? {
        if nonce.destination < 2 { return Fail; }
        common.identity := IsResponder(nonce.destination);
      }
      if nonce.destination != AddressOf(common.identity) { return Fail; }
      return Accept;
    }

    method ValidateNonceSource(nonce: Nonce) returns (v: Verdict)
      ensures v == P.ValidateSource(State(), nonce)
    {
      if nonce.source == 0 { return Accept; }
      if nonce.source == 1 && common.identity.IsResponder? { return Accept; }
      return DropMsg;
    }

    /** Stores what we know of the peer at an address back into its context. */
    method SetPeerLink(addr: Address, l: Link)
      requires P.PeerLink(State(), addr).Some?
      modifies this`initiator, common`server
      ensures State() == P.WithPeerLink(old(State()), addr, l)
    {
      if addr == 0 {
        common.server := common.server.(link := l);
      } else {
        initiator := initiator.(link := l);
      }
    }

    method ValidateNonceCsn(nonce: Nonce) returns (v: Verdict)
      modifies this`initiator, common`server
      ensures match P.PeerLink(old(State()), nonce.source)
              case None => State() == old(State()) && v == CrashWith(InvalidSender)
              case Some(l) =>
                && State() == P.WithPeerLink(old(State()), nonce.source, CheckCsn(l, nonce).0)
                && v == if CheckCsn(l, nonce).1 then Accept else Fail
    {
      var peer := P.PeerLink(State(), nonce.source);
      if peer.None? { return CrashWith(InvalidSender); }
      var l := peer.value;
      if l.theirCsn.Some? {
        if !l.theirCsn.value.Less(nonce.csn) { return Fail; }
      } else if nonce.csn.overflow != 0 {
        return Fail;
      }
      SetPeerLink(nonce.source, l.(theirCsn := Some(nonce.csn)));
      return Accept;
    }

    method ValidateNonceCookie(nonce: Nonce) returns (v: Verdict)
      requires P.PeerLink(State(), nonce.source).Some?
      modifies this`initiator, common`server
      ensures var l := P.PeerLink(old(State()), nonce.source).value;
              && State() == P.WithPeerLink(old(State()), nonce.source, CheckCookie(l, nonce).0)
              && v == if CheckCookie(l, nonce).1 then Accept else Fail
    {
      var l := P.PeerLink(State(), nonce.source).value;
      if l.theirCookie.Some? {
        return if nonce.cookie == l.theirCookie.value then Accept else Fail;
      }
      if nonce.cookie == l.ourCookie { return Fail; }
      SetPeerLink(nonce.source, l.(theirCookie := Some(nonce.cookie)));
      return Accept;
    }

    method ValidateNonce(nonce: Nonce) returns (v: Verdict)
      modifies this`initiator, common`server, common`identity
      ensures (State(), v) == P.ValidateNonce(old(State()), nonce)
    {
      v := ValidateNonceDestination(nonce);
      if !v.Accept? { return; }
      v := ValidateNonceSource(nonce);
      if !v.Accept? { return; }
      v := ValidateNonceCsn(nonce);
      if !v.Accept? { return; }
      v := ValidateNonceCookie(nonce);
    }

    // ---------- Starting the peer handshake ----------

    /** Increments our number towards the initiator and builds the nonce from it. */
    method NextPeerNonce() returns (nonce: Option<Nonce>)
      modifies this`initiator
      ensures var n := NextNonce(old(initiator.link), AddressOf(common.identity), 1);
              if n.Some? then nonce == Some(n.value.0) && initiator == old(initiator).(link := n.value.1)
              else nonce.None? && initiator == old(initiator)
    {
      var csn := initiator.link.ourCsn.Increment();
      if csn.None? { return None; }
      initiator := initiator.(link := initiator.link.(ourCsn := csn.value));
      return Some(Nonce(initiator.link.ourCookie, AddressOf(common.identity), 1, csn.value));
    }

    method SendToken(token: AuthToken) returns (out: Outcome)
      modifies this`initiator
      ensures Step(State(), out) == P.SendToken(old(State()), token)
      ensures initiator.handshake == old(initiator.handshake)
    {
      var nonce := NextPeerNonce();
      if nonce.None? { return Err(CsnOverflow); }
      return Ok([Reply(SealWithToken(Token(common.permanent.Public()), nonce.value, token))]);
    }

    method SendKey() returns (out: Outcome)
      modifies this`initiator
      ensures Step(State(), out) == P.SendKey(old(State()))
      ensures initiator.handshake == old(initiator.handshake)
    {
      var nonce := NextPeerNonce();
      if nonce.None? { return Err(CsnOverflow); }
      return Ok([Reply(Seal(Encode(Key(initiator.keypair.Public())), nonce.value, common.permanent,
                            initiator.permanentKey))]);
    }

    /** The token leaves us before it is used, so that it cannot be used again. */
    method StartPeerHandshake() returns (out: Outcome)
      requires initiator.handshake.InitiatorNew?
      modifies this`initiator, common`auth
      ensures Step(State(), out) == P.StartPeerHandshake(old(State()))
    {
      hide P.SendToken;
      hide P.SendKey;
      var actions: seq<Action> := [];
      if common.auth.None? { return Err(Crash(NoAuthProvider)); }
      if common.auth.value.ByToken? {
        var token := common.auth.value.token;
        common.auth := None;
        var t := SendToken(token);
        if t.Err? { return t; }
        actions := t.actions;
      }
      var k := SendKey();
      if k.Err? { return k; }
      SetHandshakeState(IKeySent);
      return Ok(actions + k.actions);
    }

    method HandleServerAuth(m: Message, nonce: Nonce) returns (out: Outcome)
      requires m.ServerAuth? && common.server.handshake.ClientInfoSent? && initiator.handshake.InitiatorNew?
      modifies this`initiator, common`auth, common`server, common`phase
      ensures Step(State(), out) == P.HandleServerAuth(old(State()), m, nonce)
    {
      hide P.StartPeerHandshake;
      var e := CheckServerAuth(common.Get(), m, nonce);
      if e.Some? { return Err(e.value); }
      if m.responders.Some? || m.initiatorConnected.None? { return Err(InvalidMessage); }
      var actions: seq<Action> := [];
      if m.initiatorConnected.value {
        var started := StartPeerHandshake();
        if started.Err? { return started; }
        actions := started.actions;
      }
      out := common.FinishServerHandshake(actions + [Notify(ServerHandshakeDone(m.initiatorConnected.value))]);
    }

    method HandleNewInitiator() returns (out: Outcome)
      modifies this`initiator, this`draws, common`auth
      ensures Step(State(), out) == P.HandleNewInitiator(old(State()), tape)
    {
      initiator := P.NewContext(initiator.permanentKey, tape(draws));
      draws := draws + 1;
      out := StartPeerHandshake();
    }

    method HandleServerMessage(m: Message, nonce: Nonce) returns (out: Outcome)
      requires Valid()
      modifies this`initiator, this`draws, common`auth, common`server, common`phase
      ensures Step(State(), out) == P.HandleServerMessage(old(State()), m, nonce, tape)
    {
      hide P.HandleNewInitiator;
      hide P.HandleServerAuth;
      hide Signaling.HandleServerHello;
      var state := common.server.handshake;
      if state.ServerNew? && m.ServerHello? {
        out := common.HandleServerHello(true, m.key);
      } else if state.ClientInfoSent? && m.ServerAuth? {
        out := HandleServerAuth(m, nonce);
      } else if state.ServerDone? && m.NewInitiator? {
        out := HandleNewInitiator();
      } else if state.ServerDone? && m.NewResponder? {
        out := Err(Protocol);
      } else if state.ServerDone? && m.DropResponder? {
        out := Err(Crash(Unimplemented));
      } else if state.ServerDone? && m.SendError? {
        out := Err(PeerUnreachable);
      } else if state.ServerDone? && m.Disconnected? {
        out := if m.id == 1 then Ok([Notify(PeerDisconnected(m.id))]) else Err(Protocol);
      } else {
        out := Err(InvalidStateTransition);
      }
    }

    // ---------- Peer handshake ----------

    method HandleKey(key: PublicKey, nonce: Nonce) returns (out: Outcome)
      requires initiator.handshake.IKeySent?
      modifies this`initiator
      ensures Step(State(), out) == P.HandleKey(old(State()), key, nonce)
    {
      hide Csn.Increment;
      hide ResponderAuth;
      if initiator.sessionKey.Some? { return Err(Crash(SessionKeyAlreadySet)); }
      if key == initiator.permanentKey { return Err(Protocol); }
      initiator := initiator.(sessionKey := Some(key));
      SetHandshakeState(IKeyReceived);
      if common.tasks.None? { return Err(Crash(NoTasks)); }
      var auth := BuildAuth(nonce.cookie, common.tasks.value);
      if auth.None? { return Err(InvalidMessage); }
      var n := NextPeerNonce();
      if n.None? { return Err(CsnOverflow); }
      var box := Seal(Encode(AuthMsg(auth.value)), n.value, initiator.keypair, initiator.sessionKey.value);
      SetHandshakeState(IAuthSent);
      return Ok([Reply(box)]);
    }

    method HandleAuth(auth: Auth, choice: Choice) returns (out: Outcome)
      requires initiator.handshake.IAuthSent?
      modifies this`initiator, common`phase, common`tasks, common`task, common`taskTypes
      ensures Step(State(), out) == P.HandleAuth(old(State()), auth, choice)
    {
      hide FindTask;
      if auth.yourCookie != initiator.link.ourCookie { return Err(Protocol); }
      if auth.tasks.Some? { return Err(InvalidMessage); }
      if auth.task.None? { return Err(InvalidMessage); }
      var ours := common.tasks;
      if ours.None? { return Err(Crash(NoTasks)); }
      common.tasks := None;
      var task := FindTask(ours.value, auth.task.value);
      FindTaskFinds(ours.value, auth.task.value);
      if task.None? { return Err(Protocol); }
      if |auth.data| == 0 || |auth.data| > 1 { return Err(Protocol); }
      if task.value.name !in auth.data { return Err(Protocol); }
      if !choice.initOk { return Err(TaskInitialization); }
      common.taskTypes := Some(task.value.types);
      common.task := Some(task.value);
      SetHandshakeState(IAuthReceived);
      var e := common.SetSignalingState(TaskPhase);
      if e.Some? { return Err(e.value); }
      return Ok([HandshakeDone]);
    }

    method HandleHandshakePeerMessage(b: ByteBox, choice: Choice) returns (out: Outcome)
      modifies this`initiator, common
      ensures Step(State(), out) == P.HandleHandshakePeer(old(State()), b, choice)
    {
      hide P.HandleKey;
      hide P.HandleAuth;
      if b.nonce.source == 0 { return Err(Crash(PeerMessageFromServer)); }
      var d := P.DecodePeer(State(), b);
      if d == Failure(CouldNotDecrypt) { return Err(Crash(NonInitiatorDrop)); }
      if d.Failure? { return Err(d.error); }
      var m := d.value;
      match common.phase {
        case ServerHandshake => return Err(Crash(IllegalStateServerHandshake));
        case TaskPhase => return Err(Crash(IllegalStateTask));
        case PeerHandshake =>
      }
      var state := initiator.handshake;
      if state.IKeySent? && m.Key? {
        out := HandleKey(m.key, b.nonce);
      } else if state.IAuthSent? && m.AuthMsg? {
        out := HandleAuth(m.auth, choice);
      } else if state.IAuthSent? && m.Close? {
        out := if CloseCodeFromNumber(m.reason).NoSharedTask? then Err(NoSharedTaskFound) else Err(Protocol);
      } else {
        out := Err(InvalidStateTransition);
      }
    }

    // ---------- Task phase ----------

    method HandleTaskPeerMessage(b: ByteBox) returns (out: Outcome)
      ensures Step(State(), out) == P.HandleTaskPeer(State(), b)
    {
      if b.nonce.source == 0 { return Err(Crash(PeerMessageFromServer)); }
      if initiator.sessionKey.None? { return Err(Crash(PeerSessionKeyNotSet)); }
      var v := OpenValue(b, initiator.keypair, initiator.sessionKey.value);
      if v.None? { return Err(Decode); }
      out := common.TaskMessageActions(v.value);
    }

    /** Seals a message of the task for the initiator. */
    method EncodeForPeer(plain: Plain) returns (out: Outcome)
      modifies this`initiator
      ensures Step(State(), out) == P.SendPeer(old(State()), plain)
    {
      if !common.phase.TaskPhase? { return Err(Crash(NotInTaskState)); }
      var nonce := NextPeerNonce();
      if nonce.None? { return Err(CsnOverflow); }
      if initiator.sessionKey.None? { return Err(Crash(PeerSessionKeyNotSet)); }
      return Ok([Reply(Seal(plain, nonce.value, initiator.keypair, initiator.sessionKey.value))]);
    }

    // ---------- The whole step ----------

    method HandleMessage(b: ByteBox, choice: Choice) returns (out: Outcome)
      requires Valid()
      modifies this, common
      ensures Step(State(), out) == P.HandleMessage(old(State()), b, tape, choice)
      ensures out.Ok? ==> Valid()
    {
      hide P.ValidateNonce;
      hide P.HandleServerMessage;
      hide P.HandleHandshakePeer;
      hide P.HandleTaskPeer;
      hide V.Valid;
      StepIsValid(State(), tape, Receive(b, choice));
      V.ValidationHears(State(), tape, b.nonce);
      var v := ValidateNonce(b.nonce);
      match v {
        case DropMsg => return Ok([]);
        case Fail => return Err(InvalidNonce);
        case CrashWith(site) => return Err(Crash(site));
        case Accept =>
      }
      if b.nonce.source == 0 {
        var m := DecodeServer(common.Get(), b);
        if m.Failure? { return Err(m.error); }
        out := HandleServerMessage(m.value, b.nonce);
      } else if common.phase.TaskPhase? {
        out := HandleTaskPeerMessage(b);
      } else {
        out := HandleHandshakePeerMessage(b, choice);
      }
    }

    method EncodeTaskMessage(value: Value, reading: Option<Message>) returns (out: Outcome)
      requires Valid()
      modifies this`initiator
      ensures Step(State(), out) == P.Next(old(State()), tape, SendTask(value, reading))
      ensures out.Ok? ==> Valid()
    {
      StepIsValid(State(), tape, SendTask(value, reading));
      out := EncodeForPeer(EncodeValue(value, reading));
    }

    method EncodeCloseMessage(code: CloseCode) returns (out: Outcome)
      requires Valid()
      modifies this`initiator
      ensures Step(State(), out) == P.Next(old(State()), tape, SendClose(code))
      ensures out.Ok? ==> Valid()
    {
      StepIsValid(State(), tape, SendClose(code));
      out := EncodeForPeer(Encode(Close(code.AsNumber())));
    }
  }

  /** Builds the auth message in place and hands it over. */
  method BuildAuth(cookie: Cookie, ts: seq<Task>) returns (auth: Option<Auth>)
    ensures auth == ResponderAuth(cookie, ts)
  {
    hide Names;
    hide DataOf;
    hide Sort;
    hide Dedup;
    var builder := new ResponderAuthBuilder(cookie);
    builder.AddTasks(ts);
    auth := builder.Build();
    ResponderBuilderIsExact(cookie, ts);
    assert builder.names == Names(ts) && builder.data == DataOf(ts);
  }

  lemma StepIsValid(s: P.Responder, tape: Tape, input: Input)
    requires V.Valid(s, tape)
    ensures P.Next(s, tape, input).out.Ok? ==> V.Valid(P.Next(s, tape, input).state, tape)
  {
    V.NextFollows(s, tape, input);
  }
}
