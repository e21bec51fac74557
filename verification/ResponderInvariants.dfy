/** What every step of a responder keeps. */
module ResponderInvariants {
  import opened Basics
  import opened CombinedSequence
  import opened Messages
  import opened Boxes
  import opened Tasks
  import opened Contexts
  import opened Signaling
  import opened ResponderProtocol
  import opened RunShape
  import opened Progression

  /** The invariant of a responder between two messages. */
  ghost predicate Valid(s: Responder, tape: Tape) {
    && CommonValid(s.common)
    && !s.common.identity.IsInitiator?
    && (s.common.identity.IsResponder? ==> s.common.identity.address >= 2)
    && (s.common.phase.TaskPhase? <==> s.common.tasks.None?)
    && ContextValid(s, tape)
  }

  /** The session key is known exactly from "key received" on; that state itself never survives a step. */
  ghost predicate ContextValid(s: Responder, tape: Tape) {
    && s.draws >= 1
    && s.initiator.keypair == tape(s.draws - 1).keypair
    && s.initiator.link.ourCookie == tape(s.draws - 1).cookie
    && (s.common.phase.ServerHandshake? ==> s.initiator.handshake.InitiatorNew? && s.draws == 1 && s.common.auth.Some?)
    && (s.common.phase.TaskPhase? ==>
        s.initiator.handshake.IAuthReceived? || (s.initiator.handshake.IKeySent? && Trusted(s.common)))
    && (SpendableToken(s.common) ==> s.initiator.handshake.InitiatorNew?)
    && !s.initiator.handshake.IKeyReceived?
    && (s.initiator.sessionKey.Some? <==> s.initiator.handshake.IAuthSent? || s.initiator.handshake.IAuthReceived?)
    && (s.initiator.handshake.IAuthReceived? ==> s.common.phase.TaskPhase?)
  }

  /** The moves of the initiator context's handshake state that are visible between messages. */
  predicate LegalMove(from: InitiatorState, to: InitiatorState) {
    || from == to
    || (from.InitiatorNew? && to.IKeySent?)
    || (from.IKeySent? && to.IAuthSent?)
    || (from.IAuthSent? && to.IAuthReceived?)
  }

  /** A context either moves forward or is replaced by a new one that has sent its key. */
  ghost predicate Forward(s: Responder, t: Responder) {
    && CommonForward(s.common, t.common)
    && t.initiator.permanentKey == s.initiator.permanentKey
    && (if t.draws == s.draws then
          && LegalMove(s.initiator.handshake, t.initiator.handshake)
          && (s.initiator.sessionKey.Some? ==> t.initiator.sessionKey == s.initiator.sessionKey)
          && LinkForward(s.initiator.link, t.initiator.link)
        else
          && t.draws == s.draws + 1
          && t.initiator.handshake.IKeySent?)
  }

  ghost predicate Issued(s: Responder, t: Responder, n: Nonce) {
    || NewOn(s.common.server.link, t.common.server.link, n)
    || (s.draws == t.draws && NewOn(s.initiator.link, t.initiator.link, n))
    || (s.draws < t.draws && n.cookie == t.initiator.link.ourCookie
        && n.csn.Number() <= t.initiator.link.ourCsn.Number())
  }

  /** Every nonce handed out is newer than `s` and not newer than `t`, and they increase per cookie. */
  ghost predicate Emits(s: Responder, t: Responder, actions: seq<Action>) {
    && (forall i :: 0 <= i < |actions| && actions[i].Reply? ==> Issued(s, t, actions[i].box.nonce))
    && Increasing(actions)
  }

  // ---------- What a box on the wire says about the responder that sent it ----------

  ghost predicate SentBy(r: Responder, tape: Tape, b: ByteBox) {
    && NonceFits(b)
    && ((b.nonce.destination == 0 && !b.bytes.SecretSealed?)
        || (FromPeer(r, b) && (TokenBox(r, b) || KeyBox(r, tape, b) || SessionBox(r, tape, b))))
  }

  ghost predicate FromPeer(r: Responder, b: ByteBox) {
    b.nonce.destination == 1 && r.common.identity.IsResponder? && b.nonce.source == r.common.identity.address
  }

  /** The token carries our permanent key, and once it is on the wire it is spent. */
  ghost predicate TokenBox(r: Responder, b: ByteBox) {
    && b.bytes.SecretSealed?
    && b.bytes.plain == Encode(Token(r.common.permanent.Public()))
    && !SpendableToken(r.common)
  }

  /** The key message carries the session key of one of our contexts and is sealed between the permanent keys. */
  ghost predicate KeyBox(r: Responder, tape: Tape, b: ByteBox) {
    && b.bytes.Sealed?
    && b.bytes.x == r.common.permanent.id
    && b.bytes.y == r.initiator.permanentKey.id
    && exists n: nat :: n < r.draws && b.bytes.plain == Encode(Key(tape(n).keypair.Public()))
  }

  /** Anything else is sealed with a session key of ours; for the current context we know with whom. */
  ghost predicate SessionBox(r: Responder, tape: Tape, b: ByteBox) {
    && b.bytes.Sealed?
    && exists n: nat :: SealedInContext(r, tape, b, n)
  }

  ghost predicate SealedInContext(r: Responder, tape: Tape, b: ByteBox, n: nat)
    requires b.bytes.Sealed?
  {
    && n < r.draws
    && b.bytes.x == tape(n).keypair.id
    && (n == r.draws - 1 ==> r.initiator.sessionKey == Some(PublicKey(b.bytes.y)))
    && (n == r.draws - 1 && IsAuth(b) && !r.common.phase.TaskPhase? ==> RepeatsCookie(r, b))
  }

  /** The auth message of the handshake carries our cookie in its nonce and repeats the one heard from the initiator. */
  ghost predicate RepeatsCookie(r: Responder, b: ByteBox)
    requires IsAuth(b)
  {
    && b.nonce.cookie == r.initiator.link.ourCookie
    && r.initiator.link.theirCookie == Some(b.bytes.plain.message.value.auth.yourCookie)
  }

  ghost predicate Authored(t: Responder, tape: Tape, actions: seq<Action>) {
    forall i :: 0 <= i < |actions| && actions[i].Reply? ==> SentBy(t, tape, actions[i].box)
  }

  /** A step sends at most one token, only if it has one to spend, and keeps none. */
  ghost predicate SpendsToken(s: Responder, t: Responder, actions: seq<Action>) {
    && AtMostOneToken(actions)
    && (forall i :: 0 <= i < |actions| && IsToken(actions[i]) ==> SpendableToken(s.common) && t.common.auth.None?)
  }

  ghost predicate IsToken(a: Action) {
    a.Reply? && a.box.bytes.SecretSealed?
  }

  ghost predicate AtMostOneToken(log: seq<Action>) {
    forall i, j :: 0 <= i < j < |log| ==> !(IsToken(log[i]) && IsToken(log[j]))
  }

  /** Everything a successful step establishes. */
  ghost predicate Follows(s: Responder, tape: Tape, t: Responder, actions: seq<Action>) {
    && SpendsToken(s, t, actions)
    && Valid(t, tape)
    && Forward(s, t)
    && Shape(s.common.phase, actions) == Some(t.common.phase)
    && Emits(s, t, actions)
    && Authored(t, tape, actions)
  }

  // ---------- Handlers ----------

  lemma KeySteps(s: Responder, tape: Tape, key: PublicKey, nonce: Nonce)
    requires Valid(s, tape) && s.common.phase.PeerHandshake? && s.initiator.handshake.IKeySent?
    requires s.initiator.link.theirCookie == Some(nonce.cookie)
    ensures var h := HandleKey(s, key, nonce);
            NoCrash(h.out) && (h.out.Ok? ==> Follows(s, tape, h.state, h.out.actions))
  {
    hide Names;
    hide DataOf;
    hide Dedup;
    hide Sort;
    hide Csn.Increment;
    var h := HandleKey(s, key, nonce);
    if h.out.Ok? {
      var a := h.out.actions;
      assert |a| == 1 && a[0].Reply?;
      ShapeOne(s.common.phase, a[0]);
      assert SealedInContext(h.state, tape, a[0].box, s.draws - 1);
    }
  }

  lemma AuthSteps(s: Responder, tape: Tape, auth: Auth, choice: Choice)
    requires Valid(s, tape) && s.common.phase.PeerHandshake? && s.initiator.handshake.IAuthSent?
    ensures var h := HandleAuth(s, auth, choice);
            NoCrash(h.out) && (h.out.Ok? ==> Follows(s, tape, h.state, h.out.actions))
  {
  }

  lemma HelloSteps(s: Responder, tape: Tape, key: PublicKey)
    requires Valid(s, tape) && s.common.server.handshake.ServerNew? && s.common.server.link.theirCookie.Some?
    ensures var h := HandleServerHello(s.common, true, key);
            NoCrash(h.out) && (h.out.Ok? ==> Follows(s, tape, s.(common := h.state), h.out.actions))
  {
    hide Csn.Increment;
    var h := HandleServerHello(s.common, true, key);
    if h.out.Ok? {
      var a := h.out.actions;
      assert |a| == 2 && a[0].Reply? && a[1].Reply?;
      RepliesKeepPhase(s.common.phase, a);
    }
  }

  /** A context about to start the handshake: new, with an identity to send from. */
  ghost predicate ReadyToStart(s: Responder, tape: Tape) {
    && s.draws >= 1
    && s.initiator.keypair == tape(s.draws - 1).keypair
    && s.common.identity.IsResponder?
  }

  lemma KeyIsSent(s: Responder, tape: Tape)
    requires ReadyToStart(s, tape)
    ensures var h := SendKey(s);
            if h.out.Ok? then
              && |h.out.actions| == 1 && h.out.actions[0].Reply?
              && h.state == s.(initiator := s.initiator.(link := h.state.initiator.link))
              && LinkForward(s.initiator.link, h.state.initiator.link)
              && h.out.actions[0].box.nonce.csn == h.state.initiator.link.ourCsn
              && NewOn(s.initiator.link, h.state.initiator.link, h.out.actions[0].box.nonce)
              && NonceFits(h.out.actions[0].box) && FromPeer(h.state, h.out.actions[0].box)
              && KeyBox(h.state, tape, h.out.actions[0].box)
            else h.out == Err(CsnOverflow)
  {
  }

  lemma TokenIsSent(s: Responder, tape: Tape, token: AuthToken)
    requires ReadyToStart(s, tape) && s.common.auth.None?
    ensures var h := SendToken(s, token);
            if h.out.Ok? then
              && |h.out.actions| == 1 && h.out.actions[0].Reply?
              && h.state == s.(initiator := s.initiator.(link := h.state.initiator.link))
              && LinkForward(s.initiator.link, h.state.initiator.link)
              && h.out.actions[0].box.nonce.csn == h.state.initiator.link.ourCsn
              && NewOn(s.initiator.link, h.state.initiator.link, h.out.actions[0].box.nonce)
              && NonceFits(h.out.actions[0].box) && FromPeer(h.state, h.out.actions[0].box)
              && TokenBox(h.state, h.out.actions[0].box)
            else h.out == Err(CsnOverflow)
  {
  }

  /** Starting the handshake sends the token at most once, then the key, both on the current context. */
  ghost predicate Started(s: Responder, tape: Tape, t: Responder, actions: seq<Action>) {
    && s.common.auth.Some?
    && t == s.(common := s.common.(auth := t.common.auth),
               initiator := s.initiator.(handshake := IKeySent, link := t.initiator.link))
    && t.common.auth == (if SpendableToken(s.common) then None else s.common.auth)
    && LinkForward(s.initiator.link, t.initiator.link)
    && (forall i :: 0 <= i < |actions| ==>
        actions[i].Reply? && NewOn(s.initiator.link, t.initiator.link, actions[i].box.nonce))
    && Increasing(actions)
    && Authored(t, tape, actions)
    && SpendsToken(s, t, actions)
  }

  /** A box that was sent stays sent when the context moves on to "key sent". */
  lemma SentStays(s: Responder, tape: Tape, t: Responder, b: ByteBox)
    requires FromPeer(s, b) && NonceFits(b) && (TokenBox(s, b) || KeyBox(s, tape, b))
    requires t.common == s.common && t.draws == s.draws && t.initiator.permanentKey == s.initiator.permanentKey
    ensures SentBy(t, tape, b)
  {
  }

  lemma TokenStarts(s: Responder, tape: Tape)
    requires ReadyToStart(s, tape) && SpendableToken(s.common)
    ensures var h := StartPeerHandshake(s);
            if h.out.Ok? then Started(s, tape, h.state, h.out.actions) else h.out == Err(CsnOverflow)
  {
    hide SendKey;
    hide SendToken;
    hide SentBy;
    hide TokenBox;
    hide KeyBox;
    hide FromPeer;
    var s1 := s.(common := s.common.(auth := None));
    TokenIsSent(s1, tape, s.common.auth.value.token);
    var t := SendToken(s1, s.common.auth.value.token);
    if t.out.Ok? {
      KeyIsSent(t.state, tape);
      var h := StartPeerHandshake(s);
      if h.out.Ok? {
        SentStays(t.state, tape, h.state, h.out.actions[0].box);
        SentStays(SendKey(t.state).state, tape, h.state, h.out.actions[1].box);
      }
    }
  }

  lemma KeyStarts(s: Responder, tape: Tape)
    requires ReadyToStart(s, tape) && Trusted(s.common)
    ensures var h := StartPeerHandshake(s);
            if h.out.Ok? then Started(s, tape, h.state, h.out.actions) else h.out == Err(CsnOverflow)
  {
    hide SendKey;
    hide SentBy;
    hide KeyBox;
    hide FromPeer;
    KeyIsSent(s, tape);
    var h := StartPeerHandshake(s);
    if h.out.Ok? { SentStays(SendKey(s).state, tape, h.state, h.out.actions[0].box); }
  }

  lemma StartSteps(s: Responder, tape: Tape)
    requires ReadyToStart(s, tape)
    ensures var h := StartPeerHandshake(s);
            if h.out.Ok? then Started(s, tape, h.state, h.out.actions)
            else h.out == Err(if s.common.auth.None? then Crash(NoAuthProvider) else CsnOverflow)
  {
    hide Started;
    if s.common.auth.Some? {
      if s.common.auth.value.ByToken? { TokenStarts(s, tape); } else { KeyStarts(s, tape); }
    }
  }

  /** The state once the server handshake is done, given what starting the peer handshake left. */
  ghost function Finished(r: Responder): Responder {
    r.(common := r.common.(phase := PeerHandshake, server := r.common.server.(handshake := ServerDone)))
  }

  lemma FinishedIsValid(s: Responder, tape: Tape, r: Responder, actions: seq<Action>)
    requires Valid(s, tape) && s.common.server.handshake.ClientInfoSent? && !s.common.identity.Unknown?
    requires Started(s, tape, r, actions) || (r == s && actions == [])
    ensures Valid(Finished(r), tape) && Forward(s, Finished(r))
  {
  }

  lemma FinishedFollows(s: Responder, tape: Tape, r: Responder, actions: seq<Action>, flag: bool)
    requires Valid(s, tape) && s.common.server.handshake.ClientInfoSent? && !s.common.identity.Unknown?
    requires Started(s, tape, r, actions) || (r == s && actions == [])
    ensures Follows(s, tape, Finished(r), actions + [Notify(ServerHandshakeDone(flag))])
  {
    hide Valid;
    hide Forward;
    hide SpendsToken;
    hide Emits;
    hide Authored;
    hide Shape;
    FinishedIsValid(s, tape, r, actions);
    PhaseBeforeAuth(s, tape);
    NotifyLast(s.common.phase, actions + [Notify(ServerHandshakeDone(flag))]);
    FinishedSends(s, tape, r, actions, Notify(ServerHandshakeDone(flag)));
  }

  /** What was sent at the start stays sent, and one more notification changes nothing about it. */
  lemma FinishedSends(s: Responder, tape: Tape, r: Responder, actions: seq<Action>, last: Action)
    requires Started(s, tape, r, actions) || (r == s && actions == [])
    requires last.Notify? && s.common.phase.ServerHandshake?
    ensures var t, all := Finished(r), actions + [last];
            SpendsToken(s, t, all) && Emits(s, t, all) && Authored(t, tape, all)
  {
    hide SentBy;
    var t, all := Finished(r), actions + [last];
    forall i | 0 <= i < |all| && all[i].Reply?
      ensures Issued(s, t, all[i].box.nonce) && SentBy(t, tape, all[i].box)
    {
      assert all[i] == actions[i];
      assert NewOn(s.initiator.link, r.initiator.link, actions[i].box.nonce);
      FinishedStaysSent(r, tape, actions[i].box);
    }
  }

  lemma FinishedStaysSent(r: Responder, tape: Tape, b: ByteBox)
    requires r.common.phase.ServerHandshake? && SentBy(r, tape, b)
    ensures SentBy(Finished(r), tape, b)
  {
    if b.bytes.Sealed? && SessionBox(r, tape, b) {
      var n: nat :| SealedInContext(r, tape, b, n);
      assert SealedInContext(Finished(r), tape, b, n);
    }
  }

  lemma PhaseBeforeAuth(s: Responder, tape: Tape)
    requires Valid(s, tape) && s.common.server.handshake.ClientInfoSent?
    ensures s.common.phase.ServerHandshake?
  {
  }

  lemma ServerAuthSteps(s: Responder, tape: Tape, m: Message, nonce: Nonce)
    requires Valid(s, tape) && s.common.server.handshake.ClientInfoSent? && m.ServerAuth?
    ensures var h := HandleServerAuth(s, m, nonce);
            && (h.out.Ok? ==> Follows(s, tape, h.state, h.out.actions))
            && CrashesExactly(h.out, if s.common.identity.Unknown? then Some(NoIdentity) else None)
  {
    hide StartPeerHandshake;
    hide CheckServerAuth;
    hide Started;
    hide Follows;
    ServerAuthCrash(s.common, m, nonce);
    if CheckServerAuth(s.common, m, nonce).None? && m.responders.None? && m.initiatorConnected.Some? {
      if m.initiatorConnected.value {
        StartSteps(s, tape);
        var r := StartPeerHandshake(s);
        if r.out.Ok? {
          StartKeepsPhase(s, tape, r.state, r.out.actions);
          FinishedFollows(s, tape, r.state, r.out.actions, true);
        }
      } else {
        FinishedFollows(s, tape, s, [], false);
      }
    }
  }

  lemma StartKeepsPhase(s: Responder, tape: Tape, t: Responder, actions: seq<Action>)
    requires Started(s, tape, t, actions)
    ensures t.common.phase == s.common.phase
  {
  }

  ghost function Restarted(s: Responder, tape: Tape): Responder {
    s.(initiator := NewContext(s.initiator.permanentKey, tape(s.draws)), draws := s.draws + 1)
  }

  lemma RestartFollows(s: Responder, tape: Tape, t: Responder, actions: seq<Action>)
    requires Valid(s, tape) && s.common.server.handshake.ServerDone?
    requires Started(Restarted(s, tape), tape, t, actions)
    ensures Follows(s, tape, t, actions)
  {
    RepliesKeepPhase(s.common.phase, actions);
    forall i | 0 <= i < |actions| ensures Issued(s, t, actions[i].box.nonce) {
      assert NewOn(Restarted(s, tape).initiator.link, t.initiator.link, actions[i].box.nonce);
    }
  }

  lemma NewInitiatorSteps(s: Responder, tape: Tape)
    requires Valid(s, tape) && s.common.server.handshake.ServerDone?
    ensures var h := HandleNewInitiator(s, tape);
            && (h.out.Ok? ==> Follows(s, tape, h.state, h.out.actions))
            && CrashesExactly(h.out, if s.common.auth.None? then Some(NoAuthProvider) else None)
  {
    hide StartPeerHandshake;
    hide Follows;
    hide Started;
    RestartIsReady(s, tape);
    hide Valid;
    StartSteps(Restarted(s, tape), tape);
    var h := HandleNewInitiator(s, tape);
    if h.out.Ok? {
      StartedHadProvider(Restarted(s, tape), tape, h.state, h.out.actions);
      RestartFollows(s, tape, h.state, h.out.actions);
    }
  }

  lemma RestartIsReady(s: Responder, tape: Tape)
    requires Valid(s, tape) && s.common.server.handshake.ServerDone?
    ensures ReadyToStart(Restarted(s, tape), tape)
  {
  }

  lemma StartedHadProvider(s: Responder, tape: Tape, t: Responder, actions: seq<Action>)
    requires Started(s, tape, t, actions)
    ensures s.common.auth.Some?
  {
  }

  lemma TaskSteps(s: Responder, tape: Tape, b: ByteBox)
    requires Valid(s, tape) && s.common.phase.TaskPhase? && b.nonce.source != 0
    ensures var h := HandleTaskPeer(s, b);
            && (h.out.Ok? ==> Follows(s, tape, h.state, h.out.actions))
            && CrashesExactly(h.out, if s.initiator.sessionKey.None? then Some(PeerSessionKeyNotSet) else None)
  {
  }

  lemma SendSteps(s: Responder, tape: Tape, plain: Plain)
    requires Valid(s, tape)
    ensures var h := SendPeer(s, plain);
            && (h.out.Ok? ==> Follows(s, tape, h.state, h.out.actions))
            && CrashesExactly(h.out, SendCrash(s))
  {
    hide Csn.Increment;
    IncrementIsSuccessor(s.initiator.link.ourCsn);
    var h := SendPeer(s, plain);
    if h.out.Ok? {
      var a := h.out.actions;
      assert |a| == 1 && a[0].Reply?;
      ShapeOne(s.common.phase, a[0]);
      assert SealedInContext(h.state, tape, a[0].box, s.draws - 1);
    }
  }

  // ---------- Validation ----------

  /** A validated or dropped message leaves the state as it was, but for the identity and what we know of the peer. */
  ghost predicate Heard(s: Responder, t: Responder) {
    && t == s.(common := t.common, initiator := s.initiator.(link := t.initiator.link))
    && CommonHeard(s.common, t.common)
    && LinkHeard(s.initiator.link, t.initiator.link)
  }

  lemma ValidationHears(s: Responder, tape: Tape, n: Nonce)
    requires Valid(s, tape)
    ensures var (t, v) := ValidateNonce(s, n);
            && !v.CrashWith?
            && (v.Accept? || v.DropMsg? ==> Heard(s, t) && Valid(t, tape))
            && (v.Accept? ==>
                n.source < 2 && PeerLink(t, n.source).Some? && PeerLink(t, n.source).value.theirCookie == Some(n.cookie)
                              && (n.source == 1 ==> t.common.identity.IsResponder?))
  {
  }

  /** What a handler does to a validated state, the whole step does to the state before. */
  lemma HeardThenFollows(s: Responder, tape: Tape, t: Responder, u: Responder, actions: seq<Action>)
    requires Heard(s, t) && Follows(t, tape, u, actions)
    ensures Follows(s, tape, u, actions)
  {
  }

  lemma HeardFollows(s: Responder, tape: Tape, t: Responder)
    requires Heard(s, t) && Valid(t, tape)
    ensures Follows(s, tape, t, [])
  {
  }

  // ---------- The whole step ----------

  /** The internal error a message leads to, read off the state before and the message alone. */
  ghost function CrashCause(s: Responder, input: Input): Option<CrashSite> {
    match input
    case SendTask(_, _) => SendCrash(s)
    case SendClose(_) => SendCrash(s)
    case Receive(b, _) =>
      var (t, v) := ValidateNonce(s, b.nonce);
      if !v.Accept? then None
      else if b.nonce.source != 0 then
        // a peer message before we sent our key, or after the context was reset behind a running task
        if t.initiator.handshake.InitiatorNew? then Some(InvalidHandshakeState)
        else if t.common.phase.TaskPhase? && t.initiator.sessionKey.None? then Some(PeerSessionKeyNotSet)
        else None
      else
        var m := DecodeServer(t.common, b);
        if m.Failure? then None
        else if t.common.server.handshake.ClientInfoSent? && m.value.ServerAuth? && t.common.identity.Unknown? then
          Some(NoIdentity)
        else if t.common.server.handshake.ServerDone? && m.value.NewInitiator? && t.common.auth.None? then
          Some(NoAuthProvider)
        else if t.common.server.handshake.ServerDone? && m.value.DropResponder? then Some(Unimplemented)
        else None
  }

  ghost function SendCrash(s: Responder): Option<CrashSite> {
    if !s.common.phase.TaskPhase? then Some(NotInTaskState)
    else if s.initiator.sessionKey.None? && s.initiator.link.ourCsn.Number() + 1 < CSN_LIMIT then
      Some(PeerSessionKeyNotSet)
    else None
  }

  lemma ServerMessageSteps(s: Responder, tape: Tape, b: ByteBox, choice: Choice)
    requires Valid(s, tape) && b.nonce.source == 0 && s.common.server.link.theirCookie.Some?
    ensures var h := HandleValid(s, b, tape, choice);
            h.out.Ok? ==> Follows(s, tape, h.state, h.out.actions)
  {
    hide HandleServerAuth;
    hide HandleNewInitiator;
    hide HandleServerHello;
    var d := DecodeServer(s.common, b);
    if d.Success? {
      var m := d.value;
      if s.common.server.handshake.ServerNew? && m.ServerHello? {
        HelloSteps(s, tape, m.key);
      } else if s.common.server.handshake.ClientInfoSent? && m.ServerAuth? {
        ServerAuthSteps(s, tape, m, b.nonce);
      } else if s.common.server.handshake.ServerDone? && m.NewInitiator? {
        NewInitiatorSteps(s, tape);
      } else if s.common.server.handshake.ServerDone? && m.Disconnected? {
        ShapeOne(s.common.phase, Notify(PeerDisconnected(m.id)));
      }
    }
  }

  lemma PeerMessageSteps(s: Responder, tape: Tape, b: ByteBox, choice: Choice)
    requires Valid(s, tape) && b.nonce.source == 1 && !s.common.phase.TaskPhase?
    requires s.initiator.link.theirCookie == Some(b.nonce.cookie)
    ensures var h := HandleHandshakePeer(s, b, choice);
            && (h.out.Ok? ==> Follows(s, tape, h.state, h.out.actions))
            && CrashesExactly(h.out, if s.initiator.handshake.InitiatorNew? then Some(InvalidHandshakeState) else None)
  {
    hide HandleKey;
    hide HandleAuth;
    var d := DecodePeer(s, b);
    if d.Success? && s.common.phase.PeerHandshake? {
      if s.initiator.handshake.IKeySent? && d.value.Key? {
        KeySteps(s, tape, d.value.key, b.nonce);
      } else if s.initiator.handshake.IAuthSent? && d.value.AuthMsg? {
        AuthSteps(s, tape, d.value.auth, choice);
      }
    }
  }

  /** Every successful step keeps the invariant, moves forward and sends only what it may. */
  lemma NextFollows(s: Responder, tape: Tape, input: Input)
    requires Valid(s, tape)
    ensures var h := Next(s, tape, input);
            h.out.Ok? ==> Follows(s, tape, h.state, h.out.actions)
  {
    hide SendPeer;
    hide ValidateNonce;
    hide HandleHandshakePeer;
    hide HandleTaskPeer;
    match input
    case SendTask(value, reading) => SendSteps(s, tape, EncodeValue(value, reading));
    case SendClose(code) => SendSteps(s, tape, Encode(Close(code.AsNumber())));
    case Receive(b, choice) =>
      ValidationHears(s, tape, b.nonce);
      var (t, v) := ValidateNonce(s, b.nonce);
      if v.Accept? {
        var h := HandleValid(t, b, tape, choice);
        if b.nonce.source == 0 {
          ServerMessageSteps(t, tape, b, choice);
        } else if t.common.phase.TaskPhase? {
          TaskSteps(t, tape, b);
        } else {
          PeerMessageSteps(t, tape, b, choice);
        }
        if h.out.Ok? { HeardThenFollows(s, tape, t, h.state, h.out.actions); }
      } else if v.DropMsg? {
        HeardFollows(s, tape, t);
      }
  }

  lemma ServerMessageCrashes(s: Responder, tape: Tape, b: ByteBox, choice: Choice)
    requires Valid(s, tape) && b.nonce.source == 0 && s.common.server.link.theirCookie.Some?
    ensures var m, state := DecodeServer(s.common, b), s.common.server.handshake;
            CrashesExactly(HandleValid(s, b, tape, choice).out,
              if m.Failure? then None
              else if state.ClientInfoSent? && m.value.ServerAuth? && s.common.identity.Unknown? then Some(NoIdentity)
              else if state.ServerDone? && m.value.NewInitiator? && s.common.auth.None? then Some(NoAuthProvider)
              else if state.ServerDone? && m.value.DropResponder? then Some(Unimplemented)
              else None)
  {
  }

  /** Which internal errors can occur, and exactly when: every other crash branch of the code is dead. */
  lemma CrashesOnlyByCause(s: Responder, tape: Tape, input: Input)
    requires Valid(s, tape)
    ensures CrashesExactly(Next(s, tape, input).out, CrashCause(s, input))
  {
    hide SendPeer;
    hide ValidateNonce;
    hide HandleHandshakePeer;
    hide HandleTaskPeer;
    match input
    case SendTask(value, reading) => SendSteps(s, tape, EncodeValue(value, reading));
    case SendClose(code) => SendSteps(s, tape, Encode(Close(code.AsNumber())));
    case Receive(b, choice) =>
      ValidationHears(s, tape, b.nonce);
      var (t, v) := ValidateNonce(s, b.nonce);
      if v.Accept? {
        if b.nonce.source == 0 {
          ServerMessageCrashes(t, tape, b, choice);
        } else if t.common.phase.TaskPhase? {
          TaskSteps(t, tape, b);
        } else {
          PeerMessageSteps(t, tape, b, choice);
        }
      }
  }
}
