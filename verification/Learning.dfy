/** Where an initiator's knowledge of its responders comes from. */
module InitiatorLearning {
  import opened Basics
  import opened CombinedSequence
  import opened Messages
  import opened Boxes
  import opened Negotiation
  import opened Contexts
  import opened Signaling
  import opened InitiatorProtocol
  import opened InitiatorInvariants
  import opened InitiatorSelection
  import opened Progression

  ghost predicate SameKeys(s: Initiator, a: Address, q: ResponderContext) {
    && a in s.responders
    && q.permanentKey == s.responders[a].permanentKey
    && q.sessionKey == s.responders[a].sessionKey
  }

  /** A new context knows no key but the trusted one. */
  ghost predicate NoKeys(c: Common, q: ResponderContext) {
    && q.sessionKey.None?
    && (q.permanentKey.None? || (Trusted(c) && q.permanentKey == Some(c.auth.value.key)))
  }

  /** The permanent key came in a message sealed with our token. */
  ghost predicate KeyFromToken(s: Initiator, q: ResponderContext, b: ByteBox) {
    && SpendableToken(s.common)
    && q.sessionKey.None?
    && q.permanentKey.Some?
    && OpenWithToken(b, s.common.auth.value.token) == Some(Token(q.permanentKey.value))
  }

  /** The session key came in a message sealed between the permanent keys. */
  ghost predicate KeyFromKey(s: Initiator, a: Address, q: ResponderContext, b: ByteBox) {
    && a in s.responders
    && q.permanentKey.Some?
    && q.permanentKey == s.responders[a].permanentKey
    && q.sessionKey.Some?
    && FromResponder(b)
    && OpenMessage(b, s.common.permanent, q.permanentKey.value) == Some(Key(q.sessionKey.value))
  }

  predicate FromResponder(b: ByteBox) {
    b.nonce.destination == 1 && 2 <= b.nonce.source
  }

  ghost predicate Origin(s: Initiator, a: Address, q: ResponderContext, b: ByteBox) {
    SameKeys(s, a, q) || NoKeys(s.common, q) || KeyFromToken(s, q, b) || KeyFromKey(s, a, q, b)
  }

  ghost predicate Learns(s: Initiator, t: Initiator, b: ByteBox) {
    forall a :: a in t.responders ==> Origin(s, a, t.responders[a], b)
  }

  /** The responder was chosen on an auth message under the session keys that repeats our cookie. */
  ghost predicate ChosenOn(q: ResponderContext, b: ByteBox) {
    && FromResponder(b)
    && q.address == b.nonce.source
    && q.sessionKey.Some?
    && q.link.theirCookie == Some(b.nonce.cookie)
    && OpenMessage(b, q.keypair, q.sessionKey.value).Some?
    && IsAuth(b)
    && b.bytes.plain.message.value.auth.yourCookie == q.link.ourCookie
  }

  // ---------- Server messages ----------

  lemma JoinTeachesNothing(s: Initiator, a: Address, tape: Tape)
    ensures var h := ProcessNewResponder(s, a, tape);
            && h.state.common.auth == s.common.auth
            && forall c :: c in h.state.responders ==>
               SameKeys(s, c, h.state.responders[c]) || NoKeys(s.common, h.state.responders[c])
  {
  }

  lemma {:induction false} RegisteringTeachesNothing(s: Initiator, order: seq<Address>, tape: Tape)
    ensures var h := RegisterAll(s, order, tape);
            && h.state.common.auth == s.common.auth
            && forall c :: c in h.state.responders ==>
               SameKeys(s, c, h.state.responders[c]) || NoKeys(s.common, h.state.responders[c])
    decreases |order|
  {
    hide ProcessNewResponder;
    if order != [] {
      var front := order[..|order| - 1];
      RegisteringTeachesNothing(s, front, tape);
      JoinTeachesNothing(RegisterAll(s, front, tape).state, order[|order| - 1], tape);
    }
  }

  lemma ServerTeachesNothing(s: Initiator, tape: Tape, m: Message, b: ByteBox, choice: Choice)
    ensures var h := HandleServerMessage(s, m, b.nonce, tape, choice);
            h.out.Ok? ==> Learns(s, h.state, b)
  {
    hide RegisterAll;
    hide ProcessNewResponder;
    hide CheckServerAuth;
    hide HandleServerHello;
    if s.common.server.handshake.ClientInfoSent? && m.ServerAuth? && ListingPasses(m) {
      RegisteringTeachesNothing(s, choice.order(set a | a in m.responders.value), tape);
    } else if m.NewResponder? {
      JoinTeachesNothing(s, m.id, tape);
    }
  }

  // ---------- Peer messages ----------

  lemma PeerTeaches(s: Initiator, tape: Tape, b: ByteBox, choice: Choice)
    requires Valid(s, tape) && s.common.phase.PeerHandshake? && FromResponder(b)
    ensures var h := HandleHandshakePeer(s, b, choice);
            h.out.Ok? ==> Learns(s, h.state, b)
  {
    hide SelectWinner;
    hide CloseWithoutTask;
    hide ProposalPasses;
    hide AuthValid;
    hide Csn.Increment;
    var d := DecodePeer(s, b);
    if d.Success? && d.value.AuthMsg? && s.responders[b.nonce.source].handshake.RKeySent? {
      AuthTeachesNothing(s, d.value.auth, b.nonce.source, choice, b);
    }
  }

  lemma AuthTeachesNothing(s: Initiator, auth: Auth, source: Address, choice: Choice, b: ByteBox)
    requires source in s.responders
    ensures var h := HandleAuth(s, auth, source, choice);
            h.out.Ok? ==> Learns(s, h.state, b)
  {
  }

  lemma StepTeaches(s: Initiator, tape: Tape, b: ByteBox, choice: Choice)
    requires Valid(s, tape) && Next(s, tape, Receive(b, choice)).out.Ok?
    ensures Learns(s, Next(s, tape, Receive(b, choice)).state, b)
  {
    hide ValidateNonce;
    hide HandleServerMessage;
    hide HandleHandshakePeer;
    hide Valid;
    hide Learns;
    ValidationHears(s, tape, b.nonce);
    var (t, v) := ValidateNonce(s, b.nonce);
    var u := Next(s, tape, Receive(b, choice)).state;
    SelfLearns(t, b);
    if v.Accept? {
      HeardIsValid(s, tape, t);
      if b.nonce.source == 0 {
        var m := DecodeServer(t.common, b);
        if m.Success? { ServerTeachesNothing(t, tape, m.value, b, choice); }
      } else if !t.common.phase.TaskPhase? {
        ResponderIsAddressed(s, tape, b.nonce);
        PeerTeaches(t, tape, b, choice);
      }
    }
    HeardThenLearns(s, t, u, b);
  }

  lemma SendTeachesNothing(s: Initiator, tape: Tape, input: Input)
    requires !input.Receive?
    ensures var t := Next(s, tape, input).state;
            t.responders == s.responders && t.common == s.common
  {
  }

  lemma SelfLearns(s: Initiator, b: ByteBox)
    ensures Learns(s, s, b)
  {
  }

  lemma HeardThenLearns(s: Initiator, t: Initiator, u: Initiator, b: ByteBox)
    requires Heard(s, t) && Learns(t, u, b)
    ensures Learns(s, u, b)
  {
  }

  /** A peer message passes validation only if it comes from a responder and is meant for the initiator. */
  lemma ResponderIsAddressed(s: Initiator, tape: Tape, n: Nonce)
    requires Valid(s, tape) && ValidateNonce(s, n).1.Accept? && n.source != 0
    ensures n.destination == 1 && 2 <= n.source
    ensures var t := ValidateNonce(s, n).0;
            && !t.common.phase.ServerHandshake?
            && PeerLink(t, n.source).Some? && PeerLink(t, n.source).value.theirCookie == Some(n.cookie)
  {
  }

  lemma ChoiceIsDeliberate(s: Initiator, tape: Tape, input: Input)
    requires Valid(s, tape) && s.responder.None?
    requires Next(s, tape, input).out.Ok? && Next(s, tape, input).state.responder.Some?
    ensures input.Receive? && ChosenOn(Next(s, tape, input).state.responder.value, input.box)
  {
    hide ValidateNonce;
    hide HandleValid;
    hide Valid;
    hide WonBy;
    hide ChosenOn;
    PhaseIsTask(s, tape);
    NextFollows(s, tape, input);
    PhaseIsTask(Next(s, tape, input).state, tape);
    TaskPhaseIsWon(s, tape, input);
    var b := input.box;
    var (t, v) := ValidateNonce(s, b.nonce);
    ValidationHears(s, tape, b.nonce);
    HeardIsValid(s, tape, t);
    WinnerWaits(t, tape, b, input.choice, Next(s, tape, input).state, Next(s, tape, input).out.actions);
    ResponderIsAddressed(s, tape, b.nonce);
    WinnerSpoke(t, tape, b, input.choice);
  }

  lemma PhaseIsTask(s: Initiator, tape: Tape)
    requires Valid(s, tape)
    ensures s.responder.Some? <==> s.common.phase.TaskPhase?
  {
  }

  lemma WinnerWaits(s: Initiator, tape: Tape, b: ByteBox, choice: Choice, t: Initiator, actions: seq<Action>)
    requires Valid(s, tape) && WonBy(s, b, choice, t, actions)
    ensures 2 <= b.nonce.source && b.nonce.source in s.responders && s.responders[b.nonce.source].handshake.RKeySent?
  {
  }

  lemma WinnerSpoke(s: Initiator, tape: Tape, b: ByteBox, choice: Choice)
    requires Valid(s, tape) && s.common.phase.PeerHandshake? && FromResponder(b)
    requires b.nonce.source in s.responders && s.responders[b.nonce.source].handshake.RKeySent?
    requires s.responders[b.nonce.source].link.theirCookie == Some(b.nonce.cookie)
    requires HandleValid(s, b, tape, choice).out.Ok?
    requires WonBy(s, b, choice, HandleValid(s, b, tape, choice).state, HandleValid(s, b, tape, choice).out.actions)
    ensures ChosenOn(HandleValid(s, b, tape, choice).state.responder.value, b)
  {
  }
}

/** Where a responder's knowledge of the initiator comes from. */
module ResponderLearning {
  import opened Basics
  import opened CombinedSequence
  import opened Messages
  import opened Boxes
  import opened Tasks
  import opened Negotiation
  import opened Contexts
  import opened Signaling
  import opened ResponderProtocol
  import opened ResponderInvariants

  /** A message from the initiator to this responder. */
  predicate FromInitiator(t: Responder, b: ByteBox) {
    t.common.identity.IsResponder? && b.nonce.destination == t.common.identity.address && b.nonce.source == 1
  }

  /** A session key is kept, forgotten, or learned from a message sealed between the permanent keys. */
  ghost predicate Learns(s: Responder, t: Responder, b: ByteBox) {
    || (t.draws == s.draws && t.initiator.sessionKey == s.initiator.sessionKey)
    || t.initiator.sessionKey.None?
    || (FromInitiator(t, b)
        && OpenMessage(b, s.common.permanent, s.initiator.permanentKey) == Some(Key(t.initiator.sessionKey.value)))
  }

  /** The handshake completed on an auth message under the session keys that repeats our cookie and names our task. */
  ghost predicate CompletedOn(t: Responder, b: ByteBox) {
    && FromInitiator(t, b)
    && t.initiator.sessionKey.Some? && t.common.task.Some?
    && t.initiator.link.theirCookie == Some(b.nonce.cookie)
    && OpenMessage(b, t.initiator.keypair, t.initiator.sessionKey.value).Some?
    && IsAuth(b)
    && b.bytes.plain.message.value.auth.yourCookie == t.initiator.link.ourCookie
    && b.bytes.plain.message.value.auth.task == Some(t.common.task.value.name)
  }

  lemma KeyTeaches(s: Responder, tape: Tape, b: ByteBox, choice: Choice)
    requires Valid(s, tape) && FromInitiator(s, b)
    requires s.initiator.link.theirCookie == Some(b.nonce.cookie)
    ensures var h := HandleHandshakePeer(s, b, choice);
            h.out.Ok? ==>
              && Learns(s, h.state, b)
              && (h.state.initiator.handshake.IAuthReceived? && !s.initiator.handshake.IAuthReceived? ==>
                  CompletedOn(h.state, b))
  {
    hide ResponderAuth;
    hide Csn.Increment;
    hide FindTask;
    if s.common.tasks.Some? && IsAuth(b) && b.bytes.plain.message.value.auth.task.Some? {
      FindTaskFinds(s.common.tasks.value, b.bytes.plain.message.value.auth.task.value);
    }
  }

  lemma ServerTeachesNothing(s: Responder, tape: Tape, m: Message, b: ByteBox)
    requires Valid(s, tape)
    ensures var h := HandleServerMessage(s, m, b.nonce, tape);
            h.out.Ok? ==>
              && Learns(s, h.state, b)
              && (h.state.initiator.handshake.IAuthReceived? ==> s.initiator.handshake.IAuthReceived?)
  {
  }

  lemma StepTeaches(s: Responder, tape: Tape, input: Input)
    requires Valid(s, tape) && Next(s, tape, input).out.Ok?
    ensures var t := Next(s, tape, input).state;
            if input.Receive? then
              && Learns(s, t, input.box)
              && (t.initiator.handshake.IAuthReceived? && !s.initiator.handshake.IAuthReceived? ==>
                  CompletedOn(t, input.box))
            else t == s.(initiator := s.initiator.(link := t.initiator.link))
  {
    hide ValidateNonce;
    hide HandleServerMessage;
    hide HandleHandshakePeer;
    hide Valid;
    if input.Receive? {
      var b := input.box;
      ValidationHears(s, tape, b.nonce);
      var (t, v) := ValidateNonce(s, b.nonce);
      if v.Accept? {
        if b.nonce.source == 0 {
          var m := DecodeServer(t.common, b);
          if m.Success? { ServerTeachesNothing(t, tape, m.value, b); }
        } else if !t.common.phase.TaskPhase? {
          InitiatorIsAddressed(s, tape, b);
          KeyTeaches(t, tape, b, input.choice);
        }
      }
    }
  }

  lemma InitiatorIsAddressed(s: Responder, tape: Tape, b: ByteBox)
    requires Valid(s, tape) && ValidateNonce(s, b.nonce).1.Accept? && b.nonce.source != 0
    ensures FromInitiator(ValidateNonce(s, b.nonce).0, b)
  {
  }
}
