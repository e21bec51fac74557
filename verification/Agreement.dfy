/**
 An initiator and a responder over a relay that may read, drop, delay, repeat, reorder, readdress and forge:
 it delivers to either client any message that was ever sent, or any it can build from the secrets it knows.
 */
module Agreement {
  import opened Basics
  import opened Messages
  import opened Boxes
  import opened Contexts
  import opened Progression
  import I = InitiatorProtocol
  import II = InitiatorInvariants
  import IL = InitiatorLearning
  import IR = InitiatorRuns
  import R = ResponderProtocol
  import RI = ResponderInvariants
  import RL = ResponderLearning
  import RR = ResponderRuns

  /** Who the two clients are, what they draw at random, and what the relay knows. */
  datatype World = World(initiatorTape: Tape, responderTape: Tape, initiator: KeyPair, responder: KeyPair,
                         token: AuthToken, known: iset<nat>)

  /** The clients' secrets are distinct, and the relay knows none of them. */
  ghost predicate Secret(w: World) {
    && w.initiator.id != w.responder.id
    && w.initiator.id !in w.known && w.responder.id !in w.known
    && (forall m: nat :: FreshFor(w, w.initiatorTape(m).keypair.id) && FreshFor(w, w.responderTape(m).keypair.id))
    && (forall m: nat, n: nat :: w.initiatorTape(m).keypair.id != w.responderTape(n).keypair.id)
    && (forall m: nat, n: nat :: m != n ==> w.initiatorTape(m).keypair.id != w.initiatorTape(n).keypair.id)
    && (forall m: nat, n: nat :: m != n ==> w.responderTape(m).keypair.id != w.responderTape(n).keypair.id)
  }

  ghost predicate FreshFor(w: World, id: nat) {
    id !in w.known && id != w.initiator.id && id != w.responder.id
  }

  datatype System = System(i: I.Initiator, r: R.Responder, net: set<ByteBox>)

  /** What the relay can build itself: clear text, boxes under a key it knows, tokens other than the shared one. */
  ghost predicate Forgeable(w: World, b: ByteBox) {
    match b.bytes
    case Clear(_) => true
    case Sealed(x, y, _, _) => x in w.known || y in w.known
    case SecretSealed(t, _, _) => t != w.token
  }

  /** The relay delivers what it forges, or sealed bytes it has seen behind any nonce it likes. */
  ghost predicate Deliverable(w: World, net: set<ByteBox>, b: ByteBox) {
    Forgeable(w, b) || exists h :: h in net && h.bytes == b.bytes
  }

  datatype Move = InitiatorMoves(input: Input) | ResponderMoves(input: Input)

  /** The relay can deliver the message. */
  ghost predicate Enabled(w: World, s: System, input: Input) {
    input.Receive? ==> Deliverable(w, s.net, input.box)
  }

  /** And the initiator's task does not imitate an auth message for another task. */
  ghost predicate Allowed(w: World, s: System, m: Move) {
    Enabled(w, s, m.input) && (m.InitiatorMoves? ==> !II.Imitates(s.i, m.input))
  }

  ghost function Sent(actions: seq<Action>): set<ByteBox> {
    set a | a in actions && a.Reply? :: a.box
  }

  /**
   A move that ends in an error is skipped. That the client may move again covers the runs in which it stops for
   good.
   */
  ghost function Take(w: World, s: System, m: Move): System {
    if !Allowed(w, s, m) then s
    else
      match m
      case InitiatorMoves(input) =>
        var h := I.Next(s.i, w.initiatorTape, input);
        if h.out.Ok? then System(h.state, s.r, s.net + Sent(h.out.actions)) else s
      case ResponderMoves(input) =>
        var h := R.Next(s.r, w.responderTape, input);
        if h.out.Ok? then System(s.i, h.state, s.net + Sent(h.out.actions)) else s
  }

  ghost function Run(w: World, s: System, moves: seq<Move>): System
    decreases |moves|
  {
    if moves == [] then s else Run(w, Take(w, s, moves[0]), moves[1..])
  }

  /** Both clients newly created, each told the other's identity by token or by trusted key. */
  ghost predicate Initial(w: World, s: System) {
    && IR.Created(s.i) && RR.Created(s.r, w.responderTape)
    && s.i.common.permanent == w.initiator
    && s.r.common.permanent == w.responder
    && s.r.initiator.permanentKey == w.initiator.Public()
    && ExpectsResponder(w, s.i)
    && s.net == {}
  }

  ghost predicate ExpectsResponder(w: World, i: I.Initiator) {
    i.common.auth.Some? ==>
      i.common.auth.value == ByToken(w.token) || i.common.auth.value == ByTrustedKey(w.responder.Public())
  }

  // ---------- Agreement ----------

  /** Same task, each other's session keys, each other's cookies, each other's addresses. */
  ghost predicate Agree(i: I.Initiator, r: R.Responder) {
    && i.responder.Some? && i.common.task.Some? && r.common.task.Some?
    && i.common.task.value.name == r.common.task.value.name
    && SameSession(i.responder.value, r)
  }

  ghost predicate SameSession(c: ResponderContext, r: R.Responder) {
    && r.common.identity == IsResponder(c.address)
    && c.sessionKey == Some(r.initiator.keypair.Public())
    && r.initiator.sessionKey == Some(c.keypair.Public())
    && c.link.theirCookie == Some(r.initiator.link.ourCookie)
    && r.initiator.link.theirCookie == Some(c.link.ourCookie)
  }

  /**
   The chosen context was answered by context `n` of the responder; if that is the current one, they share the
   session.
   */
  ghost predicate AnsweredBy(w: World, c: ResponderContext, r: R.Responder, n: nat) {
    && n < r.draws
    && c.sessionKey == Some(w.responderTape(n).keypair.Public())
    && r.common.identity == IsResponder(c.address)
    && (n == r.draws - 1 ==> SameSession(c, r))
  }

  ghost predicate Answered(w: World, c: ResponderContext, r: R.Responder) {
    exists n: nat :: AnsweredBy(w, c, r, n)
  }

  // ---------- The invariant of the system ----------

  ghost predicate OnWire(w: World, i: I.Initiator, r: R.Responder, b: ByteBox) {
    II.SentBy(i, w.initiatorTape, b) || RI.SentBy(r, w.responderTape, b)
  }

  ghost predicate ResponderKey(w: World, k: PublicKey) {
    exists n: nat :: k == w.responderTape(n).keypair.Public()
  }

  ghost predicate InitiatorKey(w: World, k: PublicKey) {
    exists n: nat :: k == w.initiatorTape(n).keypair.Public()
  }

  /** Whatever keys a context of the initiator knows are the responder's. */
  ghost predicate KnowsResponder(w: World, c: ResponderContext) {
    && (c.permanentKey.Some? ==> c.permanentKey.value == w.responder.Public())
    && (c.sessionKey.Some? ==> ResponderKey(w, c.sessionKey.value))
  }

  ghost predicate KnowledgeI(w: World, i: I.Initiator) {
    && i.common.permanent == w.initiator
    && ExpectsResponder(w, i)
    && (forall a :: a in i.responders ==> KnowsResponder(w, i.responders[a]))
    && (i.responder.Some? ==> KnowsResponder(w, i.responder.value))
  }

  ghost predicate KnowledgeR(w: World, r: R.Responder) {
    && r.common.permanent == w.responder
    && r.initiator.permanentKey == w.initiator.Public()
    && (r.initiator.sessionKey.Some? ==> InitiatorKey(w, r.initiator.sessionKey.value))
  }

  ghost predicate Invariant(w: World, s: System) {
    && II.Valid(s.i, w.initiatorTape)
    && RI.Valid(s.r, w.responderTape)
    && KnowledgeI(w, s.i)
    && KnowledgeR(w, s.r)
    && (forall b :: b in s.net ==> OnWire(w, s.i, s.r, b))
    && (s.i.responder.Some? ==> Answered(w, s.i.responder.value, s.r))
    && (s.r.initiator.handshake.IAuthReceived? ==> Agree(s.i, s.r))
  }

  // ---------- What was said stays said ----------

  lemma InitiatorWordsStay(w: World, i: I.Initiator, j: I.Initiator, b: ByteBox)
    requires II.SentBy(i, w.initiatorTape, b) && II.Forward(i, j)
    ensures II.SentBy(j, w.initiatorTape, b)
  {
    if b.nonce.destination != 0 {
      if II.SessionBox(i, w.initiatorTape, b) {
        var n: nat :| II.SealedInContext(i, w.initiatorTape, b, n);
        assert II.SealedInContext(j, w.initiatorTape, b, n);
      }
    }
  }

  lemma ResponderWordsStay(w: World, r: R.Responder, q: R.Responder, b: ByteBox)
    requires RI.SentBy(r, w.responderTape, b) && RI.Forward(r, q)
    ensures RI.SentBy(q, w.responderTape, b)
  {
    if b.nonce.destination != 0 {
      if RI.SessionBox(r, w.responderTape, b) {
        var n: nat :| RI.SealedInContext(r, w.responderTape, b, n);
        assert RI.SealedInContext(q, w.responderTape, b, n);
      }
    }
  }

  // ---------- What an opened message proves ----------

  /** A token the initiator opens carries the responder's permanent key. */
  lemma TokenIsHonest(w: World, s: System, b: ByteBox, key: PublicKey)
    requires Invariant(w, s) && Deliverable(w, s.net, b)
    requires OpenWithToken(b, w.token) == Some(Token(key))
    ensures key == w.responder.Public()
  {
  }

  /** A key message between the permanent keys that reaches the initiator carries a session key of the responder. */
  lemma ResponderKeyIsHonest(w: World, s: System, b: ByteBox, key: PublicKey)
    requires Secret(w) && Invariant(w, s) && Deliverable(w, s.net, b) && IL.FromResponder(b)
    requires OpenMessage(b, w.initiator, w.responder.Public()) == Some(Key(key))
    ensures ResponderKey(w, key)
  {
  }

  lemma InitiatorKeyIsHonest(w: World, s: System, r: R.Responder, b: ByteBox, key: PublicKey)
    requires Secret(w) && Invariant(w, s) && Deliverable(w, s.net, b) && RL.FromInitiator(r, b)
    requires 2 <= r.common.identity.address
    requires OpenMessage(b, w.responder, w.initiator.Public()) == Some(Key(key))
    ensures InitiatorKey(w, key)
  {
  }

  /** A message under two session keys that reaches the initiator was sealed by the responder in that very context. */
  lemma ResponderSessionIsHonest(w: World, s: System, b: ByteBox, m: nat, n: nat)
    requires Secret(w) && Invariant(w, s) && Deliverable(w, s.net, b) && IL.FromResponder(b)
    requires OpenMessage(b, w.initiatorTape(m).keypair, w.responderTape(n).keypair.Public()).Some?
    ensures RI.FromPeer(s.r, b) && RI.SealedInContext(s.r, w.responderTape, b, n)
    ensures b.bytes.y == w.initiatorTape(m).keypair.id
  {
  }

  lemma InitiatorSessionIsHonest(w: World, s: System, r: R.Responder, b: ByteBox, m: nat, n: nat)
    requires Secret(w) && Invariant(w, s) && Deliverable(w, s.net, b) && RL.FromInitiator(r, b)
    requires 2 <= r.common.identity.address
    requires OpenMessage(b, w.responderTape(n).keypair, w.initiatorTape(m).keypair.Public()).Some?
    ensures b.bytes.Sealed? && II.SealedInContext(s.i, w.initiatorTape, b, m)
    ensures b.bytes.y == w.responderTape(n).keypair.id
  {
  }

  // ---------- A step of the initiator ----------

  lemma WireGrows(w: World, s: System, j: I.Initiator, q: R.Responder, actions: seq<Action>)
    requires Invariant(w, s)
    requires s.i == j || II.Forward(s.i, j)
    requires s.r == q || RI.Forward(s.r, q)
    requires II.Authored(j, w.initiatorTape, actions) || RI.Authored(q, w.responderTape, actions)
    ensures forall b :: b in s.net + Sent(actions) ==> OnWire(w, j, q, b)
  {
    hide II.SentBy;
    hide RI.SentBy;
    hide II.Forward;
    hide RI.Forward;
    forall b | b in s.net + Sent(actions) ensures OnWire(w, j, q, b) {
      if b in s.net {
        assert OnWire(w, s.i, s.r, b);
        if II.SentBy(s.i, w.initiatorTape, b) {
          if s.i != j { InitiatorWordsStay(w, s.i, j, b); }
        } else {
          if s.r != q { ResponderWordsStay(w, s.r, q, b); }
        }
      }
    }
  }

  lemma ContextKnowledge(w: World, s: System, a: Address, q: ResponderContext, b: ByteBox)
    requires Secret(w) && Invariant(w, s) && Deliverable(w, s.net, b) && IL.Origin(s.i, a, q, b)
    ensures KnowsResponder(w, q)
  {
    hide Deliverable;
    hide II.Valid;
    hide RI.Valid;
    if IL.KeyFromToken(s.i, q, b) {
      TokenIsHonest(w, s, b, q.permanentKey.value);
    } else if IL.KeyFromKey(s.i, a, q, b) {
      ResponderKeyIsHonest(w, s, b, q.sessionKey.value);
    }
  }

  lemma InitiatorKnowledge(w: World, s: System, input: Input)
    requires Secret(w) && Invariant(w, s) && Enabled(w, s, input)
    requires I.Next(s.i, w.initiatorTape, input).out.Ok?
    ensures KnowledgeI(w, I.Next(s.i, w.initiatorTape, input).state)
  {
    hide I.Next;
    hide Deliverable;
    hide IL.Origin;
    hide II.Valid;
    hide RI.Valid;
    var h := I.Next(s.i, w.initiatorTape, input);
    II.NextFollows(s.i, w.initiatorTape, input);
    if input.Receive? {
      IL.StepTeaches(s.i, w.initiatorTape, input.box, input.choice);
      forall a | a in h.state.responders ensures KnowsResponder(w, h.state.responders[a]) {
        ContextKnowledge(w, s, a, h.state.responders[a], input.box);
      }
    } else {
      IL.SendTeachesNothing(s.i, w.initiatorTape, input);
    }
    if h.state.responder.Some? { ChosenKnowledge(w, s.i, h.state); }
  }

  /** The chosen context keeps the keys it had. */
  lemma ChosenKnowledge(w: World, i: I.Initiator, j: I.Initiator)
    requires II.Valid(i, w.initiatorTape) && II.Valid(j, w.initiatorTape) && II.Forward(i, j) && j.responder.Some?
    requires KnowledgeI(w, i)
    ensures KnowsResponder(w, j.responder.value)
  {
  }

  /** The responder that is chosen answered in the context whose session key we hold. */
  lemma ChosenIsAnswered(w: World, s: System, b: ByteBox, q: ResponderContext)
    requires Secret(w) && Invariant(w, s) && Deliverable(w, s.net, b)
    requires s.i.responder.None? && IL.ChosenOn(q, b) && KnowsResponder(w, q)
    requires q.keypair == w.initiatorTape(q.counter).keypair
    ensures Answered(w, q, s.r)
  {
    hide Deliverable;
    hide OnWire;
    hide II.Valid;
    var n: nat :| q.sessionKey.value == w.responderTape(n).keypair.Public();
    ResponderSessionIsHonest(w, s, b, q.counter, n);
    assert AnsweredBy(w, q, s.r, n);
  }

  lemma InitiatorIsAnswered(w: World, s: System, input: Input)
    requires Secret(w) && Invariant(w, s) && Enabled(w, s, input)
    requires I.Next(s.i, w.initiatorTape, input).out.Ok?
    requires I.Next(s.i, w.initiatorTape, input).state.responder.Some?
    ensures Answered(w, I.Next(s.i, w.initiatorTape, input).state.responder.value, s.r)
  {
    hide I.Next;
    hide Deliverable;
    hide RI.Valid;
    hide OnWire;
    var h := I.Next(s.i, w.initiatorTape, input);
    II.NextFollows(s.i, w.initiatorTape, input);
    if s.i.responder.Some? {
      AnswerStays(w, s.i.responder.value, h.state.responder.value, s.r);
    } else {
      IL.ChoiceIsDeliberate(s.i, w.initiatorTape, input);
      InitiatorKnowledge(w, s, input);
      ChosenIsAnswered(w, s, input.box, h.state.responder.value);
    }
  }

  lemma AnswerStays(w: World, c: ResponderContext, d: ResponderContext, r: R.Responder)
    requires Answered(w, c, r) && II.ContextForward(c, d)
    ensures Answered(w, d, r)
  {
    var n: nat :| AnsweredBy(w, c, r, n);
    assert AnsweredBy(w, d, r, n);
  }

  lemma InitiatorStepKeeps(w: World, s: System, input: Input)
    requires Secret(w) && Invariant(w, s) && Enabled(w, s, input) && !II.Imitates(s.i, input)
    requires I.Next(s.i, w.initiatorTape, input).out.Ok?
    ensures var h := I.Next(s.i, w.initiatorTape, input);
            Invariant(w, System(h.state, s.r, s.net + Sent(h.out.actions)))
  {
    hide I.Next;
    hide KnowledgeI;
    hide KnowledgeR;
    hide OnWire;
    hide II.Valid;
    hide RI.Valid;
    hide Answered;
    hide Deliverable;
    var h := I.Next(s.i, w.initiatorTape, input);
    II.NextFollows(s.i, w.initiatorTape, input);
    InitiatorKnowledge(w, s, input);
    WireGrows(w, s, h.state, s.r, h.out.actions);
    if h.state.responder.Some? { InitiatorIsAnswered(w, s, input); }
  }

  // ---------- A step of the responder ----------

  lemma ResponderKnowledge(w: World, s: System, input: Input)
    requires Secret(w) && Invariant(w, s) && Enabled(w, s, input)
    requires R.Next(s.r, w.responderTape, input).out.Ok?
    ensures KnowledgeR(w, R.Next(s.r, w.responderTape, input).state)
  {
    hide R.Next;
    hide Deliverable;
    hide OnWire;
    hide II.Valid;
    var h := R.Next(s.r, w.responderTape, input);
    RI.NextFollows(s.r, w.responderTape, input);
    RL.StepTeaches(s.r, w.responderTape, input);
    var k := h.state.initiator.sessionKey;
    if k.Some? && k != s.r.initiator.sessionKey {
      InitiatorKeyIsHonest(w, s, h.state, input.box, k.value);
    }
  }

  /** The responder completes the handshake only on the auth message of the initiator that chose it. */
  lemma CompletionAgrees(w: World, s: System, b: ByteBox, q: R.Responder)
    requires Secret(w) && Invariant(w, s) && Deliverable(w, s.net, b)
    requires RL.CompletedOn(q, b) && KnowledgeR(w, q) && RI.Valid(q, w.responderTape)
    requires q.draws == s.r.draws && q.common.identity == s.r.common.identity
    ensures Agree(s.i, q)
  {
    hide Deliverable;
    hide OnWire;
    hide II.AuthValid;
    hide II.MapValid;
    var m: nat :| q.initiator.sessionKey.value == w.initiatorTape(m).keypair.Public();
    InitiatorSessionIsHonest(w, s, q, b, m, q.draws - 1);
    assert II.AuthFromChosen(s.i, b, m);
    CurrentSession(w, s, q.draws - 1);
  }

  /** If the chosen context holds the responder's current session key, they share the session. */
  lemma CurrentSession(w: World, s: System, n: nat)
    requires Secret(w) && Invariant(w, s) && s.i.responder.Some? && n == s.r.draws - 1
    requires s.i.responder.value.sessionKey == Some(w.responderTape(n).keypair.Public())
    ensures SameSession(s.i.responder.value, s.r)
  {
    hide OnWire;
    hide II.Valid;
    var k: nat :| AnsweredBy(w, s.i.responder.value, s.r, k);
    assert w.responderTape(k).keypair.id == w.responderTape(n).keypair.id;
  }

  lemma ResponderAgrees(w: World, s: System, input: Input)
    requires Secret(w) && Invariant(w, s) && Enabled(w, s, input)
    requires R.Next(s.r, w.responderTape, input).out.Ok?
    requires R.Next(s.r, w.responderTape, input).state.initiator.handshake.IAuthReceived?
    ensures Agree(s.i, R.Next(s.r, w.responderTape, input).state)
  {
    hide R.Next;
    hide Deliverable;
    hide OnWire;
    hide II.Valid;
    var h := R.Next(s.r, w.responderTape, input);
    RI.NextFollows(s.r, w.responderTape, input);
    RL.StepTeaches(s.r, w.responderTape, input);
    if !s.r.initiator.handshake.IAuthReceived? {
      ResponderKnowledge(w, s, input);
      CompletionAgrees(w, s, input.box, h.state);
    }
  }

  lemma AnswerSurvives(w: World, c: ResponderContext, r: R.Responder, q: R.Responder)
    requires Answered(w, c, r) && RI.Forward(r, q) && RI.Valid(r, w.responderTape) && RI.Valid(q, w.responderTape)
    ensures Answered(w, c, q)
  {
    var n: nat :| AnsweredBy(w, c, r, n);
    assert AnsweredBy(w, c, q, n);
  }

  lemma ResponderStepKeeps(w: World, s: System, input: Input)
    requires Secret(w) && Invariant(w, s) && Enabled(w, s, input)
    requires R.Next(s.r, w.responderTape, input).out.Ok?
    ensures var h := R.Next(s.r, w.responderTape, input);
            Invariant(w, System(s.i, h.state, s.net + Sent(h.out.actions)))
  {
    hide R.Next;
    hide KnowledgeI;
    hide KnowledgeR;
    hide OnWire;
    hide II.Valid;
    hide RI.Valid;
    hide Answered;
    hide Deliverable;
    hide Agree;
    var h := R.Next(s.r, w.responderTape, input);
    RI.NextFollows(s.r, w.responderTape, input);
    ResponderKnowledge(w, s, input);
    WireGrows(w, s, s.i, h.state, h.out.actions);
    if s.i.responder.Some? { AnswerSurvives(w, s.i.responder.value, s.r, h.state); }
    if h.state.initiator.handshake.IAuthReceived? { ResponderAgrees(w, s, input); }
  }

  // ---------- Every run ----------

  lemma InitialHolds(w: World, s: System)
    requires Initial(w, s)
    ensures Invariant(w, s)
  {
  }

  lemma TakeKeeps(w: World, s: System, m: Move)
    requires Secret(w) && Invariant(w, s)
    ensures Invariant(w, Take(w, s, m))
  {
    hide Invariant;
    hide I.Next;
    hide R.Next;
    hide Enabled;
    hide II.Imitates;
    if Allowed(w, s, m) {
      match m
      case InitiatorMoves(input) =>
        if I.Next(s.i, w.initiatorTape, input).out.Ok? { InitiatorStepKeeps(w, s, input); }
      case ResponderMoves(input) =>
        if R.Next(s.r, w.responderTape, input).out.Ok? { ResponderStepKeeps(w, s, input); }
    }
  }

  lemma {:induction false} RunKeeps(w: World, s: System, moves: seq<Move>)
    requires Secret(w) && Invariant(w, s)
    ensures Invariant(w, Run(w, s, moves))
    decreases |moves|
  {
    hide Invariant;
    hide Take;
    if moves != [] {
      TakeKeeps(w, s, moves[0]);
      RunKeeps(w, Take(w, s, moves[0]), moves[1..]);
    }
  }

  /** The responder keeps the way it authenticates the initiator, or spends its token. */
  ghost predicate SameProvider(s: System, t: System) {
    t.r.common.auth == s.r.common.auth || (SpendableToken(s.r.common) && t.r.common.auth.None?)
  }

  lemma ProviderOutlivesMove(w: World, s: System, m: Move)
    requires Invariant(w, s)
    ensures SameProvider(s, Take(w, s, m))
  {
    hide I.Next;
    hide R.Next;
    hide Allowed;
    if m.ResponderMoves? { RI.NextFollows(s.r, w.responderTape, m.input); }
  }

  lemma {:induction false} ProviderStays(w: World, s: System, moves: seq<Move>)
    requires Secret(w) && Invariant(w, s)
    ensures SameProvider(s, Run(w, s, moves))
    decreases |moves|
  {
    hide Invariant;
    hide Take;
    if moves != [] {
      TakeKeeps(w, s, moves[0]);
      ProviderOutlivesMove(w, s, moves[0]);
      ProviderStays(w, Take(w, s, moves[0]), moves[1..]);
    }
  }

  /**
   Agreement. Whatever the relay does, once the responder is in the task phase both clients agree on the task, the
   session keys, the cookies and the address, if and only if its handshake state still says so; only a responder created
   with a trusted key can lose that again, by starting over with a new initiator.
   */
  lemma ClientsAgree(w: World, s: System, moves: seq<Move>)
    requires Secret(w) && Initial(w, s)
    ensures var t := Run(w, s, moves);
            t.r.common.phase.TaskPhase? ==>
              && (Agree(t.i, t.r) <==> t.r.initiator.handshake.IAuthReceived?)
              && (SpendableToken(s.r.common) ==> Agree(t.i, t.r))
  {
    hide Run;
    InitialHolds(w, s);
    RunKeeps(w, s, moves);
    ProviderStays(w, s, moves);
  }

  /**
   The initiator's side: whoever it chose is the responder, in a context that shares the session while it is current.
   */
  lemma ChosenIsTheResponder(w: World, s: System, moves: seq<Move>)
    requires Secret(w) && Initial(w, s)
    ensures var t := Run(w, s, moves);
            t.i.common.phase.TaskPhase? ==>
              && t.i.responder.Some?
              && t.i.responder.value.permanentKey == Some(w.responder.Public())
              && Answered(w, t.i.responder.value, t.r)
  {
    hide Run;
    hide RI.Valid;
    hide Answered;
    hide OnWire;
    InitialHolds(w, s);
    RunKeeps(w, s, moves);
  }

  /** Starting over during the task phase is what breaks agreement: the session key is gone, the phase stays. */
  lemma NewInitiatorEndsAgreement(i: I.Initiator, r: R.Responder, tape: Tape)
    requires RI.Valid(r, tape) && r.common.phase.TaskPhase? && R.HandleNewInitiator(r, tape).out.Ok?
    ensures var q := R.HandleNewInitiator(r, tape).state;
            Trusted(r.common) && q.common.phase.TaskPhase? && q.initiator.handshake.IKeySent? && !Agree(i, q)
  {
  }
}
