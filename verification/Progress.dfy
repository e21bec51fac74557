/**
 An initiator and a responder over a relay that delivers in order: every message one of them sends is accepted by the
 other, under every schedule, until both are in the task phase or both report that they share no task.
 */
module Progress {
  import opened Basics
  import opened CombinedSequence
  import opened Messages
  import opened Boxes
  import opened Tasks
  import opened Negotiation
  import opened Contexts
  import opened Signaling
  import opened Progression
  import I = InitiatorProtocol
  import II = InitiatorInvariants
  import R = ResponderProtocol
  import RI = ResponderInvariants
  import Agreement

  /** The two clients, the queues between them, and what they have done and reported so far. */
  datatype Pair = Pair(i: I.Initiator, r: R.Responder, toI: seq<ByteBox>, toR: seq<ByteBox>,
                       iLog: seq<Action>, rLog: seq<Action>,
                       iError: Option<SignalingError>, rError: Option<SignalingError>)

  /** The random sources, the responder's address, the permanent keys and the two task lists. */
  datatype Setup = Setup(iTape: Tape, rTape: Tape, a: Address, initiator: KeyPair, responder: KeyPair,
                         iTasks: seq<Task>, rTasks: seq<Task>)

  /** The boxes addressed to `to`, in order. */
  function BoxesTo(actions: seq<Action>, to: Address): seq<ByteBox> {
    if actions == [] then []
    else
      var last := actions[|actions| - 1];
      BoxesTo(actions[..|actions| - 1], to) + if last.Reply? && last.box.nonce.destination == to then [last.box] else []
  }

  datatype Delivery = Delivery(toInitiator: bool, choice: Choice)

  /** Delivers the message at the head of one queue; nothing happens if there is none or its reader has stopped. */
  function Deliver(w: Setup, p: Pair, d: Delivery): Pair {
    if d.toInitiator then
      if p.toI == [] || p.iError.Some? then p
      else
        var h := I.Next(p.i, w.iTape, Receive(p.toI[0], d.choice));
        match h.out
        case Err(e) => p.(i := h.state, toI := p.toI[1..], iError := Some(e))
        case Ok(actions) =>
          p.(i := h.state, toI := p.toI[1..], toR := p.toR + BoxesTo(actions, w.a), iLog := p.iLog + actions)
    else
      if p.toR == [] || p.rError.Some? then p
      else
        var h := R.Next(p.r, w.rTape, Receive(p.toR[0], d.choice));
        match h.out
        case Err(e) => p.(r := h.state, toR := p.toR[1..], rError := Some(e))
        case Ok(actions) =>
          p.(r := h.state, toR := p.toR[1..], toI := p.toI + BoxesTo(actions, 1), rLog := p.rLog + actions)
  }

  function Run(w: Setup, p: Pair, schedule: seq<Delivery>): Pair
    decreases |schedule|
  {
    if schedule == [] then p else Run(w, Deliver(w, p, schedule[0]), schedule[1..])
  }

  // ---------- Accepting a nonce ----------

  /** The nonce continues what we have heard on this link, or starts it. */
  ghost predicate Continues(l: Link, n: Nonce) {
    && (if l.theirCsn.None? then n.csn.overflow == 0 else l.theirCsn.value.Less(n.csn))
    && (if l.theirCookie.None? then n.cookie != l.ourCookie else n.cookie == l.theirCookie.value)
  }

  function Heard(l: Link, n: Nonce): Link {
    l.(theirCsn := Some(n.csn), theirCookie := Some(n.cookie))
  }

  lemma AdmitsExactly(l: Link, n: Nonce)
    ensures Admit(l, n).1 <==> Continues(l, n)
    ensures Continues(l, n) ==> Admit(l, n).0 == Heard(l, n)
  {
  }

  /** A first message is accepted exactly if its sender's start sequence was not the last 32-bit number. */
  lemma FirstMessageAccepted(ours: Link, d: Draw, source: Address, destination: Address)
    requires ours.theirCsn.None? && ours.theirCookie.None? && ours.ourCookie != d.cookie
    ensures NextNonce(FreshLink(d), source, destination).Some?
    ensures Admit(ours, NextNonce(FreshLink(d), source, destination).value.0).1 <==> d.start < 0xffff_ffff
  {
  }

  // ---------- The stages of the exchange ----------

  ghost predicate Room(l: Link) {
    l.ourCsn.Number() < 0x2_0000_0000
  }

  /** What holds until the responder finishes. */
  ghost predicate Base(w: Setup, p: Pair) {
    && II.Valid(p.i, w.iTape) && RI.Valid(p.r, w.rTape)
    && p.iError.None? && p.rError.None?
    && 2 <= w.a
    && p.i.common.identity.IsInitiator?
    && p.i.common.permanent == w.initiator
    && p.r.common.phase.PeerHandshake?
    && p.r.common.identity == IsResponder(w.a)
    && p.r.common.permanent == w.responder
    && p.r.common.tasks == Some(w.rTasks)
    && w.rTasks != [] && NoDup(Names(w.rTasks))
    && p.r.initiator.permanentKey == w.initiator.Public()
    && p.r.initiator.keypair != w.responder
  }

  /** The initiator still has the responder in its map. */
  ghost predicate Waiting(w: Setup, p: Pair) {
    && Base(w, p)
    && p.i.common.phase.PeerHandshake?
    && p.i.common.tasks == Some(w.iTasks)
    && w.a in p.i.responders
    && p.i.responders[w.a].address == w.a
    && p.i.responders[w.a].keypair != w.initiator
    && p.i.responders[w.a].link.ourCookie != p.r.initiator.link.ourCookie
    && Room(p.i.responders[w.a].link)
    && p.i.common.server.link.ourCsn.Number() + |p.i.responders| < CSN_LIMIT
  }

  /** The responder's key message, next in line after whatever the initiator has heard. */
  ghost predicate KeyFromResponder(w: Setup, p: Pair, b: ByteBox) {
    && b == Seal(Encode(Key(p.r.initiator.keypair.Public())), b.nonce, w.responder, w.initiator.Public())
    && b.nonce == Nonce(p.r.initiator.link.ourCookie, w.a, 1, p.r.initiator.link.ourCsn)
  }

  /** Token and key are on their way. */
  ghost predicate TokenSent(w: Setup, p: Pair) {
    && Waiting(w, p)
    && var c := p.i.responders[w.a];
    && c.handshake.ResponderNew? && NothingHeard(c.link)
    && SpendableToken(p.i.common)
    && p.r.initiator.handshake.IKeySent? && NothingHeard(p.r.initiator.link) && Room(p.r.initiator.link)
    && c.link.ourCsn.overflow == 0
    && p.toR == [] && |p.toI| == 2
    && p.toI[0] == SealWithToken(Token(w.responder.Public()), p.toI[0].nonce, p.i.common.auth.value.token)
    && p.toI[0].nonce == Nonce(p.r.initiator.link.ourCookie, w.a, 1, p.toI[0].nonce.csn)
    && p.toI[0].nonce.csn.overflow == 0
    && p.toI[0].nonce.csn.Less(p.r.initiator.link.ourCsn)
    && KeyFromResponder(w, p, p.toI[1])
  }

  /** The next number on this link still has overflow zero. */
  ghost predicate RoomForFirst(l: Link) {
    l.ourCsn.overflow == 0 && l.ourCsn.sequence < 0xffff_ffff
  }

  /** The responder's key is on its way. */
  ghost predicate KeySent(w: Setup, p: Pair) {
    && Waiting(w, p)
    && var c := p.i.responders[w.a];
    && c.handshake.TokenReceived? && c.permanentKey == Some(w.responder.Public())
    && p.r.initiator.handshake.IKeySent? && NothingHeard(p.r.initiator.link) && Room(p.r.initiator.link)
    && c.link.ourCsn.overflow == 0
    && p.toR == [] && |p.toI| == 1
    && KeyFromResponder(w, p, p.toI[0])
    && Continues(c.link, p.toI[0].nonce)
  }

  /** The initiator's key is on its way. */
  ghost predicate KeyAnswered(w: Setup, p: Pair) {
    && Waiting(w, p)
    && var c := p.i.responders[w.a];
    && c.handshake.RKeySent? && c.sessionKey == Some(p.r.initiator.keypair.Public())
    && c.link.theirCookie == Some(p.r.initiator.link.ourCookie)
    && c.link.theirCsn == Some(p.r.initiator.link.ourCsn)
    && p.r.initiator.handshake.IKeySent? && NothingHeard(p.r.initiator.link) && Room(p.r.initiator.link)
    && p.toI == [] && |p.toR| == 1
    && p.toR[0] == Seal(Encode(Key(c.keypair.Public())), p.toR[0].nonce, w.initiator, w.responder.Public())
    && p.toR[0].nonce == Nonce(c.link.ourCookie, 1, w.a, c.link.ourCsn)
  }

  /** Both know both keys. */
  ghost predicate SameKeys(c: ResponderContext, r: R.Responder) {
    && c.sessionKey == Some(r.initiator.keypair.Public())
    && r.initiator.sessionKey == Some(c.keypair.Public())
    && c.link.theirCookie == Some(r.initiator.link.ourCookie)
    && r.initiator.link.theirCookie == Some(c.link.ourCookie)
    && r.initiator.link.theirCsn.Some?
  }

  /** The responder's auth message is on its way. */
  ghost predicate AuthSent(w: Setup, p: Pair) {
    && Waiting(w, p)
    && var c := p.i.responders[w.a];
    && c.handshake.RKeySent? && SameKeys(c, p.r)
    && c.link.theirCsn.Some?
    && p.r.initiator.handshake.IAuthSent?
    && p.r.initiator.link.theirCsn == Some(c.link.ourCsn)
    && p.toR == [] && |p.toI| == 1
    && ResponderAuth(c.link.ourCookie, w.rTasks).Some?
    && p.toI[0] == Seal(Encode(AuthMsg(ResponderAuth(c.link.ourCookie, w.rTasks).value)), p.toI[0].nonce,
                        p.r.initiator.keypair, c.keypair.Public())
    && p.toI[0].nonce == Nonce(p.r.initiator.link.ourCookie, w.a, 1, p.r.initiator.link.ourCsn)
    && c.link.theirCsn.value.Less(p.toI[0].nonce.csn)
  }

  /** The initiator has chosen; its auth message is on its way. */
  ghost predicate AuthAnswered(w: Setup, p: Pair) {
    && Base(w, p)
    && p.i.common.phase.TaskPhase? && p.i.responder.Some?
    && var c := p.i.responder.value;
    && c.address == w.a && SameKeys(c, p.r)
    && p.r.initiator.handshake.IAuthSent?
    && ChooseShared(w.iTasks, Names(w.rTasks)).Some?
    && p.i.common.task == ChooseShared(w.iTasks, Names(w.rTasks))
    && p.toI == [] && |p.toR| == 1
    && p.toR[0] == Seal(Encode(AuthMsg(InitiatorAuth(p.r.initiator.link.ourCookie, p.i.common.task.value))),
                        p.toR[0].nonce,
                        c.keypair, p.r.initiator.keypair.Public())
    && p.toR[0].nonce == Nonce(c.link.ourCookie, 1, w.a, c.link.ourCsn)
    && p.r.initiator.link.theirCsn.value.Less(p.toR[0].nonce.csn)
    && c.link.theirCsn == Some(p.r.initiator.link.ourCsn)
    && c.link.ourCsn.Number() <= 0x2_0000_0000
  }

  /** There is no shared task; the initiator has said so and closed. */
  ghost predicate CloseSent(w: Setup, p: Pair) {
    && Base(w, p)
    && !ShareTask(w.iTasks, w.rTasks)
    && HandshakeError in p.iLog && p.i.common.phase.PeerHandshake?
    && p.r.initiator.handshake.IAuthSent? && p.r.initiator.sessionKey.Some? && p.r.initiator.link.theirCsn.Some?
    && p.toI == [] && |p.toR| == 1
    && SealedWith(p.toR[0], p.r.initiator.keypair.id, p.r.initiator.sessionKey.value.id)
    && p.toR[0].bytes.plain == Encode(Close(NO_SHARED_TASK))
    && p.r.initiator.link.theirCookie == Some(p.toR[0].nonce.cookie)
    && p.toR[0].nonce.source == 1 && p.toR[0].nonce.destination == w.a
    && p.r.initiator.link.theirCsn.value.Less(p.toR[0].nonce.csn)
  }

  /** Both are in the task phase and agree; the task is the first of the initiator's that the responder also has. */
  ghost predicate Finished(w: Setup, p: Pair) {
    && II.Valid(p.i, w.iTape) && RI.Valid(p.r, w.rTape)
    && p.iError.None? && p.rError.None?
    && 2 <= w.a && p.r.common.identity == IsResponder(w.a)
    && ShareTask(w.iTasks, w.rTasks)
    && p.i.common.phase.TaskPhase? && p.r.common.phase.TaskPhase?
    && Agreement.Agree(p.i, p.r)
    && p.i.common.task == ChooseShared(w.iTasks, Names(w.rTasks))
    && p.i.responder.value.link.theirCsn == Some(p.r.initiator.link.ourCsn)
    && p.r.initiator.link.theirCsn == Some(p.i.responder.value.link.ourCsn)
    && p.toI == [] && p.toR == []
  }

  /** Both have reported that no task is shared. */
  ghost predicate Parted(w: Setup, p: Pair) {
    && !ShareTask(w.iTasks, w.rTasks)
    && HandshakeError in p.iLog && p.iError.None?
    && p.rError == Some(NoSharedTaskFound)
    && p.i.common.phase.PeerHandshake? && p.r.common.phase.PeerHandshake?
    && p.toI == [] && p.toR == []
  }

  /** How many deliveries are left. */
  ghost predicate Stage(w: Setup, p: Pair, left: nat) {
    match left
    case 0 => Finished(w, p) || Parted(w, p)
    case 1 => AuthAnswered(w, p) || CloseSent(w, p)
    case 2 => AuthSent(w, p)
    case 3 => KeyAnswered(w, p) && DidOpen(w, p)
    case 4 => KeySent(w, p) && WillOpen(w, p)
    case 5 => TokenSent(w, p) && WillOpen(w, p)
    case _ => false
  }

  /**
   The first number the initiator used, or will use, on the responder's link is one that a first message may carry.
   */
  ghost predicate DidOpen(w: Setup, p: Pair) {
    w.a in p.i.responders && p.i.responders[w.a].link.ourCsn.overflow == 0
  }

  ghost predicate WillOpen(w: Setup, p: Pair) {
    w.a in p.i.responders && RoomForFirst(p.i.responders[w.a].link)
  }

  /** The responder has refused the initiator's first message. */
  ghost predicate Rejected(w: Setup, p: Pair) {
    && p.iError.None? && p.rError == Some(InvalidNonce)
    && p.i.common.phase.PeerHandshake? && p.r.common.phase.PeerHandshake?
    && p.toI == [] && p.toR == []
  }

  /** How many deliveries are left if it is not: the exchange goes on until that message arrives. */
  ghost predicate Overrun(w: Setup, p: Pair, left: nat) {
    match left
    case 0 => Rejected(w, p)
    case 1 => KeyAnswered(w, p) && !DidOpen(w, p)
    case 2 => KeySent(w, p) && !WillOpen(w, p)
    case 3 => TokenSent(w, p) && !WillOpen(w, p)
    case _ => false
  }

  // ---------- Validation ----------

  /** A message from the responder that continues its link gets through to the peer handler. */
  lemma InitiatorListens(w: Setup, p: Pair, b: ByteBox, choice: Choice)
    requires Waiting(w, p) && b.nonce.source == w.a && b.nonce.destination == 1
    requires Continues(p.i.responders[w.a].link, b.nonce)
    ensures I.Next(p.i, w.iTape, Receive(b, choice)) == I.HandleHandshakePeer(ListenedI(w, p.i, b.nonce), b, choice)
  {
    hide Admit;
    hide I.HandleHandshakePeer;
    hide II.Valid;
    hide RI.Valid;
    AdmitsExactly(p.i.responders[w.a].link, b.nonce);
  }

  ghost function ListenedI(w: Setup, i: I.Initiator, n: Nonce): I.Initiator
    requires w.a in i.responders
  {
    var c := i.responders[w.a];
    i.(responders := i.responders[w.a := c.(link := Heard(c.link, n))])
  }

  lemma ResponderListens(w: Setup, p: Pair, b: ByteBox, choice: Choice)
    requires Base(w, p) && b.nonce.source == 1 && b.nonce.destination == w.a
    requires Continues(p.r.initiator.link, b.nonce)
    ensures R.Next(p.r, w.rTape, Receive(b, choice)) == R.HandleHandshakePeer(ListenedR(p.r, b.nonce), b, choice)
  {
  }

  ghost function ListenedR(r: R.Responder, n: Nonce): R.Responder {
    r.(initiator := r.initiator.(link := Heard(r.initiator.link, n)))
  }

  lemma InitiatorStaysValid(i: I.Initiator, tape: Tape, input: Input)
    requires II.Valid(i, tape) && I.Next(i, tape, input).out.Ok?
    ensures II.Valid(I.Next(i, tape, input).state, tape)
  {
    II.NextFollows(i, tape, input);
  }

  lemma ResponderStaysValid(r: R.Responder, tape: Tape, input: Input)
    requires RI.Valid(r, tape) && R.Next(r, tape, input).out.Ok?
    ensures RI.Valid(R.Next(r, tape, input).state, tape)
  {
    RI.NextFollows(r, tape, input);
  }

  lemma OneBox(a: Action, to: Address)
    ensures BoxesTo([a], to) == if a.Reply? && a.box.nonce.destination == to then [a.box] else []
  {
  }

  /** Replacing one context leaves as many responders as before. */
  lemma SameCount(m: map<Address, ResponderContext>, a: Address, c: ResponderContext)
    requires a in m
    ensures |m[a := c]| == |m|
  {
  }

  /** The next number on the link after this one. */
  ghost function After(l: Link): Csn {
    if l.ourCsn.Increment().Some? then l.ourCsn.Increment().value else l.ourCsn
  }

  /** The number after one with room is the next one, and there is still room. */
  lemma NextNumber(l: Link, source: Address, destination: Address)
    requires Room(l)
    ensures var csn := After(l);
            && NextNonce(l, source, destination)
               == Some((Nonce(l.ourCookie, source, destination, csn), l.(ourCsn := csn)))
            && csn.Number() == l.ourCsn.Number() + 1
            && (RoomForFirst(l) ==> csn.Number() < 0x1_0000_0000)
            && (l.ourCsn.overflow == 0 ==> (csn.overflow == 0 <==> RoomForFirst(l)))
  {
  }

  // ---------- One delivery at a time ----------

  lemma TokenIsTaken(w: Setup, i: I.Initiator, b: ByteBox, choice: Choice)
    requires w.a in i.responders && b.nonce.source == w.a && 2 <= w.a
    requires i.common.phase.PeerHandshake? && SpendableToken(i.common)
    requires i.responders[w.a].handshake.ResponderNew? && i.responders[w.a].permanentKey.None?
    requires b == SealWithToken(Token(w.responder.Public()), b.nonce, i.common.auth.value.token)
    ensures var c := i.responders[w.a].(permanentKey := Some(w.responder.Public()), handshake := TokenReceived);
            I.HandleHandshakePeer(i, b, choice)
            == Step(i.(responders := i.responders[w.a := c], common := i.common.(auth := None)), Ok([]))
  {
  }

  lemma TokenArrives(w: Setup, p: Pair, choice: Choice)
    requires TokenSent(w, p)
    ensures var q := Deliver(w, p, Delivery(true, choice));
            KeySent(w, q) && (WillOpen(w, q) <==> WillOpen(w, p))
  {
    hide BoxesTo;
    hide II.Valid;
    hide RI.Valid;
    hide I.HandleHandshakePeer;
    hide I.Next;
    hide NoDup;
    hide Names;
    var b := p.toI[0];
    II.MapGives(p.i, w.iTape, w.a);
    InitiatorListens(w, p, b, choice);
    var l := ListenedI(w, p.i, b.nonce);
    TokenIsTaken(w, l, b, choice);
    InitiatorStaysValid(p.i, w.iTape, Receive(b, choice));
    NoBoxes([], w.a);
    StillWaiting(w, p, Deliver(w, p, Delivery(true, choice)));
  }

  /** Moving the responder's context on, and perhaps spending the token, leaves everything else in place. */
  lemma StillWaiting(w: Setup, p: Pair, q: Pair)
    requires Waiting(w, p) && w.a in q.i.responders && II.Valid(q.i, w.iTape)
    requires q.r == p.r && q.iError.None? && q.rError.None? && q.i.common == p.i.common.(auth := q.i.common.auth)
    requires q.i.responders == p.i.responders[w.a := q.i.responders[w.a]]
    requires q.i.responders[w.a].address == w.a && q.i.responders[w.a].keypair == p.i.responders[w.a].keypair
    requires q.i.responders[w.a].link.ourCookie == p.i.responders[w.a].link.ourCookie && Room(q.i.responders[w.a].link)
    ensures Waiting(w, q)
  {
    hide II.Valid;
    hide RI.Valid;
    SameCount(p.i.responders, w.a, q.i.responders[w.a]);
  }

  lemma KeyIsTaken(w: Setup, i: I.Initiator, b: ByteBox, key: PublicKey, choice: Choice)
    requires w.a in i.responders && b.nonce.source == w.a && 2 <= w.a && i.responders[w.a].address == w.a
    requires i.common.phase.PeerHandshake? && i.common.identity.IsInitiator? && i.common.permanent == w.initiator
    requires i.responders[w.a].handshake.TokenReceived? && i.responders[w.a].permanentKey == Some(w.responder.Public())
    requires i.responders[w.a].sessionKey.None? && key != w.responder.Public() && Room(i.responders[w.a].link)
    requires b == Seal(Encode(Key(key)), b.nonce, w.responder, w.initiator.Public())
    ensures var c := i.responders[w.a];
            var d := c.(sessionKey := Some(key), handshake := RKeySent, link := c.link.(ourCsn := After(c.link)));
            var n := Nonce(c.link.ourCookie, 1, w.a, After(c.link));
            I.HandleHandshakePeer(i, b, choice)
            == Step(i.(responders := i.responders[w.a := d]),
                    Ok([Reply(Seal(Encode(Key(c.keypair.Public())), n, w.initiator, w.responder.Public()))]))
  {
  }

  lemma KeyArrives(w: Setup, p: Pair, choice: Choice)
    requires KeySent(w, p)
    ensures var q := Deliver(w, p, Delivery(true, choice));
            KeyAnswered(w, q) && (DidOpen(w, q) <==> WillOpen(w, p))
  {
    hide BoxesTo;
    hide NextNonce;
    hide After;
    hide Csn.Increment;
    hide II.Valid;
    hide RI.Valid;
    hide I.HandleHandshakePeer;
    hide I.Next;
    hide NoDup;
    hide Names;
    var b := p.toI[0];
    II.MapGives(p.i, w.iTape, w.a);
    InitiatorListens(w, p, b, choice);
    var l := ListenedI(w, p.i, b.nonce);
    KeyIsTaken(w, l, b, p.r.initiator.keypair.Public(), choice);
    NextNumber(l.responders[w.a].link, 1, w.a);
    InitiatorStaysValid(p.i, w.iTape, Receive(b, choice));
    var h := I.Next(p.i, w.iTape, Receive(b, choice));
    OneBox(h.out.actions[0], w.a);
    StillWaiting(w, p, Deliver(w, p, Delivery(true, choice)));
  }

  lemma KeyIsReturned(w: Setup, r: R.Responder, b: ByteBox, key: PublicKey, choice: Choice)
    requires b.nonce.source == 1 && r.common.phase.PeerHandshake? && r.common.identity == IsResponder(w.a)
    requires r.common.permanent == w.responder && r.initiator.permanentKey == w.initiator.Public()
    requires r.initiator.handshake.IKeySent? && r.initiator.sessionKey.None? && key != w.initiator.Public()
    requires r.common.tasks == Some(w.rTasks) && ResponderAuth(b.nonce.cookie, w.rTasks).Some? && Room(r.initiator.link)
    requires b == Seal(Encode(Key(key)), b.nonce, w.initiator, w.responder.Public())
    ensures var c := r.initiator;
            var d := c.(sessionKey := Some(key), handshake := IAuthSent, link := c.link.(ourCsn := After(c.link)));
            var n := Nonce(c.link.ourCookie, w.a, 1, After(c.link));
            R.HandleHandshakePeer(r, b, choice)
            == Step(r.(initiator := d),
                    Ok([Reply(Seal(Encode(AuthMsg(ResponderAuth(b.nonce.cookie, w.rTasks).value)), n, c.keypair,
                                   key))]))
  {
  }

  lemma KeyReturns(w: Setup, p: Pair, choice: Choice)
    requires KeyAnswered(w, p) && DidOpen(w, p)
    ensures AuthSent(w, Deliver(w, p, Delivery(false, choice)))
  {
    hide After;
    hide Csn.Increment;
    hide II.Valid;
    hide RI.Valid;
    hide R.HandleHandshakePeer;
    hide R.Next;
    hide ResponderAuth;
    hide NoDup;
    hide Names;
    var b, c := p.toR[0], p.i.responders[w.a];
    assert p.r.initiator.sessionKey.None? by { NoSessionYet(p.r, w.rTape); }
    ResponderBuilderIsExact(b.nonce.cookie, w.rTasks);
    ResponderListens(w, p, b, choice);
    var l := ListenedR(p.r, b.nonce);
    KeyIsReturned(w, l, b, c.keypair.Public(), choice);
    NextNumber(l.initiator.link, w.a, 1);
    ResponderStaysValid(p.r, w.rTape, Receive(b, choice));
    var h := R.Next(p.r, w.rTape, Receive(b, choice));
    OneBox(h.out.actions[0], 1);
  }

  /** A first message whose number does not start with overflow zero is refused. */
  lemma KeyIsRefused(w: Setup, p: Pair, choice: Choice)
    requires KeyAnswered(w, p) && !DidOpen(w, p)
    ensures Rejected(w, Deliver(w, p, Delivery(false, choice)))
  {
    hide II.Valid;
    hide RI.Valid;
    hide Admit;
    hide R.HandleValid;
    hide NoDup;
    hide Names;
    AdmitsExactly(p.r.initiator.link, p.toR[0].nonce);
  }

  lemma NoSessionYet(r: R.Responder, tape: Tape)
    requires RI.Valid(r, tape) && r.initiator.handshake.IKeySent?
    ensures r.initiator.sessionKey.None?
  {
  }

  // ---------- The initiator decides ----------

  /** The initiator's view when the responder's auth message has been admitted. */
  ghost predicate Deciding(w: Setup, l: I.Initiator, r: R.Responder, b: ByteBox) {
    && II.Valid(l, w.iTape)
    && 2 <= w.a && b.nonce.source == w.a
    && l.common.phase.PeerHandshake? && l.common.identity.IsInitiator? && l.common.tasks == Some(w.iTasks)
    && w.a in l.responders && l.responders[w.a].address == w.a
    && l.responders[w.a].handshake.RKeySent?
    && SameKeys(l.responders[w.a], r)
    && Room(l.responders[w.a].link)
    && l.common.server.link.ourCsn.Number() + |l.responders| < CSN_LIMIT
    && ResponderAuth(l.responders[w.a].link.ourCookie, w.rTasks).Some?
    && b == Seal(Encode(AuthMsg(ResponderAuth(l.responders[w.a].link.ourCookie, w.rTasks).value)), b.nonce,
                 r.initiator.keypair, l.responders[w.a].keypair.Public())
  }

  lemma DecisionComes(w: Setup, p: Pair, choice: Choice)
    requires AuthSent(w, p)
    ensures var b := p.toI[0];
            && Deciding(w, ListenedI(w, p.i, b.nonce), p.r, b)
            && I.Next(p.i, w.iTape, Receive(b, choice)) == I.HandleHandshakePeer(ListenedI(w, p.i, b.nonce), b, choice)
  {
    hide RI.Valid;
    hide I.HandleHandshakePeer;
    hide I.Next;
    hide NoDup;
    hide Names;
    hide ResponderAuth;
    hide II.Valid;
    var b := p.toI[0];
    InitiatorListens(w, p, b, choice);
    ListeningKeepsValid(w, p.i, b.nonce);
    SameCount(p.i.responders, w.a, ListenedI(w, p.i, b.nonce).responders[w.a]);
  }

  lemma ListeningKeepsValid(w: Setup, i: I.Initiator, n: Nonce)
    requires II.Valid(i, w.iTape) && w.a in i.responders
    requires i.responders[w.a].link.theirCookie.Some? ==> i.responders[w.a].link.theirCookie.value == n.cookie
    ensures II.Valid(ListenedI(w, i, n), w.iTape)
  {
    hide II.Valid;
    II.HeardIsValid(i, w.iTape, ListenedI(w, i, n)) by { IsNotResponder(i, w.iTape); }
  }

  lemma IsNotResponder(i: I.Initiator, tape: Tape)
    requires II.Valid(i, tape)
    ensures !i.common.identity.IsResponder?
  {
  }

  /** The proposal lists the responder's tasks with their data and passes the initiator's checks. */
  lemma ProposalIsComplete(cookie: Cookie, ts: seq<Task>)
    requires ResponderAuth(cookie, ts).Some?
    ensures var auth := ResponderAuth(cookie, ts).value;
            && auth.yourCookie == cookie && auth.tasks == Some(Names(ts)) && ProposalPasses(auth)
            && forall n :: n in Names(ts) ==> n in auth.data
  {
    ProposalFits(cookie, ts);
  }

  /** What the initiator does with the admitted auth message. */
  lemma Decides(w: Setup, l: I.Initiator, r: R.Responder, b: ByteBox, choice: Choice)
    requires Deciding(w, l, r, b) && choice.initOk
    ensures var t := ChooseShared(w.iTasks, Names(w.rTasks));
            var c := l.responders[w.a];
            I.HandleHandshakePeer(l, b, choice)
            == if t.Some? then I.SelectWinner(II.TakenOut(l, w.a), c, t.value, choice)
               else Step(II.TakenOut(l, w.a), Ok(I.CloseWithoutTask(l.common, c)))
  {
    hide II.Valid;
    hide I.SelectWinner;
    hide I.CloseWithoutTask;
    hide ProposalPasses;
    hide ResponderAuth;
    hide ChooseShared;
    hide Names;
    var c := l.responders[w.a];
    ProposalIsComplete(c.link.ourCookie, w.rTasks);
    ChooseSharedIsFirst(w.iTasks, Names(w.rTasks));
    II.CloseIgnoresTasks(l.common, c);
    assert I.DecodePeer(l, b) == Success(AuthMsg(ResponderAuth(c.link.ourCookie, w.rTasks).value));
  }

  /** Drop messages for fewer responders than there are numbers left go out. */
  lemma {:induction false} DropsFit(c: Common, ids: seq<Address>)
    requires c.server.sessionKey.Some? && c.server.link.ourCsn.Number() + |ids| < CSN_LIMIT
    ensures DropAll(c, ids).out.Ok?
  {
    hide Csn.Increment;
    if ids != [] {
      var front := ids[..|ids| - 1];
      DropsFit(c, front);
      II.AllAreDropped(c, front);
    }
  }

  lemma WinnerFits(w: Setup, l: I.Initiator, r: R.Responder, b: ByteBox, t: Task, choice: Choice)
    requires Deciding(w, l, r, b)
    ensures I.SelectWinner(II.TakenOut(l, w.a), l.responders[w.a], t, choice).out.Ok?
  {
    hide After;
    hide Csn.Increment;
    hide DropAll;
    hide II.AuthValid;
    hide II.MapValid;
    hide ResponderAuth;
    hide NextNonce;
    var c := II.TakenOut(l, w.a).common;
    var others := choice.order(l.responders.Keys - {w.a});
    assert (l.responders - {w.a}).Keys == l.responders.Keys - {w.a};
    ListingLength(others, l.responders.Keys - {w.a});
    DropsFit(c, others);
    II.AllAreDropped(c, others);
    NextNumber(l.responders[w.a].link, 1, w.a);
  }

  lemma {:induction false} NoBoxes(actions: seq<Action>, to: Address)
    requires forall k :: 0 <= k < |actions| && actions[k].Reply? ==> actions[k].box.nonce.destination != to
    ensures BoxesTo(actions, to) == []
  {
    if actions != [] { NoBoxes(actions[..|actions| - 1], to); }
  }

  /** Of all that a winning step sends, only the auth message goes to the responder. */
  lemma WinnerIsTold(actions: seq<Action>, to: Address)
    requires 2 <= |actions| && to != 0
    requires forall k :: 0 <= k < |actions| - 2 ==> actions[k].Reply? && actions[k].box.nonce.destination == 0
    requires actions[|actions| - 2].Reply? && actions[|actions| - 2].box.nonce.destination == to
    requires actions[|actions| - 1] == HandshakeDone
    ensures BoxesTo(actions, to) == [actions[|actions| - 2].box]
  {
    var front := actions[..|actions| - 1];
    NoBoxes(front[..|front| - 1], to);
    assert BoxesTo(front, to) == [actions[|actions| - 2].box];
  }

  /** With a shared task the initiator moves to the task phase and sends one auth message to the responder. */
  lemma Wins(w: Setup, l: I.Initiator, r: R.Responder, b: ByteBox, choice: Choice)
    requires Deciding(w, l, r, b) && choice.initOk && ChooseShared(w.iTasks, Names(w.rTasks)).Some?
    ensures var h := I.HandleHandshakePeer(l, b, choice);
            var t := ChooseShared(w.iTasks, Names(w.rTasks)).value;
            var boxes := if h.out.Ok? then BoxesTo(h.out.actions, w.a) else [];
            && h.out.Ok? && |boxes| == 1
            && II.AnswersWinner(l, l.responders[w.a], t, h.state, boxes[0])
  {
    hide I.HandleHandshakePeer;
    hide I.SelectWinner;
    hide II.Valid;
    hide II.AnswersWinner;
    hide II.Won;
    hide ResponderAuth;
    var t := ChooseShared(w.iTasks, Names(w.rTasks)).value;
    Decides(w, l, r, b, choice);
    WinnerFits(w, l, r, b, t, choice);
    II.WinnerIsAnswered(l, w.iTape, w.a, t, choice);
    var h := I.HandleHandshakePeer(l, b, choice);
    WonBoxes(l, w.a, t, choice, h.state, h.out.actions);
  }

  lemma WonBoxes(l: I.Initiator, a: Address, t: Task, choice: Choice, m: I.Initiator, actions: seq<Action>)
    requires a in l.responders && l.responders[a].address == a && a != 0 && II.Won(l, a, t, choice, m, actions)
    ensures |BoxesTo(actions, a)| == 1 && II.AnswersWinner(l, l.responders[a], t, m, BoxesTo(actions, a)[0])
  {
    hide II.ServerSent;
    hide BoxesTo;
    WinnerIsTold(actions, a);
  }

  lemma AuthArrives(w: Setup, p: Pair, choice: Choice)
    requires AuthSent(w, p) && choice.initOk && ShareTask(w.iTasks, w.rTasks)
    ensures AuthAnswered(w, Deliver(w, p, Delivery(true, choice)))
  {
    hide II.Valid;
    hide RI.Valid;
    hide I.HandleHandshakePeer;
    hide I.Next;
    hide NoDup;
    hide Names;
    hide ResponderAuth;
    hide Deciding;
    hide ShareTask;
    hide ChooseShared;
    hide BoxesTo;
    var b := p.toI[0];
    SharedTaskFound(w.iTasks, w.rTasks);
    DecisionComes(w, p, choice);
    Wins(w, ListenedI(w, p.i, b.nonce), p.r, b, choice);
    InitiatorStaysValid(p.i, w.iTape, Receive(b, choice));
  }

  /** Without a shared task the initiator reports the error and closes. */
  lemma Closes(w: Setup, l: I.Initiator, r: R.Responder, b: ByteBox, choice: Choice)
    requires Deciding(w, l, r, b) && choice.initOk && ChooseShared(w.iTasks, Names(w.rTasks)).None?
    ensures var c := l.responders[w.a];
            var n := Nonce(c.link.ourCookie, 1, w.a, After(c.link));
            && After(c.link).Number() == c.link.ourCsn.Number() + 1
            && I.HandleHandshakePeer(l, b, choice)
               == Step(II.TakenOut(l, w.a),
                       Ok([Reply(Seal(Encode(Close(NO_SHARED_TASK)), n, c.keypair, c.sessionKey.value)),
                           HandshakeError]))
  {
    hide After;
    hide Csn.Increment;
    hide I.HandleHandshakePeer;
    hide II.Valid;
    hide ResponderAuth;
    hide NextNonce;
    Decides(w, l, r, b, choice);
    NextNumber(l.responders[w.a].link, 1, w.a);
  }

  lemma NoTaskIsShared(w: Setup, p: Pair, choice: Choice)
    requires AuthSent(w, p) && choice.initOk && !ShareTask(w.iTasks, w.rTasks)
    ensures CloseSent(w, Deliver(w, p, Delivery(true, choice)))
  {
    hide After;
    hide Csn.Increment;
    hide II.Valid;
    hide RI.Valid;
    hide I.HandleHandshakePeer;
    hide I.Next;
    hide NoDup;
    hide Names;
    hide ResponderAuth;
    hide Deciding;
    hide ShareTask;
    hide ChooseShared;
    hide BoxesTo;
    var b := p.toI[0];
    SharedTaskFound(w.iTasks, w.rTasks);
    DecisionComes(w, p, choice);
    Closes(w, ListenedI(w, p.i, b.nonce), p.r, b, choice);
    InitiatorStaysValid(p.i, w.iTape, Receive(b, choice));
    var h := I.Next(p.i, w.iTape, Receive(b, choice));
    assert BoxesTo(h.out.actions, w.a) == [h.out.actions[0].box] by { TwoActions(h.out.actions, w.a); }
    assert h.out.actions[1] == HandshakeError;
  }

  lemma TwoActions(actions: seq<Action>, to: Address)
    requires |actions| == 2 && actions[0].Reply? && actions[0].box.nonce.destination == to && !actions[1].Reply?
    ensures BoxesTo(actions, to) == [actions[0].box]
  {
    assert actions[..1] == [actions[0]];
    OneBox(actions[0], to);
  }

  // ---------- The responder finishes ----------

  lemma AuthReturns(w: Setup, p: Pair, choice: Choice)
    requires AuthAnswered(w, p) && choice.initOk
    ensures Finished(w, Deliver(w, p, Delivery(false, choice)))
  {
    hide II.Valid;
    hide RI.Valid;
    hide R.Next;
    hide NoDup;
    hide Names;
    hide ShareTask;
    hide ChooseShared;
    hide BoxesTo;
    var b := p.toR[0];
    SharedTaskFound(w.iTasks, w.rTasks);
    ChoiceFits(w.iTasks, w.rTasks, p.r.initiator.link.ourCookie);
    ResponderListens(w, p, b, choice);
    OneBox(HandshakeDone, 1);
    ResponderStaysValid(p.r, w.rTape, Receive(b, choice));
  }

  lemma CloseArrives(w: Setup, p: Pair, choice: Choice)
    requires CloseSent(w, p)
    ensures Parted(w, Deliver(w, p, Delivery(false, choice)))
  {
    hide II.Valid;
    hide RI.Valid;
    hide R.Next;
    hide NoDup;
    hide Names;
    hide ShareTask;
    hide BoxesTo;
    ResponderListens(w, p, p.toR[0], choice);
  }

  // ---------- Every schedule ----------

  ghost predicate InitSucceeds(schedule: seq<Delivery>) {
    forall k :: 0 <= k < |schedule| ==> schedule[k].choice.initOk
  }

  /** A delivery either finds its queue empty and changes nothing, or is accepted and brings the end one step closer. */
  lemma DeliveryAdvances(w: Setup, p: Pair, left: nat, d: Delivery)
    requires Stage(w, p, left) && d.choice.initOk
    ensures Deliver(w, p, d) == p || (left > 0 && Stage(w, Deliver(w, p, d), left - 1))
  {
    hide TokenSent;
    hide KeySent;
    hide KeyAnswered;
    hide WillOpen;
    hide DidOpen;
    hide AuthSent;
    hide AuthAnswered;
    hide CloseSent;
    hide Finished;
    hide Parted;
    hide I.Next;
    hide R.Next;
    QueuesAtStage(w, p, left);
    match left
    case 0 => {}
    case 1 =>
      if !d.toInitiator {
        if AuthAnswered(w, p) { AuthReturns(w, p, d.choice); } else { CloseArrives(w, p, d.choice); }
      }
    case 2 =>
      if d.toInitiator {
        if ShareTask(w.iTasks, w.rTasks) { AuthArrives(w, p, d.choice); } else { NoTaskIsShared(w, p, d.choice); }
      }
    case 3 => if !d.toInitiator { KeyReturns(w, p, d.choice); }
    case 4 => if d.toInitiator { KeyArrives(w, p, d.choice); }
    case 5 => if d.toInitiator { TokenArrives(w, p, d.choice); }
  }

  lemma OverrunAdvances(w: Setup, p: Pair, left: nat, d: Delivery)
    requires Overrun(w, p, left)
    ensures Deliver(w, p, d) == p || (left > 0 && Overrun(w, Deliver(w, p, d), left - 1))
  {
    hide TokenSent;
    hide KeySent;
    hide KeyAnswered;
    hide Rejected;
    hide WillOpen;
    hide DidOpen;
    hide I.Next;
    hide R.Next;
    QueuesAtOverrun(w, p, left);
    match left
    case 0 => {}
    case 1 => if !d.toInitiator { KeyIsRefused(w, p, d.choice); }
    case 2 => if d.toInitiator { KeyArrives(w, p, d.choice); }
    case 3 => if d.toInitiator { TokenArrives(w, p, d.choice); }
  }

  lemma QueuesAtOverrun(w: Setup, p: Pair, left: nat)
    requires Overrun(w, p, left)
    ensures left <= 3
    ensures (p.toI == [] && p.toR == []) <==> left == 0
    ensures left == 1 ==> p.toI == []
    ensures left in {2, 3} ==> p.toR == []
    ensures p.iError.None? && (left > 0 ==> p.rError.None?)
    ensures p.i.common.phase.PeerHandshake? && p.r.common.phase.PeerHandshake?
  {
    hide II.Valid;
    hide RI.Valid;
  }

  /** At every stage one queue is empty; both are exactly when the exchange is over. */
  lemma QueuesAtStage(w: Setup, p: Pair, left: nat)
    requires Stage(w, p, left)
    ensures left <= 5
    ensures (p.toI == [] && p.toR == []) <==> left == 0
    ensures left in {1, 3} ==> p.toI == []
    ensures left in {2, 4, 5} ==> p.toR == []
  {
  }

  /** The number of deliveries of a schedule that found a message. */
  ghost function Effective(w: Setup, p: Pair, schedule: seq<Delivery>): nat
    decreases |schedule|
  {
    if schedule == [] then 0
    else
      var q := Deliver(w, p, schedule[0]);
      (if q == p then 0 else 1) + Effective(w, q, schedule[1..])
  }

  /**
   Progress: under every schedule every message is accepted and each brings the end one step closer; once nothing is on
   its way, both are in the task phase and agree if they share a task, and both have reported it if they do not.
   */
  lemma {:induction false} EverySchedule(w: Setup, p: Pair, left: nat, schedule: seq<Delivery>)
    requires Stage(w, p, left) && InitSucceeds(schedule)
    ensures var q := Run(w, p, schedule);
            var done := Effective(w, p, schedule);
            && done <= left && Stage(w, q, left - done)
            && (q.toI == [] && q.toR == [] <==> done == left)
            && (done == left ==> if ShareTask(w.iTasks, w.rTasks) then Finished(w, q) else Parted(w, q))
    decreases |schedule|
  {
    hide Stage;
    hide Deliver;
    if schedule == [] {
      QueuesAtStage(w, p, left);
      EndOfStage(w, p);
    } else {
      DeliveryAdvances(w, p, left, schedule[0]);
      var q := Deliver(w, p, schedule[0]);
      EverySchedule(w, q, if q == p then left else left - 1, schedule[1..]);
    }
  }

  lemma EndOfStage(w: Setup, p: Pair)
    ensures Stage(w, p, 0) ==> if ShareTask(w.iTasks, w.rTasks) then Finished(w, p) else Parted(w, p)
  {
  }

  lemma StageErrors(w: Setup, p: Pair, left: nat)
    requires Stage(w, p, left)
    ensures p.iError.None? && (p.rError.Some? ==> p.rError.value == NoSharedTaskFound && !ShareTask(w.iTasks, w.rTasks))
  {
  }
}
