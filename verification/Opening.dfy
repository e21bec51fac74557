/** How the exchange between two clients starts: what the server's last message makes the responder send. */
module Opening {
  import opened Basics
  import opened CombinedSequence
  import opened Messages
  import opened Boxes
  import opened Tasks
  import opened Contexts
  import opened Signaling
  import opened Progression
  import opened Progress
  import I = InitiatorProtocol
  import II = InitiatorInvariants
  import R = ResponderProtocol
  import RI = ResponderInvariants

  /** The initiator has just registered the responder, which has just learned that the initiator is there. */
  ghost predicate Ready(w: Setup, i: I.Initiator, r: R.Responder) {
    && II.Valid(i, w.iTape)
    && 2 <= w.a
    && i.common.phase.PeerHandshake? && i.common.identity.IsInitiator?
    && i.common.permanent == w.initiator && i.common.tasks == Some(w.iTasks)
    && w.a in i.responders
    && NothingHeard(i.responders[w.a].link) && i.responders[w.a].link.ourCsn.overflow == 0
    && i.common.server.link.ourCsn.Number() + |i.responders| < CSN_LIMIT
    && CanStart(w, r) && RoomForFirst(r.initiator.link)
    && w.rTasks != [] && NoDup(Names(w.rTasks))
    && i.responders[w.a].keypair != w.initiator && r.initiator.keypair != w.responder
    && i.responders[w.a].link.ourCookie != r.initiator.link.ourCookie
    && SameMode(w, i, r)
  }

  /** The responder's half: a new context and an identity to send from. */
  ghost predicate CanStart(w: Setup, r: R.Responder) {
    && RI.ReadyToStart(r, w.rTape) && RI.Valid(RI.Finished(r), w.rTape)
    && r.common.identity == IsResponder(w.a) && r.common.permanent == w.responder && r.common.tasks == Some(w.rTasks)
    && r.common.auth.Some?
    && r.initiator.permanentKey == w.initiator.Public() && r.initiator.handshake.InitiatorNew?
    && NothingHeard(r.initiator.link) && r.initiator.link.ourCsn.overflow == 0
  }

  /** Both go by the same unspent token, or both trust the other's permanent key. */
  ghost predicate SameMode(w: Setup, i: I.Initiator, r: R.Responder)
    requires w.a in i.responders
  {
    || (SpendableToken(i.common) && r.common.auth == i.common.auth)
    || (Trusted(r.common) && i.responders[w.a].handshake.TokenReceived?
        && i.responders[w.a].permanentKey == Some(w.responder.Public()))
  }

  /** The responder once it has started the peer handshake and the server handshake is over. */
  ghost function Opened(r: R.Responder): R.Responder {
    RI.Finished(R.StartPeerHandshake(r).state)
  }

  /** What starting puts on its way to the initiator. */
  ghost function OpeningBoxes(r: R.Responder): seq<ByteBox> {
    var h := R.StartPeerHandshake(r);
    if h.out.Ok? then BoxesTo(h.out.actions, 1) else []
  }

  lemma TokenOpens(w: Setup, r: R.Responder, token: AuthToken)
    requires r.initiator.link.ourCsn.overflow == 0 && r.common.identity == IsResponder(w.a)
    requires r.common.auth == Some(ByToken(token))
    requires r.common.permanent == w.responder && r.initiator.permanentKey == w.initiator.Public()
    ensures var h := R.StartPeerHandshake(r);
            var l := r.initiator.link.(ourCsn := After(r.initiator.link));
            var n := Nonce(l.ourCookie, w.a, 1, l.ourCsn);
            var m := Nonce(l.ourCookie, w.a, 1, After(l));
            && (n.csn.overflow == 0 <==> RoomForFirst(r.initiator.link))
            && n.csn.Less(m.csn) && m.csn.Number() < 0x2_0000_0000
            && h == Step(r.(common := r.common.(auth := None),
                            initiator := r.initiator.(handshake := IKeySent, link := l.(ourCsn := m.csn))),
                         Ok([Reply(SealWithToken(Token(w.responder.Public()), n, token))]
                            + [Reply(Seal(Encode(Key(r.initiator.keypair.Public())), m, w.responder,
                                          w.initiator.Public()))]))
  {
  }

  lemma KeyOpens(w: Setup, r: R.Responder)
    requires r.initiator.link.ourCsn.overflow == 0 && r.common.identity == IsResponder(w.a) && Trusted(r.common)
    requires r.common.permanent == w.responder && r.initiator.permanentKey == w.initiator.Public()
    ensures var h := R.StartPeerHandshake(r);
            var m := Nonce(r.initiator.link.ourCookie, w.a, 1, After(r.initiator.link));
            && (m.csn.overflow == 0 <==> RoomForFirst(r.initiator.link)) && m.csn.Number() < 0x2_0000_0000
            && h.state == r.(initiator :=
                             r.initiator.(handshake := IKeySent, link := r.initiator.link.(ourCsn := m.csn)))
            && h.out == Ok([Reply(Seal(Encode(Key(r.initiator.keypair.Public())), m, w.responder,
                                       w.initiator.Public()))])
  {
  }

  /** The nonce of the first message in a context with this draw. */
  ghost function FirstNonce(d: Draw, a: Address): Nonce {
    Nonce(d.cookie, a, 1, After(FreshLink(d)))
  }

  /** A responder that can start does start. */
  lemma StartSucceeds(w: Setup, r: R.Responder)
    requires CanStart(w, r)
    ensures R.StartPeerHandshake(r).out.Ok?
    ensures RI.Valid(Opened(r), w.rTape) && Opened(r).common.server.link == r.common.server.link
    ensures Opened(r).common.server == r.common.server.(handshake := ServerDone)
  {
    hide R.StartPeerHandshake;
    hide After;
    hide RI.Authored;
    hide RI.SpendsToken;
    if SpendableToken(r.common) { TokenOpens(w, r, r.common.auth.value.token); } else { KeyOpens(w, r); }
    RI.StartSteps(r, w.rTape);
  }

  /** A server-auth message that reports the initiator as connected starts the exchange. */
  lemma ServerAuthOpens(w: Setup, r: R.Responder, m: Message, nonce: Nonce)
    requires CanStart(w, r) && r.common.phase.ServerHandshake? && m.ServerAuth?
    requires CheckServerAuth(r.common, m, nonce).None? && m.responders.None? && m.initiatorConnected == Some(true)
    ensures var h := R.HandleServerAuth(r, m, nonce);
            h.out.Ok? && h.state == Opened(r) && BoxesTo(h.out.actions, 1) == OpeningBoxes(r)
  {
    hide CheckServerAuth;
    hide R.SendToken;
    hide R.SendKey;
    hide RI.Valid;
    StartSucceeds(w, r);
    var s := R.StartPeerHandshake(r);
    StartKeepsPhase(r);
    var all := s.out.actions + [Notify(ServerHandshakeDone(true))];
    assert all[..|all| - 1] == s.out.actions;
  }

  lemma StartKeepsPhase(r: R.Responder)
    ensures R.StartPeerHandshake(r).state.common.phase == r.common.phase
    ensures R.StartPeerHandshake(r).state.common.server == r.common.server
  {
  }

  /** So does a new-initiator message, in a new context. */
  lemma NewInitiatorOpens(w: Setup, r: R.Responder)
    requires CanStart(w, RI.Restarted(r, w.rTape)) && r.common.phase.PeerHandshake?
    requires r.common.server.handshake.ServerDone?
    ensures var h := R.HandleNewInitiator(r, w.rTape);
            && h.out.Ok? && h.state == Opened(RI.Restarted(r, w.rTape))
            && BoxesTo(h.out.actions, 1) == OpeningBoxes(RI.Restarted(r, w.rTape))
  {
    hide R.StartPeerHandshake;
    hide RI.Valid;
    StartSucceeds(w, RI.Restarted(r, w.rTape));
    StartKeepsPhase(RI.Restarted(r, w.rTape));
  }

  /**
   With a ready initiator, a token run is then five messages from the end and a trusted one four; if the initiator's
   first number is not fit for a first message, two less, and the end is another.
   */
  lemma OpeningIsStaged(w: Setup, i: I.Initiator, r: R.Responder, p: Pair)
    requires Ready(w, i, r)
    requires p.i == i && p.r == Opened(r) && p.toI == OpeningBoxes(r) && p.toR == [] && p.iError.None? && p.rError.None?
    ensures var left := if SpendableToken(r.common) then 5 else 4;
            if WillOpen(w, p) then Stage(w, p, left) else Overrun(w, p, left - 2)
  {
    hide R.StartPeerHandshake;
    hide BoxesTo;
    hide II.Valid;
    hide RI.Valid;
    hide NoDup;
    hide Names;
    hide After;
    II.MapGives(i, w.iTape, w.a);
    StartSucceeds(w, r);
    if SpendableToken(r.common) {
      TokenOpens(w, r, r.common.auth.value.token);
      TwoBoxes(R.StartPeerHandshake(r).out.actions, 1);
      NewIsSilent(i, w.iTape, w.a);
    } else {
      KeyOpens(w, r);
      OneBox(R.StartPeerHandshake(r).out.actions[0], 1);
    }
  }

  lemma TwoBoxes(actions: seq<Action>, to: Address)
    requires |actions| == 2 && actions[0].Reply? && actions[1].Reply?
    requires actions[0].box.nonce.destination == actions[1].box.nonce.destination == to
    ensures BoxesTo(actions, to) == [actions[0].box, actions[1].box]
  {
    assert actions[..1] == [actions[0]];
    OneBox(actions[0], to);
  }

  /** While the token is unspent every context is in its initial state. */
  lemma NewIsSilent(i: I.Initiator, tape: Tape, a: Address)
    requires II.Valid(i, tape) && SpendableToken(i.common) && a in i.responders
    ensures i.responders[a].handshake.ResponderNew?
  {
  }
}
