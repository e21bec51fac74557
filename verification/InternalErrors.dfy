/** Internal errors that runs of created clients do come to. */
module InternalErrors {
  import opened Basics
  import opened CombinedSequence
  import opened Messages
  import opened Boxes
  import opened Contexts
  import opened Meeting
  import opened Progression
  import opened Signaling
  import A = Agreement
  import I = InitiatorProtocol
  import II = InitiatorInvariants
  import IR = InitiatorRuns
  import P = Progress
  import R = ResponderProtocol
  import Reachability
  import RI = ResponderInvariants

  // ---------- A second newcomer after the token was used ----------

  /** The first message of a responder: numbered from the start, with a cookie that is not the one it was given. */
  ghost predicate Introduces(n: Nonce, from: Address, i: I.Initiator) {
    && n.source == from && n.destination == 1 && n.csn.overflow == 0
    && (from in i.responders ==> n.cookie != i.responders[from].link.ourCookie)
  }

  /** The initiator once it has the list of responders. */
  ghost function Told(m: Path, choice: Choice): IR.History {
    IR.Run(IR.Start(CreatedInitiator(m)), m.w.iTape,
           [Receive(ToInitiator(m)[0], choice), Receive(ToInitiator(m)[1], choice)])
  }

  /** The first message of a registered responder gets through to the peer handler. */
  lemma NewcomerIsHeard(i: I.Initiator, tape: Tape, b: ByteBox, a: Address, choice: Choice)
    requires II.Valid(i, tape) && i.common.phase.PeerHandshake? && i.common.identity.IsInitiator?
    requires a in i.responders && 2 <= a && Introduces(b.nonce, a, i)
    requires i.responders[a].link == FreshLink(tape(i.responders[a].counter))
    ensures var c := i.responders[a];
            I.Next(i, tape, Receive(b, choice))
            == I.HandleHandshakePeer(i.(responders := i.responders[a := c.(link := P.Heard(c.link, b.nonce))]), b,
                                     choice)
  {
    hide Admit;
    hide I.HandleHandshakePeer;
    hide II.Valid;
    P.AdmitsExactly(i.responders[a].link, b.nonce);
  }

  /** The initiator after it has taken the token of the first newcomer. */
  ghost predicate TokenTaken(m: Path, i: I.Initiator, x: Address) {
    && II.Valid(i, m.w.iTape)
    && i.common.phase.PeerHandshake? && i.common.identity.IsInitiator? && i.common.auth.None?
    && x in i.responders && i.responders[x].handshake.ResponderNew?
    && i.responders[x].link == FreshLink(m.w.iTape(i.responders[x].counter))
  }

  lemma TokenIsTaken(m: Path, i: I.Initiator, x: Address, key: PublicKey, first: ByteBox, choice: Choice)
    requires InitiatorOnPath(m, i) && SpendableToken(i.common) && 2 <= m.w.a
    requires m.w.a in i.responders && x in i.responders && x != m.w.a
    requires Introduces(first.nonce, m.w.a, i)
    requires first == SealWithToken(Token(key), first.nonce, i.common.auth.value.token)
    ensures var h := I.Next(i, m.w.iTape, Receive(first, choice));
            h.out.Ok? && TokenTaken(m, h.state, x) && h.state.responders[x] == i.responders[x]
  {
    hide I.Next;
    hide I.HandleHandshakePeer;
    hide II.Valid;
    StillNew(i, m.w.iTape, m.w.a);
    StillNew(i, m.w.iTape, x);
    NewcomerIsHeard(i, m.w.iTape, first, m.w.a, choice);
    var c := i.responders[m.w.a];
    var heard := i.(responders := i.responders[m.w.a := c.(link := P.Heard(c.link, first.nonce))]);
    P.TokenIsTaken(m.w.(responder := KeyPair(key.id)), heard, first, choice);
    P.InitiatorStaysValid(i, m.w.iTape, Receive(first, choice));
  }

  lemma StillNew(i: I.Initiator, tape: Tape, a: Address)
    requires II.Valid(i, tape) && SpendableToken(i.common) && a in i.responders && !i.responders[a].handshake.RKeySent?
    ensures i.responders[a].handshake.ResponderNew? && i.responders[a].permanentKey.None?
  {
  }

  lemma SecondNewcomerFails(m: Path, i: I.Initiator, x: Address, second: ByteBox, choice: Choice)
    requires TokenTaken(m, i, x) && 2 <= x && Introduces(second.nonce, x, i)
    ensures I.Next(i, m.w.iTape, Receive(second, choice)).out == Err(Crash(NewWithoutAuthProvider))
  {
    hide II.Valid;
    hide I.Next;
    NewcomerIsHeard(i, m.w.iTape, second, x, choice);
  }

  /**
   Whenever two responders were there before an initiator with a token, and one of them has used it, whatever the other
   says first stops the initiator with an internal error.
   */
  lemma SpentTokenStopsInitiator(m: Path, x: Address, key: PublicKey, first: ByteBox, second: ByteBox, choice: Choice)
    requires Fits(m) && m.token.Some? && !m.initiatorFirst && Uncrowded(m) && x in m.listed && x != m.w.a
    requires Introduces(first.nonce, m.w.a, Told(m, choice).state)
    requires first == SealWithToken(Token(key), first.nonce, m.token.value)
    requires Introduces(second.nonce, x, Told(m, choice).state)
    ensures var h := IR.Extend(Told(m, choice), m.w.iTape, Receive(first, choice));
            && Told(m, choice).live && h.live
            && I.Next(h.state, m.w.iTape, Receive(second, choice)).out == Err(Crash(NewWithoutAuthProvider))
  {
    hide I.Next;
    hide II.Valid;
    hide IR.AcceptsToken;
    hide IR.HearingOf;
    hide InitiatorGreeted;
    hide InitiatorOnPath;
    hide Registers;
    hide RegistersAt;
    hide FreshDraws;
    hide Quietly;
    var server := ToInitiator(m);
    HelloReachesInitiator(m, choice);
    var s1 := I.Next(CreatedInitiator(m), m.w.iTape, Receive(server[0], choice)).state;
    AuthReachesInitiator(m, s1, choice);
    var s2 := I.Next(s1, m.w.iTape, Receive(server[1], choice)).state;
    RunOfTwo(IR.Start(CreatedInitiator(m)), m.w.iTape, Receive(server[0], choice), Receive(server[1], choice));
    ListedRegister(m, choice, x);
    ListedRegister(m, choice, m.w.a);
    SameToken(m, s2);
    TokenIsTaken(m, s2, x, key, first, choice);
    SecondNewcomerFails(m, I.Next(s2, m.w.iTape, Receive(first, choice)).state, x, second, choice);
  }

  lemma SameToken(m: Path, i: I.Initiator)
    requires InitiatorOnPath(m, i) && m.token.Some?
    ensures SpendableToken(i.common) && i.common.auth.value.token == m.token.value
  {
  }

  lemma RunOfTwo(h: IR.History, tape: Tape, one: Input, two: Input)
    requires h.live && I.Next(h.state, tape, one).out.Ok?
    ensures IR.Run(h, tape, [one, two]) == IR.Extend(IR.Extend(h, tape, one), tape, two)
  {
    hide I.Next;
    var g := IR.Extend(h, tape, one);
    assert [one, two][1..] == [two] && [two][1..] == [];
    assert IR.Run(g, tape, [two]) == IR.Run(IR.Extend(g, tape, two), tape, []);
  }

  // ---------- A running task behind a context that was reset ----------

  /**
   In the task phase without a session key, neither a first message of the initiator nor one of the task gets
   through.
   */
  lemma ResetStopsResponder(r: R.Responder, tape: Tape, input: Input)
    requires RI.Valid(r, tape) && Reachability.Reset(r)
    requires input.Receive? ==>
               var n := input.box.nonce;
               && n.source == 1 && n.destination == AddressOf(r.common.identity)
               && n.csn.overflow == 0 && n.cookie != r.initiator.link.ourCookie
    ensures R.Next(r, tape, input).out == Err(Crash(PeerSessionKeyNotSet))
  {
    hide R.Next;
    RI.CrashesOnlyByCause(r, tape, input);
    if input.Receive? { P.AdmitsExactly(r.initiator.link, input.box.nonce); }
  }

  /** Once a report of a new initiator has reset it, the responder stops at its next step with the peer. */
  lemma NewsStopsResponder(m: Path, known: iset<nat>, choice: Choice) returns (moves: seq<A.Move>, b: ByteBox)
    requires Reachability.Completes(m) && Reachability.RelayIsServer(m, known)
    requires m.token.None? && m.toR.news.Number() + 1 < CSN_LIMIT
    ensures A.Initial(Reachability.WorldOf(m, known), Reachability.Beginning(m))
    ensures A.Forgeable(Reachability.WorldOf(m, known), b)
    ensures var r := A.Run(Reachability.WorldOf(m, known), Reachability.Beginning(m), moves).r;
            && r.common.phase.TaskPhase?
            && R.Next(r, m.w.rTape, Receive(b, choice)).out == Err(Crash(PeerSessionKeyNotSet))
            && forall input: Input :: !input.Receive? ==>
               R.Next(r, m.w.rTape, input).out == Err(Crash(PeerSessionKeyNotSet))
  {
    hide A.Secret;
    hide A.Agree;
    hide A.Take;
    hide A.OnWire;
    hide A.Answered;
    hide RI.Valid;
    hide R.Next;
    hide Fits;
    var w, s := Reachability.WorldOf(m, known), Reachability.Beginning(m);
    var before, news := Reachability.AgreementIsLost(m, known, choice);
    moves := before + [A.ResponderMoves(Receive(news, choice))];
    Reachability.RunsJoin(w, s, before, [A.ResponderMoves(Receive(news, choice))]);
    Reachability.OneMove(w, A.Run(w, s, before), A.ResponderMoves(Receive(news, choice)));
    A.InitialHolds(w, s);
    A.RunKeeps(w, s, moves);
    var r := A.Run(w, s, moves).r;
    var cookie := AnotherCookie(r.initiator.link.ourCookie);
    b := ByteBox(Clear(Plain(None, None)), Nonce(cookie, 1, AddressOf(r.common.identity), Csn(0, 0)));
    ResetStopsResponder(r, m.w.rTape, Receive(b, choice));
    forall input: Input | !input.Receive? ensures R.Next(r, m.w.rTape, input).out == Err(Crash(PeerSessionKeyNotSet)) {
      ResetStopsResponder(r, m.w.rTape, input);
    }
  }

  lemma AnotherCookie(cookie: Cookie) returns (other: Cookie)
    ensures other != cookie
  {
    var zeros, ones := Reachability.Repeated(0), Reachability.Repeated(1);
    assert zeros[0] != ones[0];
    other := if zeros == cookie then ones else zeros;
  }
}
