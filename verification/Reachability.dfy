/** What the clients reach, the hostile relay allows: sessions over an honest server are runs of the relayed system. */
module Reachability {
  import opened Basics
  import opened CombinedSequence
  import opened Messages
  import opened Boxes
  import opened Tasks
  import opened Negotiation
  import opened Contexts
  import opened Progression
  import opened Meeting
  import A = Agreement
  import I = InitiatorProtocol
  import II = InitiatorInvariants
  import IR = InitiatorRuns
  import Opening
  import P = Progress
  import R = ResponderProtocol
  import RI = ResponderInvariants
  import RR = ResponderRuns
  import Session

  /** The world of a path, as seen by a relay that knows the given secrets. */
  ghost function WorldOf(m: Path, known: iset<nat>): A.World {
    A.World(m.w.iTape, m.w.rTape, m.w.initiator, m.w.responder,
            if m.token.Some? then m.token.value else AuthToken(0), known)
  }

  ghost function Beginning(m: Path): A.System {
    A.System(CreatedInitiator(m), CreatedResponder(m), {})
  }

  /** The relay is the server: it knows the session keys the clients are greeted with, and none of theirs. */
  ghost predicate RelayIsServer(m: Path, known: iset<nat>) {
    && m.toI.session.id in known && m.toR.session.id in known
    && A.Secret(WorldOf(m, known))
  }

  lemma BeginningIsInitial(m: Path, known: iset<nat>)
    ensures A.Initial(WorldOf(m, known), Beginning(m))
  {
    assert IR.Created(CreatedInitiator(m));
    assert RR.Created(CreatedResponder(m), m.w.rTape);
  }

  // ---------- Deliveries are moves ----------

  /** Same clients, and whatever is queued the relay can deliver. */
  ghost predicate Mirrors(w: A.World, s: A.System, p: P.Pair) {
    && s.i == p.i && s.r == p.r
    && (forall k :: 0 <= k < |p.toI| ==> A.Deliverable(w, s.net, p.toI[k]))
    && (forall k :: 0 <= k < |p.toR| ==> A.Deliverable(w, s.net, p.toR[k]))
  }

  lemma StartMirrors(m: Path, known: iset<nat>)
    requires m.toI.session.id in known && m.toR.session.id in known
    ensures Mirrors(WorldOf(m, known), Beginning(m), Start(m))
  {
  }

  lemma {:induction false} BoxesAreSent(actions: seq<Action>, to: Address, b: ByteBox)
    requires b in P.BoxesTo(actions, to)
    ensures b in A.Sent(actions)
  {
    var front, last := actions[..|actions| - 1], actions[|actions| - 1];
    if b in P.BoxesTo(front, to) {
      BoxesAreSent(front, to, b);
    } else {
      assert last in actions && last.Reply? && last.box == b;
    }
  }

  lemma QueueStaysDeliverable(w: A.World, net: set<ByteBox>, queue: seq<ByteBox>, actions: seq<Action>, to: Address,
                              all: seq<ByteBox>)
    requires forall k :: 0 <= k < |queue| ==> A.Deliverable(w, net, queue[k])
    requires all == queue + P.BoxesTo(actions, to)
    ensures forall k :: 0 <= k < |all| ==> A.Deliverable(w, net + A.Sent(actions), all[k])
  {
    hide P.BoxesTo;
    hide A.Sent;
    hide A.Forgeable;
    forall k | 0 <= k < |all| ensures A.Deliverable(w, net + A.Sent(actions), all[k]) {
      if k < |queue| {
        assert A.Deliverable(w, net, queue[k]);
      } else {
        BoxesAreSent(actions, to, all[k]);
      }
    }
  }

  lemma DeliveryToInitiator(m: Path, w: A.World, s: A.System, p: P.Pair, choice: Choice)
    requires w.initiatorTape == m.w.iTape && Mirrors(w, s, p) && p.toI != [] && p.iError.None?
    requires P.Deliver(m.w, p, P.Delivery(true, choice)).iError.None?
    ensures Mirrors(w, A.Take(w, s, A.InitiatorMoves(Receive(p.toI[0], choice))),
                    P.Deliver(m.w, p, P.Delivery(true, choice)))
  {
    hide I.Next;
    hide P.BoxesTo;
    hide A.Deliverable;
    hide A.Sent;
    assert A.Deliverable(w, s.net, p.toI[0]);
    var actions := I.Next(p.i, m.w.iTape, Receive(p.toI[0], choice)).out.actions;
    forall k | 0 <= k < |p.toI[1..]| ensures A.Deliverable(w, s.net, p.toI[1..][k]) {
      assert p.toI[1..][k] == p.toI[k + 1];
    }
    StaysDeliverable(w, s.net, p.toI[1..], A.Sent(actions));
    var q := P.Deliver(m.w, p, P.Delivery(true, choice));
    QueueStaysDeliverable(w, s.net, p.toR, actions, m.w.a, q.toR);
  }

  lemma DeliveryToResponder(m: Path, w: A.World, s: A.System, p: P.Pair, choice: Choice)
    requires w.responderTape == m.w.rTape && Mirrors(w, s, p) && p.toR != [] && p.rError.None?
    requires P.Deliver(m.w, p, P.Delivery(false, choice)).rError.None?
    ensures Mirrors(w, A.Take(w, s, A.ResponderMoves(Receive(p.toR[0], choice))),
                    P.Deliver(m.w, p, P.Delivery(false, choice)))
  {
    hide R.Next;
    hide P.BoxesTo;
    hide A.Deliverable;
    hide A.Sent;
    assert A.Deliverable(w, s.net, p.toR[0]);
    var actions := R.Next(p.r, m.w.rTape, Receive(p.toR[0], choice)).out.actions;
    forall k | 0 <= k < |p.toR[1..]| ensures A.Deliverable(w, s.net, p.toR[1..][k]) {
      assert p.toR[1..][k] == p.toR[k + 1];
    }
    StaysDeliverable(w, s.net, p.toR[1..], A.Sent(actions));
    var q := P.Deliver(m.w, p, P.Delivery(false, choice));
    QueueStaysDeliverable(w, s.net, p.toI, actions, 1, q.toI);
  }

  /** A delivery that is accepted is a move of the relayed system; one that finds nothing is none. */
  lemma DeliveryIsMove(m: Path, w: A.World, s: A.System, p: P.Pair, d: P.Delivery) returns (moves: seq<A.Move>)
    requires w.initiatorTape == m.w.iTape && w.responderTape == m.w.rTape && Mirrors(w, s, p)
    requires p.iError.None? && p.rError.None?
    requires P.Deliver(m.w, p, d).iError.None? && P.Deliver(m.w, p, d).rError.None?
    ensures Mirrors(w, A.Run(w, s, moves), P.Deliver(m.w, p, d))
  {
    hide I.Next;
    hide R.Next;
    hide Mirrors;
    hide A.Take;
    if d.toInitiator && p.toI != [] {
      moves := [A.InitiatorMoves(Receive(p.toI[0], d.choice))];
      DeliveryToInitiator(m, w, s, p, d.choice);
      OneMove(w, s, moves[0]);
    } else if !d.toInitiator && p.toR != [] {
      moves := [A.ResponderMoves(Receive(p.toR[0], d.choice))];
      DeliveryToResponder(m, w, s, p, d.choice);
      OneMove(w, s, moves[0]);
    } else {
      moves := [];
    }
  }

  lemma StaysDeliverable(w: A.World, net: set<ByteBox>, queue: seq<ByteBox>, more: set<ByteBox>)
    requires forall k :: 0 <= k < |queue| ==> A.Deliverable(w, net, queue[k])
    ensures forall k :: 0 <= k < |queue| ==> A.Deliverable(w, net + more, queue[k])
  {
    hide A.Forgeable;
    forall k | 0 <= k < |queue| ensures A.Deliverable(w, net + more, queue[k]) {
      assert A.Deliverable(w, net, queue[k]);
    }
  }

  lemma OneMove(w: A.World, s: A.System, move: A.Move)
    ensures A.Run(w, s, [move]) == A.Take(w, s, move)
  {
    assert [move][1..] == [];
  }

  lemma {:induction false} RunsJoin(w: A.World, s: A.System, first: seq<A.Move>, second: seq<A.Move>)
    ensures A.Run(w, s, first + second) == A.Run(w, A.Run(w, s, first), second)
    decreases |first|
  {
    if first == [] {
      assert first + second == second;
    } else {
      assert (first + second)[1..] == first[1..] + second;
      RunsJoin(w, A.Take(w, s, first[0]), first[1..], second);
    }
  }

  lemma {:induction false} ErrorsStay(w: P.Setup, p: P.Pair, schedule: seq<P.Delivery>)
    ensures var q := P.Run(w, p, schedule);
            (q.iError.None? ==> p.iError.None?) && (q.rError.None? ==> p.rError.None?)
    decreases |schedule|
  {
    hide I.Next;
    hide R.Next;
    if schedule != [] { ErrorsStay(w, P.Deliver(w, p, schedule[0]), schedule[1..]); }
  }

  lemma {:induction false} ScheduleIsRun(m: Path, w: A.World, s: A.System, p: P.Pair, schedule: seq<P.Delivery>)
    returns (moves: seq<A.Move>)
    requires w.initiatorTape == m.w.iTape && w.responderTape == m.w.rTape && Mirrors(w, s, p)
    requires p.iError.None? && p.rError.None?
    requires P.Run(m.w, p, schedule).iError.None? && P.Run(m.w, p, schedule).rError.None?
    ensures Mirrors(w, A.Run(w, s, moves), P.Run(m.w, p, schedule))
    decreases |schedule|
  {
    hide P.Deliver;
    hide Mirrors;
    if schedule == [] {
      moves := [];
    } else {
      var q := P.Deliver(m.w, p, schedule[0]);
      ErrorsStay(m.w, q, schedule[1..]);
      var first := DeliveryIsMove(m, w, s, p, schedule[0]);
      var rest := ScheduleIsRun(m, w, A.Run(w, s, first), q, schedule[1..]);
      RunsJoin(w, s, first, rest);
      moves := first + rest;
    }
  }

  // ---------- Reaching agreement, and losing it ----------

  /** A path on which the task phase is within reach. */
  ghost predicate Completes(m: Path) {
    Fits(m) && Audible(m) && CanAnswer(m) && ShareTask(m.w.iTasks, m.w.rTasks)
  }

  /** The relayed system reaches agreement: there are runs in which both clients are in the task phase. */
  lemma AgreementIsReached(m: Path, known: iset<nat>) returns (moves: seq<A.Move>)
    requires Completes(m) && RelayIsServer(m, known)
    ensures A.Initial(WorldOf(m, known), Beginning(m))
    ensures var t := A.Run(WorldOf(m, known), Beginning(m), moves);
            && t.i.common.phase.TaskPhase? && t.r.common.phase.TaskPhase? && A.Agree(t.i, t.r)
            && ServerHeardOut(m, t.r.common)
  {
    hide Fits;
    hide P.Deliver;
    hide A.Agree;
    hide A.Secret;
    hide ServerHeardOut;
    BeginningIsInitial(m, known);
    StartMirrors(m, known);
    var schedule := Session.CanComplete(m);
    moves := ScheduleIsRun(m, WorldOf(m, known), Beginning(m), Start(m), schedule);
  }

  /** The server's report of a new initiator, numbered after everything it has said so far. */
  function NewsOfInitiator(m: Path, r: R.Responder, csn: Csn): ByteBox {
    ServerBox(m.toR, m.w.responder, AddressOf(r.common.identity), csn, NewInitiator)
  }

  /** Such a report is admitted and handled, whether or not the task phase has begun. */
  lemma NewsIsAdmitted(m: Path, r: R.Responder, csn: Csn, choice: Choice)
    requires RI.Valid(r, m.w.rTape) && !r.common.phase.ServerHandshake? && r.common.permanent == m.w.responder
    requires ServerHeardOut(m, r.common) && m.toR.auth.Less(csn) && m.toR.news.Less(csn)
    ensures var t := ServerHeardR(r, NewsOfInitiator(m, r, csn).nonce);
            && RI.Valid(t, m.w.rTape) && t.common.identity.IsResponder?
            && t == r.(common := r.common.(server := t.common.server))
            && R.Next(r, m.w.rTape, Receive(NewsOfInitiator(m, r, csn), choice)) == R.HandleNewInitiator(t, m.w.rTape)
  {
    hide R.Next;
    hide R.HandleNewInitiator;
    ResponderHearsServer(r, m.w.rTape, NewsOfInitiator(m, r, csn), choice);
  }

  /** It makes a responder with a trusted key start over with one message in a new context. */
  lemma RestartSends(m: Path, t: R.Responder)
    requires Trusted(t.common) && t.common.identity.IsResponder?
    requires t.common.permanent == m.w.responder && t.initiator.permanentKey == m.w.initiator.Public()
    ensures var h := R.HandleNewInitiator(t, m.w.rTape);
            && h.out.Ok? && |h.out.actions| == 1 && h.out.actions[0].Reply?
            && h.out.actions[0].box.nonce == Opening.FirstNonce(m.w.rTape(t.draws), t.common.identity.address)
            && (t.common.phase.TaskPhase? ==> Reset(h.state))
  {
    hide R.StartPeerHandshake;
    hide P.After;
    Opening.KeyOpens(m.w.(a := t.common.identity.address), RI.Restarted(t, m.w.rTape));
  }

  lemma NewsRestarts(m: Path, r: R.Responder, csn: Csn, choice: Choice)
    requires RI.Valid(r, m.w.rTape) && !r.common.phase.ServerHandshake? && Trusted(r.common)
    requires r.common.permanent == m.w.responder && r.initiator.permanentKey == m.w.initiator.Public()
    requires ServerHeardOut(m, r.common) && m.toR.auth.Less(csn) && m.toR.news.Less(csn)
    ensures var t := ServerHeardR(r, NewsOfInitiator(m, r, csn).nonce);
            var h := R.HandleNewInitiator(t, m.w.rTape);
            && RI.Valid(t, m.w.rTape) && t.common.phase == r.common.phase
            && R.Next(r, m.w.rTape, Receive(NewsOfInitiator(m, r, csn), choice)) == h
            && h.out.Ok? && |h.out.actions| == 1 && h.out.actions[0].Reply?
            && h.out.actions[0].box.nonce == Opening.FirstNonce(m.w.rTape(r.draws), AddressOf(r.common.identity))
            && (r.common.phase.TaskPhase? ==> Reset(h.state))
  {
    hide R.Next;
    hide R.HandleNewInitiator;
    hide RI.Valid;
    hide ServerHeardR;
    hide ServerHeardOut;
    hide NewsOfInitiator;
    hide Opening.FirstNonce;
    hide Reset;
    NewsIsAdmitted(m, r, csn, choice);
    RestartSends(m, ServerHeardR(r, NewsOfInitiator(m, r, csn).nonce));
  }

  /**
   Agreement is lost: in every such world, a run that reached it goes on with a message the relay can forge, and the
   responder is still in the task phase but no longer agrees.
   */
  lemma AgreementIsLost(m: Path, known: iset<nat>, choice: Choice) returns (moves: seq<A.Move>, b: ByteBox)
    requires Completes(m) && RelayIsServer(m, known)
    requires m.token.None? && m.toR.news.Number() + 1 < CSN_LIMIT
    ensures A.Initial(WorldOf(m, known), Beginning(m)) && A.Forgeable(WorldOf(m, known), b)
    ensures LosesAgreement(WorldOf(m, known), A.Run(WorldOf(m, known), Beginning(m), moves),
                           A.ResponderMoves(Receive(b, choice)))
  {
    hide R.Next;
    hide A.Secret;
    hide A.Agree;
    hide A.OnWire;
    hide A.Answered;
    hide RI.Valid;
    hide ServerHeardOut;
    hide R.HandleNewInitiator;
    hide Reset;
    moves := AgreementIsReached(m, known);
    var w := WorldOf(m, known);
    A.InitialHolds(w, Beginning(m));
    A.RunKeeps(w, Beginning(m), moves);
    A.ProviderStays(w, Beginning(m), moves);
    var t := A.Run(w, Beginning(m), moves);
    var csn := m.toR.news.Increment().value;
    b := NewsOfInitiator(m, t.r, csn);
    NewsRestarts(m, t.r, csn, choice);
    A.NewInitiatorEndsAgreement(t.i, ServerHeardR(t.r, b.nonce), m.w.rTape);
  }

  // ---------- What the tasks must not do ----------

  /** An auth message of the initiator's shape, for another task. */
  function Imitation(cookie: Cookie, name: string): Message {
    AuthMsg(Auth(cookie, None, Some(name), map[name := None]))
  }

  /**
   The initiator's task sends a value that reads as an auth message for the named task. It overtakes what is on its way,
   the responder takes it for the auth message it waits for, and both are in the task phase without agreeing.
   */
  ghost predicate Divides(w: P.Setup, p: P.Pair, value: Value, name: string, choice: Choice) {
    var input := SendTask(value, Some(Imitation(p.r.initiator.link.ourCookie, name)));
    var said := I.Next(p.i, w.iTape, input);
    && II.Imitates(p.i, input)
    && said.out.Ok? && |said.out.actions| == 1 && said.out.actions[0].Reply?
    && var heard := R.Next(p.r, w.rTape, Receive(said.out.actions[0].box, choice));
    && heard.out.Ok? && heard.state.common.phase.TaskPhase? && said.state.common.phase.TaskPhase?
    && !A.Agree(said.state, heard.state)
  }

  lemma ImitationDivides(w: P.Setup, p: P.Pair, value: Value, name: string, choice: Choice)
    requires P.AuthAnswered(w, p) && choice.initOk && name in Names(w.rTasks) && name != p.i.common.task.value.name
    ensures Divides(w, p, value, name, choice)
  {
    hide RI.Valid;
    hide II.Valid;
    hide Csn.Increment;
    hide Names;
    hide FindTask;
    hide R.Next;
    var m := Imitation(p.r.initiator.link.ourCookie, name);
    var b := I.Next(p.i, w.iTape, SendTask(value, Some(m))).out.actions[0].box;
    P.ResponderListens(w, p, b, choice);
    FindTaskFinds(w.rTasks, name);
  }

  /**
   Why agreement asks that tasks do not imitate auth messages: whenever the responder knows two tasks, a run of two
   created clients leads to a point where such a value divides them.
   */
  lemma ImitationIsPossible(m: Path, value: Value, choice: Choice) returns (schedule: seq<P.Delivery>, name: string)
    requires Completes(m) && choice.initOk && |m.w.rTasks| >= 2
    ensures P.InitSucceeds(schedule) && Divides(m.w, P.Run(m.w, Start(m), schedule), value, name, choice)
  {
    hide P.AuthAnswered;
    hide P.Deliver;
    hide Divides;
    hide FreshDraws;
    hide GoodList;
    schedule := AuthCanBeAnswered(m);
    var p := P.Run(m.w, Start(m), schedule);
    name := AnotherName(m.w, p);
    ImitationDivides(m.w, p, value, name, choice);
  }

  lemma AuthCanBeAnswered(m: Path) returns (schedule: seq<P.Delivery>)
    requires Completes(m)
    ensures P.InitSucceeds(schedule) && P.AuthAnswered(m.w, P.Run(m.w, Start(m), schedule))
  {
    hide Fits;
    hide Audible;
    hide CanAnswer;
    hide P.AuthAnswered;
    hide P.Deliver;
    hide Session.Gathering;
    hide ServerHeardOut;
    schedule := Session.CanExchange(m, 1);
  }

  lemma AnotherName(w: P.Setup, p: P.Pair) returns (name: string)
    requires P.AuthAnswered(w, p) && |w.rTasks| >= 2
    ensures name in Names(w.rTasks) && name != p.i.common.task.value.name
  {
    hide II.Valid;
    hide RI.Valid;
    var names := Names(w.rTasks);
    assert names[0] != names[1];
    name := if names[0] == p.i.common.task.value.name then names[1] else names[0];
  }

  // ---------- A path there is ----------

  function Repeated(b: Byte): Cookie {
    [b, b, b, b, b, b, b, b, b, b, b, b, b, b, b, b]
  }

  /** Two clients that know the same two tasks, alone on their path. */
  function SmallPath(token: Option<AuthToken>, initiatorFirst: bool): Path {
    var tasks := [Task("chat", None, ["text"]), Task("files", None, ["part"])];
    var w := P.Setup((n: nat) => Draw(KeyPair(4 + 2 * n), Repeated(0), 0),
                     (n: nat) => Draw(KeyPair(5 + 2 * n), Repeated(1), 0),
                     2, KeyPair(0), KeyPair(1), tasks, tasks);
    Path(w, token, Draw(KeyPair(0), Repeated(0), 0), Draw(KeyPair(1), Repeated(1), 0), None, None,
         Greeting(KeyPair(2), Repeated(2), Csn(0, 0), Csn(0, 1), Csn(0, 2)),
         Greeting(KeyPair(3), Repeated(2), Csn(0, 0), Csn(0, 1), Csn(0, 2)),
         [2], initiatorFirst)
  }

  lemma SmallDraws(token: Option<AuthToken>, initiatorFirst: bool)
    ensures var m := SmallPath(token, initiatorFirst);
            FreshDraws(m.w) && Honest(m.toI, m.iDraw) && Honest(m.toR, m.rDraw)
  {
    assert Repeated(0)[0] != Repeated(1)[0] && Repeated(2)[0] != Repeated(0)[0] && Repeated(2)[0] != Repeated(1)[0];
  }

  lemma SmallSecrets(token: Option<AuthToken>, initiatorFirst: bool)
    ensures A.Secret(WorldOf(SmallPath(token, initiatorFirst), iset{2, 3}))
  {
  }

  /** In either mode and order, all that the theorems ask of a path can be had. */
  lemma SmallPathFits(token: Option<AuthToken>, initiatorFirst: bool)
    ensures var m := SmallPath(token, initiatorFirst);
            && Completes(m) && RelayIsServer(m, iset{2, 3})
            && m.token == token && |m.w.rTasks| == 2 && m.toR.news.Number() + 1 < CSN_LIMIT
  {
    hide FreshDraws;
    hide Honest;
    hide A.Secret;
    SmallDraws(token, initiatorFirst);
    SmallSecrets(token, initiatorFirst);
    var m := SmallPath(token, initiatorFirst);
    assert m.w.iTasks[0].name == m.w.rTasks[0].name;
    assert DrawnAt(m, if initiatorFirst then 1 else 0);
  }

  /** The same clients, but every context of the responder, or of the initiator, starts at the last 32-bit number. */
  function LatePath(token: Option<AuthToken>, initiatorFirst: bool, responder: bool): Path {
    var m := SmallPath(token, initiatorFirst);
    m.(w := if responder then m.w.(rTape := (n: nat) => m.w.rTape(n).(start := 0xffff_ffff))
            else m.w.(iTape := (n: nat) => m.w.iTape(n).(start := 0xffff_ffff)))
  }

  /** A first message can be refused, either way, on a path that is not crowded. */
  lemma LatePathFits(token: Option<AuthToken>, initiatorFirst: bool, responder: bool)
    ensures var m := LatePath(token, initiatorFirst, responder);
            Fits(m) && Uncrowded(m) && !(if responder then Audible(m) else Answerable(m))
  {
    SmallDraws(token, initiatorFirst);
    var m := LatePath(token, initiatorFirst, responder);
    assert DrawnAt(m, if initiatorFirst then 1 else 0);
  }

  function AllAddresses(): seq<Address> {
    seq(254, k requires 0 <= k < 254 => (k + 2) as Address)
  }

  /** And a responder can be crowded out. */
  lemma CrowdedPathFits(token: AuthToken)
    ensures var m := SmallPath(Some(token), false).(listed := AllAddresses());
            Fits(m) && !Uncrowded(m)
  {
    hide FreshDraws;
    hide Honest;
    SmallDraws(Some(token), false);
    assert AllAddresses()[0] == 2;
  }

  /** A world, a run from its initial state and a forged message that show it: agreement can be reached and lost. */
  lemma AgreementCanBeLost()
    ensures exists w, s, moves, b, choice ::
              && A.Secret(w) && A.Initial(w, s) && A.Forgeable(w, b)
              && LosesAgreement(w, A.Run(w, s, moves), A.ResponderMoves(Receive(b, choice)))
  {
    hide A.Secret;
    hide A.Initial;
    hide A.Forgeable;
    hide A.Run;
    hide Fits;
    hide ShareTask;
    hide SmallPath;
    hide WorldOf;
    hide Beginning;
    hide LosesAgreement;
    var order: IterOrder := s => SomeListing(s);
    var m, known, choice := SmallPath(None, true), iset{2, 3}, Choice(order, true);
    SmallPathFits(None, true);
    var moves, b := AgreementIsLost(m, known, choice);
  }

  /** And one that shows that a task can divide the clients. */
  lemma TasksCanDivide(token: Option<AuthToken>, value: Value)
    ensures exists m, schedule, name, choice ::
              && Fits(m) && m.token == token && P.InitSucceeds(schedule)
              && Divides(m.w, P.Run(m.w, Start(m), schedule), value, name, choice)
  {
    hide Fits;
    hide ShareTask;
    hide SmallPath;
    hide P.Deliver;
    hide Divides;
    hide RelayIsServer;
    var order: IterOrder := s => SomeListing(s);
    var m, choice := SmallPath(token, true), Choice(order, true);
    SmallPathFits(token, true);
    var schedule, name := ImitationIsPossible(m, value, choice);
  }

  /** Both are in the task phase and agree; after the move the responder is in the task phase still and they do not. */
  ghost predicate LosesAgreement(w: A.World, t: A.System, move: A.Move) {
    var u := A.Take(w, t, move);
    && t.i.common.phase.TaskPhase? && t.r.common.phase.TaskPhase? && A.Agree(t.i, t.r)
    && u.i == t.i && Reset(u.r) && !A.Agree(u.i, u.r)
  }

  /** In the task phase, with a context that has only just sent its key. */
  ghost predicate Reset(r: R.Responder) {
    && r.common.phase.TaskPhase? && r.initiator.handshake.IKeySent? && r.initiator.sessionKey.None?
    && NothingHeard(r.initiator.link) && r.initiator.link.ourCsn.Number() < 0x2_0000_0000
  }
}
